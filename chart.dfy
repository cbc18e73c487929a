/** The lightweight-charts widget: the moving averages, the acceptance test
    for a candle payload, the mapping of parallel t/o/h/l/c arrays into bars
    and lines, and the palette. Creating and removing chart series is left to
    the charting library and only their contents are modelled. */
module Chart {
  import opened JsValues
  import opened Seqs

  // ---------------------------------------------------------------------------
  // Moving averages

  /** A slot of an indicator series: a number, NaN, or `undefined` when the
      series is read past its end. */
  datatype Sample = Value(v: real) | NaN | PastEnd

  /** The simple moving average as a reference: NaN while fewer than `period`
      values are available, then the mean of the last `period` values. */
  function SmaSeries(values: seq<real>, period: int): (r: seq<Sample>)
    requires period >= 1
    ensures |r| == |values|
  {
    seq(|values|, i requires 0 <= i < |values| =>
      if i < period - 1 then NaN else Value(Sum(values[i - period + 1..i + 1]) / period as real))
  }

  /** The values the running sum of `sma` covers after i steps: the last
      `period` of the first i. */
  function Window(values: seq<real>, period: int, i: nat): seq<real>
    requires period >= 1 && i <= |values|
  {
    values[if i >= period then i - period else 0..i]
  }

  /** One step of the loop: add the new value, drop the one leaving the window. */
  lemma SlideWindow(values: seq<real>, period: int, i: nat)
    requires period >= 1 && i < |values|
    ensures Sum(Window(values, period, i + 1)) ==
      Sum(Window(values, period, i)) + values[i] - (if i >= period then values[i - period] else 0.0)
  {
    var lo := if i >= period then i - period else 0;
    assert values[lo..i + 1] == values[lo..i] + [values[i]];
    SumAppend(values[lo..i], values[i]);
    if i >= period {
      assert values[lo..i + 1][1..] == values[lo + 1..i + 1];
    }
  }

  /** The i-th reference entry in terms of the window after i + 1 steps. */
  lemma SmaEntry(values: seq<real>, period: int, i: nat)
    requires period >= 1 && i < |values|
    ensures SmaSeries(values, period)[i] ==
      if i < period - 1 then NaN else Value(Sum(Window(values, period, i + 1)) / period as real)
  {
    if i >= period - 1 {
      assert Window(values, period, i + 1) == values[i - period + 1..i + 1];
    }
  }

  /** `sma`: one pass with a running window sum. */
  method Sma(values: seq<real>, period: int) returns (out: seq<Sample>)
    requires period >= 1
    ensures out == SmaSeries(values, period)
  {
    out := [];
    var sum := 0.0;
    for i := 0 to |values|
      invariant |out| == i
      invariant forall j :: 0 <= j < i ==> out[j] == SmaSeries(values, period)[j]
      invariant sum == Sum(Window(values, period, i))
    {
      SlideWindow(values, period, i);
      SmaEntry(values, period, i);
      sum := sum + values[i];
      if i >= period {
        sum := sum - values[i - period];
      }
      if i >= period - 1 {
        out := out + [Value(sum / period as real)];
      } else {
        out := out + [NaN];
      }
    }
  }

  /** On a constant series the average is that constant once the window is full. */
  lemma SmaOfConstant(values: seq<real>, period: int, c: real)
    requires period >= 1
    requires forall i :: 0 <= i < |values| ==> values[i] == c
    ensures forall i :: period - 1 <= i < |values| ==> SmaSeries(values, period)[i] == Value(c)
  {
    forall i | period - 1 <= i < |values| ensures SmaSeries(values, period)[i] == Value(c) {
      var w := values[i - period + 1..i + 1];
      assert forall j :: 0 <= j < |w| ==> w[j] == values[i - period + 1 + j];
      SumConstant(w, c);
      assert Sum(w) / period as real == c;
    }
  }

  /** The EMA smoothing constant 2 / (period + 1); the period is any number
      `Number()` gives, fractional ones included. */
  function Smoothing(period: real): real
    requires period + 1.0 != 0.0
  {
    2.0 / (period + 1.0)
  }

  /** One smoothing step: the new value weighted by k, the previous average by 1 - k. */
  function Blend(v: real, prev: real, k: real): real {
    v * k + prev * (1.0 - k)
  }

  /** The exponential average: the first value, then each value blended with
      the previous average. */
  function EmaAt(values: seq<real>, k: real, i: nat): real
    requires i < |values|
  {
    if i == 0 then values[0] else Blend(values[i], EmaAt(values, k, i - 1), k)
  }

  function EmaSeries(values: seq<real>, k: real): (r: seq<real>)
    ensures |r| == |values|
  {
    seq(|values|, i requires 0 <= i < |values| => EmaAt(values, k, i))
  }

  /** `ema`: one pass carrying the previous output. */
  method Ema(values: seq<real>, period: real) returns (out: seq<real>)
    requires period + 1.0 != 0.0
    ensures |out| == |values|
    ensures |values| > 0 ==> out[0] == values[0]
    ensures forall i :: 0 < i < |values| ==> out[i] == Blend(values[i], out[i - 1], Smoothing(period))
    ensures out == EmaSeries(values, Smoothing(period))
  {
    out := [];
    var k := Smoothing(period);
    // values[0] is undefined on an empty input; the loop then never reads prev
    var prev := if |values| > 0 then values[0] else 0.0;
    for i := 0 to |values|
      invariant |out| == i
      invariant forall j :: 0 <= j < i ==> out[j] == EmaAt(values, k, j)
      invariant 0 < i ==> prev == out[i - 1]
    {
      var v := if i == 0 then values[i] else Blend(values[i], prev, k);
      out := out + [v];
      prev := v;
    }
    EmaSeriesRecurrence(values, k, out);
  }

  /** A series that agrees with the reference at every index is the reference,
      and satisfies its recurrence. */
  lemma EmaSeriesRecurrence(values: seq<real>, k: real, out: seq<real>)
    requires |out| == |values|
    requires forall j :: 0 <= j < |values| ==> out[j] == EmaAt(values, k, j)
    ensures out == EmaSeries(values, k)
    ensures |values| > 0 ==> out[0] == values[0]
    ensures forall i :: 0 < i < |values| ==> out[i] == Blend(values[i], out[i - 1], k)
  {
    forall i | 0 < i < |values| ensures out[i] == Blend(values[i], out[i - 1], k) {
      assert out[i] == EmaAt(values, k, i) && out[i - 1] == EmaAt(values, k, i - 1);
    }
    assert forall i :: 0 <= i < |values| ==> out[i] == EmaSeries(values, k)[i];
  }

  /** On a constant series the average is that constant everywhere. */
  lemma {:induction false} EmaOfConstant(values: seq<real>, k: real, c: real, i: nat)
    requires i < |values|
    requires forall j :: 0 <= j < |values| ==> values[j] == c
    ensures EmaAt(values, k, i) == c
  {
    if i > 0 {
      EmaOfConstant(values, k, c, i - 1);
      assert Blend(c, c, k) == c;
    }
  }

  // ---------------------------------------------------------------------------
  // Candle payloads

  /** The history endpoint's answer `{ s, t, o, h, l, c }`: each array either
      present or absent (null or missing). */
  datatype CandlePayload = CandlePayload(
    s: Option<string>,
    t: Option<seq<int>>,
    o: Option<seq<JsValue>>,
    h: Option<seq<JsValue>>,
    l: Option<seq<JsValue>>,
    c: Option<seq<JsValue>>)

  /** `hasCandles`: all five arrays present and at least one time. */
  predicate HasCandles(d: CandlePayload) {
    d.t.Some? && d.o.Some? && d.h.Some? && d.l.Some? && d.c.Some? && |d.t.value| > 0
  }

  /** The payload is used unless `!hasCandles(data) || (data.s && data.s !== 'ok')`;
      an absent or empty status string is falsy and so accepted. */
  predicate Accepted(d: CandlePayload) {
    HasCandles(d) && !(d.s.Some? && d.s.value != "" && d.s.value != "ok")
  }

  lemma AcceptedIff(d: CandlePayload)
    ensures Accepted(d) <==>
      && d.t.Some? && d.o.Some? && d.h.Some? && d.l.Some? && d.c.Some? && |d.t.value| > 0
      && (d.s == None || d.s == Some("") || d.s == Some("ok"))
  {
  }

  datatype Bar = Bar(time: int, open: real, high: real, low: real, close: real)

  /** `data.t.map((t, i) => ...)`: one bar per time, the prices read from the
      same index of o/h/l/c (undefined past their end). */
  function Bars(d: CandlePayload, number: JsValue -> real): (r: seq<Bar>)
    requires HasCandles(d)
    ensures |r| == |d.t.value|
  {
    var t := d.t.value;
    seq(|t|, i requires 0 <= i < |t| =>
      Bar(t[i], number(At(d.o.value, i)), number(At(d.h.value, i)),
          number(At(d.l.value, i)), number(At(d.c.value, i))))
  }

  /** Bars written back as an 'ok' payload of parallel arrays. */
  function AsPayload(bars: seq<Bar>): CandlePayload {
    CandlePayload(
      Some("ok"),
      Some(seq(|bars|, i requires 0 <= i < |bars| => bars[i].time)),
      Some(seq(|bars|, i requires 0 <= i < |bars| => Num(bars[i].open))),
      Some(seq(|bars|, i requires 0 <= i < |bars| => Num(bars[i].high))),
      Some(seq(|bars|, i requires 0 <= i < |bars| => Num(bars[i].low))),
      Some(seq(|bars|, i requires 0 <= i < |bars| => Num(bars[i].close))))
  }

  /** Mapping the parallel arrays recovers every bar, in order: bar i takes
      its time and prices from index i of each array. */
  lemma BarsRoundTrip(bars: seq<Bar>, number: JsValue -> real)
    requires |bars| > 0 && NumberKeepsNumbers(number)
    ensures Accepted(AsPayload(bars))
    ensures Bars(AsPayload(bars), number) == bars
  {
    var d := AsPayload(bars);
    forall i | 0 <= i < |bars| ensures Bars(d, number)[i] == bars[i] {
      var b := bars[i];
      assert At(d.o.value, i) == Num(b.open) && At(d.h.value, i) == Num(b.high);
      assert At(d.l.value, i) == Num(b.low) && At(d.c.value, i) == Num(b.close);
      assert number(Num(b.open)) == b.open && number(Num(b.high)) == b.high;
      assert number(Num(b.low)) == b.low && number(Num(b.close)) == b.close;
    }
  }

  // ---------------------------------------------------------------------------
  // Lines

  datatype LinePoint = LinePoint(time: int, value: Sample)

  predicate NotNaN(pt: LinePoint) {
    !pt.value.NaN?
  }

  function SampleAt(samples: seq<Sample>, i: nat): Sample {
    if i < |samples| then samples[i] else PastEnd
  }

  /** The indicator line: one point per time carrying `samples[i]`, with the NaN
      points dropped. */
  function IndicatorLine(t: seq<int>, samples: seq<Sample>): seq<LinePoint> {
    Filter(seq(|t|, i requires 0 <= i < |t| => LinePoint(t[i], SampleAt(samples, i))), NotNaN)
  }

  lemma IndicatorLineHasNoNaN(t: seq<int>, samples: seq<Sample>)
    ensures forall pt :: pt in IndicatorLine(t, samples) ==> !pt.value.NaN?
  {
    FilterMembers(seq(|t|, i requires 0 <= i < |t| => LinePoint(t[i], SampleAt(samples, i))), NotNaN);
  }

  /** The SMA line over a full series starts at the period-th time: it has one
      point for each time from index period - 1 on, carrying that window's mean. */
  lemma SmaLine(t: seq<int>, values: seq<real>, period: int)
    requires period >= 1 && |values| == |t| && period - 1 <= |t|
    ensures |IndicatorLine(t, SmaSeries(values, period))| == |t| - (period - 1)
    ensures forall j :: 0 <= j < |t| - (period - 1) ==>
      IndicatorLine(t, SmaSeries(values, period))[j] ==
        LinePoint(t[j + period - 1], Value(Sum(values[j..j + period]) / period as real))
  {
    var samples := SmaSeries(values, period);
    var pts := seq(|t|, i requires 0 <= i < |t| => LinePoint(t[i], SampleAt(samples, i)));
    var n := period - 1;
    forall j | 0 <= j < n ensures !NotNaN(pts[j]) {
      assert pts[j].value == samples[j];
    }
    forall j | n <= j < |pts| ensures NotNaN(pts[j]) {
      assert pts[j].value == samples[j];
    }
    FilterSuffix(pts, NotNaN, n);
    forall j | 0 <= j < |t| - n
      ensures pts[n..][j] == LinePoint(t[j + n], Value(Sum(values[j..j + period]) / period as real))
    {
      assert pts[n..][j] == pts[j + n];
      assert samples[j + n] == Value(Sum(values[j..j + period]) / period as real);
    }
  }

  /** A multi-symbol line: the closes against the times. */
  function CloseLine(d: CandlePayload, number: JsValue -> real): seq<LinePoint>
    requires HasCandles(d)
  {
    var t := d.t.value;
    seq(|t|, i requires 0 <= i < |t| => LinePoint(t[i], Value(number(At(d.c.value, i)))))
  }

  // ---------------------------------------------------------------------------
  // Palette

  const Palette: seq<string> := ["#8b5cf6", "#06b6d4", "#10b981", "#f59e0b", "#ef4444"]

  /** `palette[idx % palette.length]`. */
  function SeriesColor(idx: nat): string {
    Palette[idx % |Palette|]
  }

  /** Two series share a colour exactly when their selection indices agree
      modulo five; so the at most five selected symbols get distinct colours. */
  lemma SeriesColorsDistinct(i: nat, j: nat)
    ensures SeriesColor(i) == SeriesColor(j) <==> i % 5 == j % 5
  {
    assert Palette[0][1] == '8' && Palette[1][1] == '0' && Palette[2][1] == '1';
    assert Palette[3][1] == 'f' && Palette[4][1] == 'e';
    assert Palette[1][2] == '6' && Palette[2][2] == '0';
  }

  // ---------------------------------------------------------------------------
  // What one load puts on the chart

  datatype Indicator = NoIndicator | SmaIndicator | EmaIndicator

  datatype Line = Line(title: string, color: string, points: seq<LinePoint>)

  /** Nothing, one candlestick series with an optional indicator line, or one
      optional line per selected symbol (absent for a rejected payload). */
  datatype ChartContent =
    | Blank
    | CandleChart(bars: seq<Bar>, indicatorLine: Option<seq<LinePoint>>)
    | LineChart(lines: seq<Option<Line>>)

  /** `data.c.map(Number)`. */
  function Closes(d: CandlePayload, number: JsValue -> real): seq<real>
    requires d.c.Some?
  {
    seq(|d.c.value|, i requires 0 <= i < |d.c.value| => number(d.c.value[i]))
  }

  /** The indicator series of the closes. The period is the number read from
      the input; the SMA needs a whole one. */
  function IndicatorSamples(closes: seq<real>, indicator: Indicator, period: real): seq<Sample>
    requires indicator == SmaIndicator ==> period >= 1.0 && period.Floor as real == period
    requires indicator == EmaIndicator ==> period + 1.0 != 0.0
  {
    match indicator
    case SmaIndicator => SmaSeries(closes, period.Floor)
    case EmaIndicator =>
      var e := EmaSeries(closes, Smoothing(period));
      seq(|e|, i requires 0 <= i < |e| => Value(e[i]))
    case NoIndicator => []
  }

  function SymbolLine(idx: nat, symbol: string, d: CandlePayload, number: JsValue -> real): Option<Line> {
    if Accepted(d) then Some(Line(symbol, SeriesColor(idx), CloseLine(d, number))) else None
  }

  /** One load of the chart, given the payload fetched for each selected symbol. */
  function ChartLoad(selected: seq<string>, payloads: seq<CandlePayload>, indicator: Indicator,
                     period: real, number: JsValue -> real): ChartContent
    requires |payloads| == |selected|
    requires |selected| == 1 && indicator == SmaIndicator ==> period >= 1.0 && period.Floor as real == period
    requires |selected| == 1 && indicator == EmaIndicator ==> period + 1.0 != 0.0
  {
    if |selected| == 0 then Blank
    else if |selected| == 1 then
      var d := payloads[0];
      if !Accepted(d) then Blank
      else
        CandleChart(Bars(d, number),
          if indicator == NoIndicator then None
          else Some(IndicatorLine(d.t.value, IndicatorSamples(Closes(d, number), indicator, period))))
    else
      LineChart(seq(|selected|, idx requires 0 <= idx < |selected| =>
        SymbolLine(idx, selected[idx], payloads[idx], number)))
  }

  /** With one symbol, an accepted payload gives one bar per time and an
      indicator line free of NaN; a rejected one gives nothing. */
  lemma SingleSymbolChart(symbol: string, d: CandlePayload, indicator: Indicator, period: real,
                          number: JsValue -> real)
    requires indicator == SmaIndicator ==> period >= 1.0 && period.Floor as real == period
    requires indicator == EmaIndicator ==> period + 1.0 != 0.0
    ensures var r := ChartLoad([symbol], [d], indicator, period, number);
      && (!Accepted(d) ==> r == Blank)
      && (Accepted(d) ==> r.CandleChart? && |r.bars| == |d.t.value|
                          && (r.indicatorLine.Some? <==> indicator != NoIndicator)
                          && (r.indicatorLine.Some? ==> forall pt :: pt in r.indicatorLine.value ==> !pt.value.NaN?))
  {
    if Accepted(d) && indicator != NoIndicator {
      IndicatorLineHasNoNaN(d.t.value, IndicatorSamples(Closes(d, number), indicator, period));
    }
  }

  /** With several symbols, the idx-th one has a line exactly when its payload
      is accepted, titled by the symbol and coloured palette[idx % 5]. */
  lemma MultiSymbolChart(selected: seq<string>, payloads: seq<CandlePayload>, indicator: Indicator,
                         period: real, number: JsValue -> real)
    requires |payloads| == |selected| && 2 <= |selected|
    ensures var r := ChartLoad(selected, payloads, indicator, period, number);
      && r.LineChart? && |r.lines| == |selected|
      && (forall idx :: 0 <= idx < |selected| ==>
            (r.lines[idx].Some? <==> Accepted(payloads[idx]))
            && (r.lines[idx].Some? ==> r.lines[idx].value.title == selected[idx]
                                       && r.lines[idx].value.color == Palette[idx % 5]
                                       && r.lines[idx].value.points == CloseLine(payloads[idx], number)))
  {
  }

  /** Within a selection of at most five symbols no two lines share a colour. */
  lemma MultiSymbolColorsDistinct(selected: seq<string>, payloads: seq<CandlePayload>, indicator: Indicator,
                                  period: real, number: JsValue -> real)
    requires |payloads| == |selected| && 2 <= |selected| <= 5
    ensures var r := ChartLoad(selected, payloads, indicator, period, number);
      && r.LineChart? && |r.lines| == |selected|
      && (forall i, j :: 0 <= i < j < |selected| && r.lines[i].Some? && r.lines[j].Some? ==>
            r.lines[i].value.color != r.lines[j].value.color)
  {
    forall i: nat, j: nat | i < j < |selected| ensures SeriesColor(i) != SeriesColor(j) {
      SeriesColorsDistinct(i, j);
    }
  }
}
