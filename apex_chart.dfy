/** The ApexCharts panel: one candlestick series per selected symbol whose
    payload passes the panel's own acceptance test, in selection order. */
module ApexChart {
  import opened JsValues
  import opened Seqs
  import Chart

  /** Every array present (an empty array is truthy) and the status exactly 'ok'. */
  predicate ApexAccepted(d: Chart.CandlePayload) {
    d.t.Some? && d.o.Some? && d.h.Some? && d.l.Some? && d.c.Some? && d.s == Some("ok")
  }

  /** `{ x: new Date(t * 1000), y: [open, high, low, close] }`, the date kept as
      milliseconds since the epoch. */
  datatype Candle = Candle(x: int, y: (real, real, real, real))

  datatype Series = Series(name: string, candles: seq<Candle>)

  function CandleData(d: Chart.CandlePayload, number: JsValue -> real): (r: seq<Candle>)
    requires ApexAccepted(d)
    ensures |r| == |d.t.value|
  {
    var t := d.t.value;
    seq(|t|, i requires 0 <= i < |t| =>
      Candle(t[i] * 1000, (number(At(d.o.value, i)), number(At(d.h.value, i)),
                           number(At(d.l.value, i)), number(At(d.c.value, i)))))
  }

  /** What one symbol's fetch resolves to: its series, or null when rejected. */
  function SeriesFor(symbol: string, d: Chart.CandlePayload, number: JsValue -> real): Option<Series> {
    if ApexAccepted(d) then Some(Series(symbol, CandleData(d, number))) else None
  }

  function Entries(selected: seq<string>, payloads: seq<Chart.CandlePayload>,
                   number: JsValue -> real): (r: seq<Option<Series>>)
    requires |payloads| == |selected|
    ensures |r| == |selected|
  {
    seq(|selected|, i requires 0 <= i < |selected| => SeriesFor(selected[i], payloads[i], number))
  }

  /** The series state after a load: cleared for an empty selection, else the
      non-null results of `Promise.all` in selection order. */
  function LoadSeries(selected: seq<string>, payloads: seq<Chart.CandlePayload>,
                      number: JsValue -> real): seq<Series>
    requires |payloads| == |selected|
  {
    if |selected| == 0 then [] else Present(Entries(selected, payloads, number))
  }

  /** Every accepted symbol's series is shown, at the position given by the
      number of accepted symbols before it. */
  lemma LoadSeriesShows(selected: seq<string>, payloads: seq<Chart.CandlePayload>,
                        number: JsValue -> real, i: nat)
    requires |payloads| == |selected| && i < |selected|
    requires ApexAccepted(payloads[i])
    ensures var r := LoadSeries(selected, payloads, number);
      var e := Entries(selected, payloads, number);
      && |Present(e[..i])| < |r|
      && r[|Present(e[..i])|] == Series(selected[i], CandleData(payloads[i], number))
  {
    PresentAt(Entries(selected, payloads, number), i);
  }

  /** Two accepted symbols keep their selection order among the series. */
  lemma LoadSeriesKeepsOrder(selected: seq<string>, payloads: seq<Chart.CandlePayload>,
                             number: JsValue -> real, i: nat, j: nat)
    requires |payloads| == |selected| && i < j < |selected|
    requires ApexAccepted(payloads[i]) && ApexAccepted(payloads[j])
    ensures var r := LoadSeries(selected, payloads, number);
      var e := Entries(selected, payloads, number);
      && |Present(e[..i])| < |Present(e[..j])| < |r|
      && r[|Present(e[..i])|] == Series(selected[i], CandleData(payloads[i], number))
      && r[|Present(e[..j])|] == Series(selected[j], CandleData(payloads[j], number))
  {
    var e := Entries(selected, payloads, number);
    LoadSeriesShows(selected, payloads, number, i);
    LoadSeriesShows(selected, payloads, number, j);
    assert e[..j] == e[..i] + e[i..j];
    PresentAppend(e[..i], e[i..j]);
    assert e[i..j] == [e[i]] + e[i + 1..j];
    PresentAppend([e[i]], e[i + 1..j]);
  }

  /** Every series shown comes from an accepted symbol: the k-th is that of the
      symbol with exactly k accepted symbols before it. */
  lemma LoadSeriesSound(selected: seq<string>, payloads: seq<Chart.CandlePayload>,
                        number: JsValue -> real, k: nat)
    requires |payloads| == |selected| && k < |LoadSeries(selected, payloads, number)|
    ensures exists i ::
      && 0 <= i < |selected| && ApexAccepted(payloads[i])
      && LoadSeries(selected, payloads, number)[k] == Series(selected[i], CandleData(payloads[i], number))
      && |Present(Entries(selected, payloads, number)[..i])| == k
  {
    var e := Entries(selected, payloads, number);
    PresentFrom(e, k);
    var i :| 0 <= i < |e| && e[i] == Some(Present(e)[k]) && |Present(e[..i])| == k;
    assert ApexAccepted(payloads[i]);
  }

  /** When every payload is accepted the series are named by the selection, one
      for one; when none is, the panel is empty. */
  lemma LoadSeriesNames(selected: seq<string>, payloads: seq<Chart.CandlePayload>, number: JsValue -> real)
    requires |payloads| == |selected|
    ensures (forall i :: 0 <= i < |payloads| ==> ApexAccepted(payloads[i])) ==>
      var r := LoadSeries(selected, payloads, number);
      |r| == |selected| && forall i :: 0 <= i < |r| ==> r[i].name == selected[i]
    ensures (forall i :: 0 <= i < |payloads| ==> !ApexAccepted(payloads[i])) ==>
      LoadSeries(selected, payloads, number) == []
  {
    var e := Entries(selected, payloads, number);
    if forall i :: 0 <= i < |payloads| ==> ApexAccepted(payloads[i]) {
      assert forall i :: 0 <= i < |e| ==> e[i].Some?;
      PresentAllSome(e);
    }
    if forall i :: 0 <= i < |payloads| ==> !ApexAccepted(payloads[i]) {
      assert forall i :: 0 <= i < |e| ==> e[i].None?;
      PresentNoneSome(e);
    }
  }

  /** Both panels read the same candle out of a payload: the time scaled to
      milliseconds and the four prices in open, high, low, close order. */
  lemma CandlesMatchBars(d: Chart.CandlePayload, number: JsValue -> real)
    requires ApexAccepted(d) && Chart.HasCandles(d)
    ensures |CandleData(d, number)| == |Chart.Bars(d, number)|
    ensures forall i :: 0 <= i < |CandleData(d, number)| ==>
      var b := Chart.Bars(d, number)[i];
      CandleData(d, number)[i] == Candle(b.time * 1000, (b.open, b.high, b.low, b.close))
  {
  }

  /** A payload this panel accepts is accepted by the lightweight chart too once
      it has a time; the converse fails on a payload without a status. */
  lemma AcceptanceDiffers(d: Chart.CandlePayload)
    ensures ApexAccepted(d) && |d.t.value| > 0 ==> Chart.Accepted(d)
    ensures var noStatus := Chart.CandlePayload(None, Some([0]), Some([]), Some([]), Some([]), Some([]));
      Chart.Accepted(noStatus) && !ApexAccepted(noStatus)
    ensures var noTimes := Chart.CandlePayload(Some("ok"), Some([]), Some([]), Some([]), Some([]), Some([]));
      ApexAccepted(noTimes) && !Chart.Accepted(noTimes)
  {
  }
}
