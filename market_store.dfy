/** The client-side market store: the canonical Market record, the
    normalisation of raw upstream records, the bounded chart selection, the
    date-range arithmetic and the store object with its setter actions. */
module MarketStore {
  import opened JsValues
  import opened Seqs

  /** One tradable pair in canonical form. Normalisation always fills the
      optional numeric field and the three flags, so they are plain values here;
      the localized names stay optional. */
  datatype Market = Market(
    symbol: string,
    baseAsset: string,
    quoteAsset: string,
    faBaseAsset: Option<string>,
    faQuoteAsset: Option<string>,
    price: real,
    change24h: real,
    volume24h: real,
    change7D: real,
    isSpot: bool,
    isUsdtBased: bool,
    isTmnBased: bool)

  datatype SortKey = Price | Change24h | Volume24h
  datatype QuoteFilter = All | Usdt | Tmn
  /** Candle widths '60', '240', 'D' and 'W'. */
  datatype Resolution = OneHour | FourHours | OneDay | OneWeek
  datatype DateRange = Today | Week | Month | ThreeMonths | SixMonths | Year | Custom

  // ---------------------------------------------------------------------------
  // Normalisation of upstream records

  /** The nested `stats` object of an upstream record. */
  datatype Stats = Stats(change24h: JsValue, volume24h: JsValue, change7d: JsValue)

  /** An upstream market record as parsed from JSON. */
  datatype RawMarket = RawMarket(
    symbol: string,
    baseAsset: string,
    quoteAsset: string,
    faBaseAsset: Option<string>,
    faQuoteAsset: Option<string>,
    price: JsValue,
    change24h: JsValue,
    volume24h: JsValue,
    change7D: JsValue,
    stats: Option<Stats>,
    isSpot: Option<bool>,
    isUsdtBased: Option<bool>,
    isTmnBased: Option<bool>)

  /** `m?.stats?.[field]`. */
  function StatsChange24h(m: RawMarket): JsValue {
    if m.stats.Some? then m.stats.value.change24h else Undefined
  }

  function StatsVolume24h(m: RawMarket): JsValue {
    if m.stats.Some? then m.stats.value.volume24h else Undefined
  }

  function StatsChange7d(m: RawMarket): JsValue {
    if m.stats.Some? then m.stats.value.change7d else Undefined
  }

  /** The value `top ?? stats ?? 0` before Number() is applied. */
  function WithFallback(top: JsValue, nested: JsValue): JsValue {
    Coalesce(top, Coalesce(nested, Num(0.0)))
  }

  function NormalizeMarket(m: RawMarket, number: JsValue -> real): Market {
    Market(
      m.symbol, m.baseAsset, m.quoteAsset, m.faBaseAsset, m.faQuoteAsset,
      number(m.price),
      number(WithFallback(m.change24h, StatsChange24h(m))),
      number(WithFallback(m.volume24h, StatsVolume24h(m))),
      number(WithFallback(m.change7D, StatsChange7d(m))),
      Boolean(m.isSpot), Boolean(m.isUsdtBased), Boolean(m.isTmnBased))
  }

  /** `(data?.markets || []).map(...)`: the payload's `markets` array, absent
      meaning empty. */
  function Normalize(markets: Option<seq<RawMarket>>, number: JsValue -> real): seq<Market> {
    var raw := if markets.Some? then markets.value else [];
    seq(|raw|, i requires 0 <= i < |raw| => NormalizeMarket(raw[i], number))
  }

  /** Normalisation keeps the number and the order of the records and copies
      the identifying fields; an absent list gives no markets. */
  lemma NormalizeKeepsRecords(markets: Option<seq<RawMarket>>, number: JsValue -> real)
    ensures markets.None? ==> Normalize(markets, number) == []
    ensures markets.Some? ==> |Normalize(markets, number)| == |markets.value|
    ensures markets.Some? ==> forall i :: 0 <= i < |markets.value| ==>
      var m, raw := Normalize(markets, number)[i], markets.value[i];
      m.symbol == raw.symbol && m.baseAsset == raw.baseAsset && m.quoteAsset == raw.quoteAsset
      && m.faBaseAsset == raw.faBaseAsset && m.faQuoteAsset == raw.faQuoteAsset
      && m.price == number(raw.price)
  {
    if markets.Some? {
      forall i | 0 <= i < |markets.value|
        ensures Normalize(markets, number)[i] == NormalizeMarket(markets.value[i], number)
      {
      }
    }
  }

  /** The 24h change, 24h volume and 7-day change take the top-level value when
      it is present, else the `stats` value, else 0; the flags are true exactly
      when the upstream flag is present and true. */
  lemma NormalizeFallbacks(raw: RawMarket, number: JsValue -> real)
    requires NumberKeepsNumbers(number)
    ensures var m := NormalizeMarket(raw, number);
      && m.change24h == (if !raw.change24h.Undefined? then number(raw.change24h)
                         else if !StatsChange24h(raw).Undefined? then number(StatsChange24h(raw))
                         else 0.0)
      && m.volume24h == (if !raw.volume24h.Undefined? then number(raw.volume24h)
                         else if !StatsVolume24h(raw).Undefined? then number(StatsVolume24h(raw))
                         else 0.0)
      && m.change7D == (if !raw.change7D.Undefined? then number(raw.change7D)
                        else if !StatsChange7d(raw).Undefined? then number(StatsChange7d(raw))
                        else 0.0)
      && (m.isSpot <==> raw.isSpot == Some(true))
      && (m.isUsdtBased <==> raw.isUsdtBased == Some(true))
      && (m.isTmnBased <==> raw.isTmnBased == Some(true))
  {
    assert number(Num(0.0)) == 0.0;
  }

  /** A canonical market written back as an upstream record. */
  function AsRaw(m: Market): RawMarket {
    RawMarket(
      m.symbol, m.baseAsset, m.quoteAsset, m.faBaseAsset, m.faQuoteAsset,
      Num(m.price), Num(m.change24h), Num(m.volume24h), Num(m.change7D), None,
      Some(m.isSpot), Some(m.isUsdtBased), Some(m.isTmnBased))
  }

  /** Normalisation is idempotent: re-normalising a canonical list gives the
      same list back. */
  lemma NormalizeIdempotent(ms: seq<Market>, number: JsValue -> real)
    requires NumberKeepsNumbers(number)
    ensures Normalize(Some(seq(|ms|, i requires 0 <= i < |ms| => AsRaw(ms[i]))), number) == ms
  {
    var raw := seq(|ms|, i requires 0 <= i < |ms| => AsRaw(ms[i]));
    var r := Normalize(Some(raw), number);
    forall i | 0 <= i < |ms| ensures r[i] == ms[i] {
      var m := ms[i];
      assert raw[i] == AsRaw(m);
      assert r[i] == NormalizeMarket(AsRaw(m), number);
      assert number(Num(m.price)) == m.price;
      assert number(Num(m.change24h)) == m.change24h;
      assert number(Num(m.volume24h)) == m.volume24h;
      assert number(Num(m.change7D)) == m.change7D;
    }
  }

  // ---------------------------------------------------------------------------
  // Chart selection

  const MaxSelected: nat := 5
  const InitialSelection: seq<string> := ["SOLUSDT", "BTCUSDT"]

  /** What the store promises of `selected`: at most five symbols, none twice. */
  predicate SelectionValid(s: seq<string>) {
    |s| <= MaxSelected && NoDuplicates(s)
  }

  /** toggleSelected: a selected symbol is removed everywhere; any other is
      appended and the result cut to its first five entries. */
  function Toggle(cur: seq<string>, symbol: string): seq<string> {
    if symbol in cur then Filter(cur, s => s != symbol) else Take(cur + [symbol], MaxSelected)
  }

  lemma ToggleAppends(cur: seq<string>, symbol: string)
    requires symbol !in cur && |cur| < MaxSelected
    ensures Toggle(cur, symbol) == cur + [symbol]
  {
  }

  /** With five symbols selected, a new one is appended and cut off again: the
      selection does not change. */
  lemma ToggleWhenFull(cur: seq<string>, symbol: string)
    requires symbol !in cur && |cur| == MaxSelected
    ensures Toggle(cur, symbol) == cur
  {
    assert (cur + [symbol])[..MaxSelected] == cur;
  }

  /** Toggling a selected symbol removes every occurrence of it and keeps the
      other symbols. */
  lemma ToggleRemoves(cur: seq<string>, symbol: string)
    requires symbol in cur
    ensures symbol !in Toggle(cur, symbol)
    ensures forall x :: x in Toggle(cur, symbol) <==> x in cur && x != symbol
  {
    FilterMembers(cur, s => s != symbol);
  }

  /** In a selection without duplicates, removal cuts out exactly the one
      position holding the symbol, so the others keep their relative order. */
  lemma ToggleRemovesAt(cur: seq<string>, symbol: string, i: nat)
    requires NoDuplicates(cur) && i < |cur| && cur[i] == symbol
    ensures Toggle(cur, symbol) == cur[..i] + cur[i+1..]
  {
    FilterDropsOne(cur, s => s != symbol, i);
  }

  /** An unselected symbol toggled twice leaves the selection as it was, when
      there was room for it. */
  lemma ToggleTwice(cur: seq<string>, symbol: string)
    requires symbol !in cur && |cur| < MaxSelected
    ensures Toggle(Toggle(cur, symbol), symbol) == cur
  {
    var p := s => s != symbol;
    assert Toggle(cur, symbol) == cur + [symbol];
    FilterAppend(cur, [symbol], p);
    assert forall j :: 0 <= j < |cur| ==> p(cur[j]);
    FilterAll(cur, p);
  }

  lemma ToggleKeepsValid(cur: seq<string>, symbol: string)
    requires SelectionValid(cur)
    ensures SelectionValid(Toggle(cur, symbol))
  {
    if symbol in cur {
      FilterKeepsNoDuplicates(cur, s => s != symbol);
    } else {
      var longer := cur + [symbol];
      assert NoDuplicates(longer) by {
        forall i, j | 0 <= i < j < |longer| ensures longer[i] != longer[j] {
          if j == |cur| {
            assert longer[i] == cur[i];
          }
        }
      }
    }
  }

  /** The selection actions a user can take through the page. */
  datatype SelectionAction = ToggleSymbol(symbol: string) | ClearAll

  function Apply(cur: seq<string>, a: SelectionAction): seq<string> {
    match a
    case ToggleSymbol(symbol) => Toggle(cur, symbol)
    case ClearAll => []
  }

  function Replay(cur: seq<string>, actions: seq<SelectionAction>): seq<string>
    decreases |actions|
  {
    if actions == [] then cur else Replay(Apply(cur, actions[0]), actions[1..])
  }

  /** Every sequence of toggles and clears from a valid selection keeps it valid. */
  lemma {:induction false} ReplayKeepsValid(cur: seq<string>, actions: seq<SelectionAction>)
    requires SelectionValid(cur)
    ensures SelectionValid(Replay(cur, actions))
    decreases |actions|
  {
    if actions != [] {
      match actions[0] {
        case ToggleSymbol(symbol) => ToggleKeepsValid(cur, symbol);
        case ClearAll =>
      }
      ReplayKeepsValid(Apply(cur, actions[0]), actions[1..]);
    }
  }

  /** The store's initial selection is valid, hence so is every selection
      reached from it. */
  lemma SelectionAlwaysValid(actions: seq<SelectionAction>)
    ensures SelectionValid(Replay(InitialSelection, actions))
  {
    assert SelectionValid(InitialSelection);
    ReplayKeepsValid(InitialSelection, actions);
  }

  // ---------------------------------------------------------------------------
  // Date ranges

  const SecondsPerDay: int := 24 * 60 * 60

  /** The day offset of each preset; any other range, 'custom' included, takes
      the 30-day default. */
  function PresetDays(range: DateRange): nat {
    match range
    case Today => 1
    case Week => 7
    case Month => 30
    case ThreeMonths => 90
    case SixMonths => 180
    case Year => 365
    case Custom => 30
  }

  /** JavaScript truthiness of an optional timestamp: absent and 0 are false. */
  predicate Truthy(x: Option<int>) {
    x.Some? && x.value != 0
  }

  /** The (dateFrom, dateTo) pair that setDateRange stores. */
  function DateWindow(range: DateRange, from: Option<int>, to: Option<int>, now: int): (int, int) {
    if range == Custom && Truthy(from) && Truthy(to) then (from.value, to.value)
    else (now - PresetDays(range) * SecondsPerDay, now)
  }

  /** A custom range with both bounds given (and non-zero) is stored as given,
      whatever the time. */
  lemma CustomWindowVerbatim(from: int, to: int, now: int)
    requires from != 0 && to != 0
    ensures DateWindow(Custom, Some(from), Some(to), now) == (from, to)
  {
  }

  /** Every other call ends the window now and starts it the preset's number of
      days earlier; a custom range with a missing or zero bound falls back to
      30 days. */
  lemma PresetWindow(range: DateRange, from: Option<int>, to: Option<int>, now: int)
    requires !(range == Custom && Truthy(from) && Truthy(to))
    ensures DateWindow(range, from, to, now).1 == now
    ensures now - DateWindow(range, from, to, now).0 == PresetDays(range) * 86400
    ensures range == Custom ==> now - DateWindow(range, from, to, now).0 == 30 * 86400
  {
  }

  // ---------------------------------------------------------------------------
  // The store

  /** The single store instance: state fields and the setter actions. The
      clock (`Math.floor(Date.now() / 1000)`) is passed in as `now`, and the
      market fetch is split into its two `set` calls around the request. */
  class Store {
    var markets: seq<Market>
    var loading: bool
    var search: string
    var sortKey: SortKey
    var sortAsc: bool
    var quoteFilter: QuoteFilter
    var selected: seq<string>
    var resolution: Resolution
    var dateRange: DateRange
    var dateFrom: int
    var dateTo: int

    ghost predicate Valid()
      reads this
    {
      SelectionValid(selected)
    }

    constructor (now: int)
      ensures Valid()
      ensures markets == [] && !loading && search == ""
      ensures sortKey == Change24h && !sortAsc && quoteFilter == Usdt
      ensures selected == InitialSelection && resolution == OneDay
      ensures dateRange == Month && dateFrom == now - 30 * SecondsPerDay && dateTo == now
    {
      markets := [];
      loading := false;
      search := "";
      sortKey := Change24h;
      sortAsc := false;
      quoteFilter := Usdt;
      selected := InitialSelection;
      resolution := OneDay;
      dateRange := Month;
      dateFrom := now - 30 * 24 * 60 * 60;
      dateTo := now;
    }

    /** The `set({ loading: true })` before the request. */
    method BeginFetch()
      modifies this`loading
      ensures loading
    {
      loading := true;
    }

    /** The `set({ markets, loading: false })` after the response, given the
        parsed `markets` field of the payload. */
    method CompleteFetch(payload: Option<seq<RawMarket>>, number: JsValue -> real)
      modifies this`markets, this`loading
      ensures markets == Normalize(payload, number) && !loading
    {
      markets := Normalize(payload, number);
      loading := false;
    }

    method SetSearch(v: string)
      modifies this`search
      ensures search == v
    {
      search := v;
    }

    method SetSort(k: SortKey)
      modifies this`sortKey
      ensures sortKey == k
    {
      sortKey := k;
    }

    method ToggleSortOrder()
      modifies this`sortAsc
      ensures sortAsc == !old(sortAsc)
    {
      sortAsc := !sortAsc;
    }

    method SetQuoteFilter(q: QuoteFilter)
      modifies this`quoteFilter
      ensures quoteFilter == q
    {
      quoteFilter := q;
    }

    method ToggleSelected(symbol: string)
      requires Valid()
      modifies this`selected
      ensures Valid()
      ensures selected == Toggle(old(selected), symbol)
      ensures symbol in old(selected) ==> symbol !in selected
      ensures symbol !in old(selected) && |old(selected)| < MaxSelected ==> selected == old(selected) + [symbol]
      ensures symbol !in old(selected) && |old(selected)| == MaxSelected ==> selected == old(selected)
    {
      ToggleKeepsValid(selected, symbol);
      if symbol in selected {
        ToggleRemoves(selected, symbol);
      } else if |selected| == MaxSelected {
        ToggleWhenFull(selected, symbol);
      }
      selected := Toggle(selected, symbol);
    }

    method ClearSelected()
      modifies this`selected
      ensures Valid() && selected == []
    {
      selected := [];
    }

    method SetResolution(r: Resolution)
      modifies this`resolution
      ensures resolution == r
    {
      resolution := r;
    }

    method SetDateRange(range: DateRange, from: Option<int>, to: Option<int>, now: int)
      modifies this`dateRange, this`dateFrom, this`dateTo
      ensures dateRange == range
      ensures (dateFrom, dateTo) == DateWindow(range, from, to, now)
    {
      if range == Custom && Truthy(from) && Truthy(to) {
        dateRange, dateFrom, dateTo := range, from.value, to.value;
      } else {
        var fromTimestamp: int;
        match range {
          case Today => fromTimestamp := now - 24 * 60 * 60;
          case Week => fromTimestamp := now - 7 * 24 * 60 * 60;
          case Month => fromTimestamp := now - 30 * 24 * 60 * 60;
          case ThreeMonths => fromTimestamp := now - 90 * 24 * 60 * 60;
          case SixMonths => fromTimestamp := now - 180 * 24 * 60 * 60;
          case Year => fromTimestamp := now - 365 * 24 * 60 * 60;
          case Custom => fromTimestamp := now - 30 * 24 * 60 * 60;
        }
        dateRange, dateFrom, dateTo := range, fromTimestamp, now;
      }
    }
  }
}
