/** The date-range picker: its table of quick ranges, the label it shows, and
    the changes its quick and custom handlers report to the store. */
module DateFilter {
  import opened JsValues
  import MarketStore

  datatype RangeEntry = RangeEntry(value: MarketStore.DateRange, caption: string, days: nat)

  /** The quick ranges, in the order they are offered. */
  const DateRanges: seq<RangeEntry> := [
    RangeEntry(MarketStore.Today, "امروز", 1),
    RangeEntry(MarketStore.Week, "هفته", 7),
    RangeEntry(MarketStore.Month, "ماه", 30),
    RangeEntry(MarketStore.ThreeMonths, "۳ ماه", 90),
    RangeEntry(MarketStore.SixMonths, "۶ ماه", 180),
    RangeEntry(MarketStore.Year, "سال", 365)
  ]

  /** Shown when the current value has no table entry. */
  const FallbackLabel: string := "بازه زمانی"

  /** `table.find(r => r.value === value)`: the first entry with that value. */
  function FindRange(table: seq<RangeEntry>, value: MarketStore.DateRange): (r: Option<RangeEntry>)
    ensures r.None? <==> forall i :: 0 <= i < |table| ==> table[i].value != value
    ensures r.Some? ==> exists i :: 0 <= i < |table| && table[i] == r.value && r.value.value == value
                                    && forall j :: 0 <= j < i ==> table[j].value != value
  {
    if table == [] then None
    else if table[0].value == value then Some(table[0])
    else
      var r := FindRange(table[1..], value);
      assert forall i :: 1 <= i < |table| ==> table[1..][i - 1] == table[i];
      r
  }

  /** `getCurrentLabel`: the entry's label, or the fallback when there is no
      entry or its label is empty. */
  function CurrentLabel(value: MarketStore.DateRange): string {
    match FindRange(DateRanges, value)
    case Some(e) => if e.caption != "" then e.caption else FallbackLabel
    case None => FallbackLabel
  }

  /** What `onChange(range, from, to)` receives. */
  datatype Change = Change(range: MarketStore.DateRange, from: int, to: int)

  /** `handleQuickSelect`: a tabled range reports the window of its length
      ending now; any other value reports nothing. */
  function QuickSelect(range: MarketStore.DateRange, now: int): Option<Change> {
    match FindRange(DateRanges, range)
    case Some(e) => Some(Change(range, now - e.days * 24 * 60 * 60, now))
    case None => None
  }

  /** `handleCustomSelect`: fires only when both inputs are non-empty; turning a
      date string into seconds is the parameter `toSeconds`. */
  function CustomSelect(customFrom: string, customTo: string, toSeconds: string -> int): Option<Change> {
    if customFrom != "" && customTo != "" then
      Some(Change(MarketStore.Custom, toSeconds(customFrom), toSeconds(customTo)))
    else None
  }

  /** The table covers exactly the non-custom ranges, and each entry's length in
      days is the store's offset for that range. */
  lemma TableMatchesStore()
    ensures forall i :: 0 <= i < |DateRanges| ==>
      DateRanges[i].days == MarketStore.PresetDays(DateRanges[i].value) && DateRanges[i].value != MarketStore.Custom
    ensures forall r :: FindRange(DateRanges, r).Some? <==> r != MarketStore.Custom
    ensures NoDuplicateValues(DateRanges)
  {
    forall r ensures FindRange(DateRanges, r).Some? <==> r != MarketStore.Custom {
      assert r != MarketStore.Custom ==> exists i :: 0 <= i < |DateRanges| && DateRanges[i].value == r by {
        match r
        case Today => assert DateRanges[0].value == r;
        case Week => assert DateRanges[1].value == r;
        case Month => assert DateRanges[2].value == r;
        case ThreeMonths => assert DateRanges[3].value == r;
        case SixMonths => assert DateRanges[4].value == r;
        case Year => assert DateRanges[5].value == r;
        case Custom =>
      }
    }
  }

  predicate NoDuplicateValues(table: seq<RangeEntry>) {
    forall i, j :: 0 <= i < j < |table| ==> table[i].value != table[j].value
  }

  /** Quick select ignores the custom range; for every other range it reports
      that range with `to = now` and `from = now - days * 86400`. */
  lemma QuickSelectWindow(range: MarketStore.DateRange, now: int)
    ensures QuickSelect(range, now).None? <==> range == MarketStore.Custom
    ensures QuickSelect(range, now).Some? ==>
      QuickSelect(range, now) == Some(Change(range, now - MarketStore.PresetDays(range) * 86400, now))
  {
    TableMatchesStore();
  }

  /** Handing a quick selection to the store's setDateRange at the same moment
      stores exactly the reported window. */
  lemma QuickSelectAgreesWithStore(range: MarketStore.DateRange, now: int)
    requires range != MarketStore.Custom
    ensures QuickSelect(range, now).Some?
    ensures var c := QuickSelect(range, now).value;
      MarketStore.DateWindow(c.range, Some(c.from), Some(c.to), now) == (c.from, c.to)
  {
    QuickSelectWindow(range, now);
  }

  /** Custom select reports the custom range exactly when both inputs are
      filled in; the store then keeps both bounds unless one of them is the
      epoch (0 is falsy), in which case it falls back to the last 30 days. */
  lemma CustomSelectGuard(customFrom: string, customTo: string, toSeconds: string -> int, now: int)
    ensures CustomSelect(customFrom, customTo, toSeconds).Some? <==> customFrom != "" && customTo != ""
    ensures CustomSelect(customFrom, customTo, toSeconds).Some? ==>
      var c := CustomSelect(customFrom, customTo, toSeconds).value;
      && c == Change(MarketStore.Custom, toSeconds(customFrom), toSeconds(customTo))
      && MarketStore.DateWindow(c.range, Some(c.from), Some(c.to), now) ==
           if c.from != 0 && c.to != 0 then (c.from, c.to) else (now - 30 * 86400, now)
  {
  }

  /** The label is the table's for every quick range and the fallback for the
      custom one. */
  lemma CurrentLabelCases(value: MarketStore.DateRange)
    ensures value != MarketStore.Custom ==>
      exists i :: 0 <= i < |DateRanges| && DateRanges[i].value == value && CurrentLabel(value) == DateRanges[i].caption
    ensures value == MarketStore.Custom ==> CurrentLabel(value) == FallbackLabel
  {
    TableMatchesStore();
    if value != MarketStore.Custom {
      var e := FindRange(DateRanges, value).value;
      var i :| 0 <= i < |DateRanges| && DateRanges[i] == e && e.value == value;
      assert |DateRanges[i].caption| > 0;
    }
  }
}
