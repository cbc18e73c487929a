/** The market list shown on the page: a fixed chain of filters over the
    store's markets followed by a stable numeric sort of a copy. */
module MarketPage {
  import opened JsValues
  import opened Seqs
  import opened MarketStore

  // ---------------------------------------------------------------------------
  // Strings

  predicate StartsWith(s: string, prefix: string) {
    |prefix| <= |s| && s[..|prefix|] == prefix
  }

  /** `s.includes(t)`. */
  predicate Includes(s: string, t: string) {
    exists i :: 0 <= i <= |s| && StartsWith(s[i..], t)
  }

  /** Every string includes the empty string. */
  lemma IncludesEmpty(s: string)
    ensures Includes(s, "")
  {
    assert StartsWith(s[0..], "");
  }

  /** `toLowerCase()` on the ASCII letters. */
  function LowerChar(c: char): char {
    if 'A' <= c <= 'Z' then (c as int + 32) as char else c
  }

  function Lower(s: string): (r: string)
    ensures |r| == |s|
  {
    seq(|s|, i requires 0 <= i < |s| => LowerChar(s[i]))
  }

  // ---------------------------------------------------------------------------
  // The filter predicates, one per step

  /** The hard allow-list: only SOL and BTC pairs are shown. */
  predicate AllowListed(m: Market) {
    StartsWith(m.symbol, "SOL") || StartsWith(m.symbol, "BTC")
  }

  /** `(m.fa_base_asset || "")`. */
  function FaBaseName(m: Market): string {
    if m.faBaseAsset.Some? then m.faBaseAsset.value else ""
  }

  /** Case-insensitive match on the symbol, or case-sensitive match on the
      localized base-asset name. */
  predicate MatchesSearch(m: Market, search: string) {
    Includes(Lower(m.symbol), Lower(search)) || Includes(FaBaseName(m), search)
  }

  predicate IsUsdtBased(m: Market) { m.isUsdtBased }
  predicate IsTmnBased(m: Market) { m.isTmnBased }
  predicate IsSpot(m: Market) { m.isSpot }

  predicate QuoteMatches(m: Market, q: QuoteFilter) {
    match q
    case All => true
    case Usdt => m.isUsdtBased
    case Tmn => m.isTmnBased
  }

  /** Everything a market must satisfy to be listed: the reference the pipeline
      is proved against. */
  predicate Passes(m: Market, search: string, q: QuoteFilter, spotOnly: bool) {
    && AllowListed(m)
    && (search == "" || MatchesSearch(m, search))
    && QuoteMatches(m, q)
    && (spotOnly ==> m.isSpot)
  }

  /** The filter steps in the order the page runs them. */
  function Filtered(markets: seq<Market>, search: string, q: QuoteFilter, spotOnly: bool): seq<Market> {
    var d1 := Filter(markets, AllowListed);
    var d2 := if search != "" then Filter(d1, m => MatchesSearch(m, search)) else d1;
    var d3 := if q == Usdt then Filter(d2, IsUsdtBased) else d2;
    var d4 := if q == Tmn then Filter(d3, IsTmnBased) else d3;
    if spotOnly then Filter(d4, IsSpot) else d4
  }

  // ---------------------------------------------------------------------------
  // Sorting

  function Key(m: Market, k: SortKey): real {
    match k
    case Price => m.price
    case Change24h => m.change24h
    case Volume24h => m.volume24h
  }

  /** The page's comparator `sortAsc ? va - vb : vb - va`. */
  function Compare(a: Market, b: Market, k: SortKey, asc: bool): real {
    if asc then Key(a, k) - Key(b, k) else Key(b, k) - Key(a, k)
  }

  /** a may precede b in a list sorted by k. */
  predicate InOrder(a: Market, b: Market, k: SortKey, asc: bool) {
    if asc then Key(a, k) <= Key(b, k) else Key(a, k) >= Key(b, k)
  }

  /** Sorted by the key, ascending or descending. */
  predicate SortedBy(s: seq<Market>, k: SortKey, asc: bool) {
    forall i, j :: 0 <= i < j < |s| ==> InOrder(s[i], s[j], k, asc)
  }

  /** Places m before the first element it does not compare greater than, so
      it precedes every element with an equal key. */
  function Insert(m: Market, s: seq<Market>, k: SortKey, asc: bool): (r: seq<Market>)
    ensures |r| == |s| + 1
  {
    if s == [] || Compare(m, s[0], k, asc) <= 0.0 then [m] + s
    else [s[0]] + Insert(m, s[1..], k, asc)
  }

  /** A stable sort by the comparator, as required of Array.prototype.sort by
      ECMA-262 (2019 edition, section 22.1.3.27). */
  function Sort(s: seq<Market>, k: SortKey, asc: bool): (r: seq<Market>)
    ensures |r| == |s|
  {
    if s == [] then [] else Insert(s[0], Sort(s[1..], k, asc), k, asc)
  }

  lemma {:induction false} InsertCount(m: Market, s: seq<Market>, k: SortKey, asc: bool)
    ensures multiset(Insert(m, s, k, asc)) == multiset(s) + multiset{m}
  {
    if s != [] && Compare(m, s[0], k, asc) > 0.0 {
      assert s == [s[0]] + s[1..];
      InsertCount(m, s[1..], k, asc);
    }
  }

  /** A lower bound of m and of every element of s bounds every element of
      Insert(m, s). */
  lemma {:induction false} InsertBounded(b: Market, m: Market, s: seq<Market>, k: SortKey, asc: bool)
    requires InOrder(b, m, k, asc)
    requires forall i :: 0 <= i < |s| ==> InOrder(b, s[i], k, asc)
    ensures forall i :: 0 <= i < |s| + 1 ==> InOrder(b, Insert(m, s, k, asc)[i], k, asc)
  {
    if s != [] && Compare(m, s[0], k, asc) > 0.0 {
      var tail := s[1..];
      assert forall i :: 0 <= i < |tail| ==> tail[i] == s[i + 1];
      InsertBounded(b, m, tail, k, asc);
    }
  }

  lemma {:induction false} InsertSorted(m: Market, s: seq<Market>, k: SortKey, asc: bool)
    requires SortedBy(s, k, asc)
    ensures SortedBy(Insert(m, s, k, asc), k, asc)
  {
    var r := Insert(m, s, k, asc);
    if s == [] {
    } else if Compare(m, s[0], k, asc) <= 0.0 {
      assert InOrder(m, s[0], k, asc);
      forall i, j | 0 <= i < j < |r| ensures InOrder(r[i], r[j], k, asc) {
        assert r[j] == s[j - 1];
        if i > 0 {
          assert r[i] == s[i - 1];
        } else if j > 1 {
          assert InOrder(s[0], s[j - 1], k, asc);
        }
      }
    } else {
      var tail := s[1..];
      assert forall i :: 0 <= i < |tail| ==> tail[i] == s[i + 1];
      assert SortedBy(tail, k, asc);
      InsertSorted(m, tail, k, asc);
      InsertBounded(s[0], m, tail, k, asc);
      var rest := Insert(m, tail, k, asc);
      assert r == [s[0]] + rest;
      forall i, j | 0 <= i < j < |r| ensures InOrder(r[i], r[j], k, asc) {
        assert r[j] == rest[j - 1];
        if i > 0 {
          assert r[i] == rest[i - 1];
        }
      }
    }
  }

  /** The output of Sort is ordered by the key and is a permutation of its input. */
  lemma {:induction false} SortSortsPermutation(s: seq<Market>, k: SortKey, asc: bool)
    ensures SortedBy(Sort(s, k, asc), k, asc)
    ensures multiset(Sort(s, k, asc)) == multiset(s)
  {
    if s != [] {
      assert s == [s[0]] + s[1..];
      SortSortsPermutation(s[1..], k, asc);
      InsertSorted(s[0], Sort(s[1..], k, asc), k, asc);
      InsertCount(s[0], Sort(s[1..], k, asc), k, asc);
    }
  }

  /** The markets whose key equals v, in their order. */
  function WithKey(s: seq<Market>, k: SortKey, v: real): seq<Market> {
    Filter(s, m => Key(m, k) == v)
  }

  lemma WithKeyCons(x: Market, s: seq<Market>, k: SortKey, v: real)
    ensures WithKey([x] + s, k, v) == (if Key(x, k) == v then [x] else []) + WithKey(s, k, v)
  {
    assert ([x] + s)[0] == x;
    assert ([x] + s)[1..] == s;
  }

  lemma {:induction false} InsertStable(m: Market, s: seq<Market>, k: SortKey, asc: bool, v: real)
    ensures WithKey(Insert(m, s, k, asc), k, v) == WithKey([m] + s, k, v)
  {
    if s != [] && Compare(m, s[0], k, asc) > 0.0 {
      var tail := s[1..];
      InsertStable(m, tail, k, asc, v);
      WithKeyCons(s[0], Insert(m, tail, k, asc), k, v);
      WithKeyCons(m, tail, k, v);
      assert s == [s[0]] + tail;
      WithKeyCons(s[0], tail, k, v);
      WithKeyCons(m, s, k, v);
    }
  }

  /** Sort is stable: for every key value, the markets with that key come out
      in exactly the order they went in. */
  lemma {:induction false} SortStable(s: seq<Market>, k: SortKey, asc: bool, v: real)
    ensures WithKey(Sort(s, k, asc), k, v) == WithKey(s, k, v)
  {
    if s != [] {
      SortStable(s[1..], k, asc, v);
      InsertStable(s[0], Sort(s[1..], k, asc), k, asc, v);
      WithKeyCons(s[0], Sort(s[1..], k, asc), k, v);
      assert s == [s[0]] + s[1..];
      WithKeyCons(s[0], s[1..], k, v);
    }
  }

  // ---------------------------------------------------------------------------
  // The pipeline

  /** The `filtered` list: the filter chain, then a sort of the result. The
      store's market list and the view-state values are inputs; nothing is
      changed. */
  function Visible(markets: seq<Market>, search: string, q: QuoteFilter, spotOnly: bool,
                   k: SortKey, asc: bool): seq<Market> {
    Sort(Filtered(markets, search, q, spotOnly), k, asc)
  }

  /** Each market occurs in the filtered list as often as in the store's list
      if it passes every active predicate, and not at all otherwise. */
  lemma FilteredCount(markets: seq<Market>, search: string, q: QuoteFilter, spotOnly: bool)
    ensures forall m :: multiset(Filtered(markets, search, q, spotOnly))[m] ==
                        (if Passes(m, search, q, spotOnly) then multiset(markets)[m] else 0)
  {
    var d1 := Filter(markets, AllowListed);
    FilterCount(markets, AllowListed);
    var d2 := if search != "" then Filter(d1, m => MatchesSearch(m, search)) else d1;
    FilterCount(d1, m => MatchesSearch(m, search));
    var d3 := if q == Usdt then Filter(d2, IsUsdtBased) else d2;
    FilterCount(d2, IsUsdtBased);
    var d4 := if q == Tmn then Filter(d3, IsTmnBased) else d3;
    FilterCount(d3, IsTmnBased);
    FilterCount(d4, IsSpot);
  }

  /** The visible list is a permutation of the markets that pass every active
      predicate: each passing market keeps its multiplicity, every other one is
      gone. So it is a permutation of a subset of the store's list. */
  lemma VisibleCount(markets: seq<Market>, search: string, q: QuoteFilter, spotOnly: bool,
                     k: SortKey, asc: bool)
    ensures forall m :: multiset(Visible(markets, search, q, spotOnly, k, asc))[m] ==
                        (if Passes(m, search, q, spotOnly) then multiset(markets)[m] else 0)
    ensures multiset(Visible(markets, search, q, spotOnly, k, asc)) <= multiset(markets)
  {
    FilteredCount(markets, search, q, spotOnly);
    SortSortsPermutation(Filtered(markets, search, q, spotOnly), k, asc);
  }

  /** Soundness and completeness: a market is listed iff it is in the store's
      list and satisfies every active predicate. */
  lemma VisibleMembers(markets: seq<Market>, search: string, q: QuoteFilter, spotOnly: bool,
                       k: SortKey, asc: bool)
    ensures forall m :: m in Visible(markets, search, q, spotOnly, k, asc) <==>
      m in markets && Passes(m, search, q, spotOnly)
  {
    VisibleCount(markets, search, q, spotOnly, k, asc);
    var r := Visible(markets, search, q, spotOnly, k, asc);
    forall m ensures m in r <==> m in markets && Passes(m, search, q, spotOnly) {
      assert m in r <==> multiset(r)[m] > 0;
      assert m in markets <==> multiset(markets)[m] > 0;
    }
  }

  /** Only SOL and BTC pairs are listed; with a quote filter only pairs of that
      quote; with spot-only only spot pairs. */
  lemma VisibleRestrictions(markets: seq<Market>, search: string, q: QuoteFilter, spotOnly: bool,
                            k: SortKey, asc: bool)
    ensures forall m :: m in Visible(markets, search, q, spotOnly, k, asc) ==>
      && (StartsWith(m.symbol, "SOL") || StartsWith(m.symbol, "BTC"))
      && (q == Usdt ==> m.isUsdtBased)
      && (q == Tmn ==> m.isTmnBased)
      && (spotOnly ==> m.isSpot)
  {
    VisibleMembers(markets, search, q, spotOnly, k, asc);
  }

  /** An empty search filters nothing: the result is the one without the
      search step, and MatchesSearch holds of every market anyway. */
  lemma EmptySearchPassesAll(m: Market)
    ensures MatchesSearch(m, "")
  {
    assert Lower("") == "";
    IncludesEmpty(Lower(m.symbol));
  }

  /** The quote filter keeps exactly the markets of its quote; ALL keeps all. */
  lemma QuoteFilterExact(markets: seq<Market>, search: string, q: QuoteFilter, spotOnly: bool,
                         k: SortKey, asc: bool, m: Market)
    requires m in markets && AllowListed(m) && (search == "" || MatchesSearch(m, search))
    requires spotOnly ==> m.isSpot
    ensures q == All ==> m in Visible(markets, search, q, spotOnly, k, asc)
    ensures q == Usdt ==> (m in Visible(markets, search, q, spotOnly, k, asc) <==> m.isUsdtBased)
    ensures q == Tmn ==> (m in Visible(markets, search, q, spotOnly, k, asc) <==> m.isTmnBased)
  {
    VisibleMembers(markets, search, q, spotOnly, k, asc);
  }

  /** The list is ordered by the sort key, ascending when asc. */
  lemma VisibleSorted(markets: seq<Market>, search: string, q: QuoteFilter, spotOnly: bool,
                      k: SortKey, asc: bool)
    ensures SortedBy(Visible(markets, search, q, spotOnly, k, asc), k, asc)
  {
    SortSortsPermutation(Filtered(markets, search, q, spotOnly), k, asc);
  }

  /** Ties keep their order: the listed markets with a given key value appear
      in the order the filter chain delivered them. */
  lemma VisibleStable(markets: seq<Market>, search: string, q: QuoteFilter, spotOnly: bool,
                      k: SortKey, asc: bool, v: real)
    ensures WithKey(Visible(markets, search, q, spotOnly, k, asc), k, v) ==
            WithKey(Filtered(markets, search, q, spotOnly), k, v)
  {
    SortStable(Filtered(markets, search, q, spotOnly), k, asc, v);
  }

  /** Each filter step keeps the relative order of the markets it lets through,
      so two passing markets enter the sort in their order in the store's list:
      i2 and j2 are their positions after the filter chain. */
  lemma FilteredKeepsOrder(markets: seq<Market>, search: string, q: QuoteFilter, spotOnly: bool,
                           i: nat, j: nat) returns (i2: nat, j2: nat)
    requires i < j < |markets|
    requires Passes(markets[i], search, q, spotOnly) && Passes(markets[j], search, q, spotOnly)
    ensures i2 < j2 < |Filtered(markets, search, q, spotOnly)|
    ensures Filtered(markets, search, q, spotOnly)[i2] == markets[i]
    ensures Filtered(markets, search, q, spotOnly)[j2] == markets[j]
  {
    var a, b := markets[i], markets[j];
    var d := Filter(markets, AllowListed);
    i2, j2 := FilterPositions(markets, AllowListed, i, j);
    if search != "" {
      i2, j2 := FilterPositions(d, m => MatchesSearch(m, search), i2, j2);
      d := Filter(d, m => MatchesSearch(m, search));
    }
    if q == Usdt {
      i2, j2 := FilterPositions(d, IsUsdtBased, i2, j2);
      d := Filter(d, IsUsdtBased);
    }
    if q == Tmn {
      i2, j2 := FilterPositions(d, IsTmnBased, i2, j2);
      d := Filter(d, IsTmnBased);
    }
    if spotOnly {
      i2, j2 := FilterPositions(d, IsSpot, i2, j2);
      d := Filter(d, IsSpot);
    }
    assert d == Filtered(markets, search, q, spotOnly);
  }
}
