/** Sequence operations shared by the store, the page and the charts:
    Array.prototype.filter, `filter(Boolean)` over optional results,
    `slice(0, n)` and numeric sums. */
module Seqs {
  import opened JsValues

  predicate NoDuplicates<T(==)>(s: seq<T>) {
    forall i, j :: 0 <= i < j < |s| ==> s[i] != s[j]
  }

  /** `s.slice(0, n)`. */
  function Take<T>(s: seq<T>, n: nat): (r: seq<T>)
    ensures |r| == if |s| <= n then |s| else n
    ensures r == s[..|r|]
  {
    if |s| <= n then s else s[..n]
  }

  /** `s.filter(p)`: keeps the elements satisfying p, in their order, each as
      often as it occurs in s. */
  function Filter<T>(s: seq<T>, p: T -> bool): (r: seq<T>)
    ensures |r| <= |s|
  {
    if s == [] then [] else (if p(s[0]) then [s[0]] else []) + Filter(s[1..], p)
  }

  /** Filter keeps each passing element exactly as often as it occurs, and
      drops every other one. */
  lemma {:induction false} FilterCount<T(!new)>(s: seq<T>, p: T -> bool)
    ensures forall x :: multiset(Filter(s, p))[x] == if p(x) then multiset(s)[x] else 0
  {
    if s != [] {
      assert s == [s[0]] + s[1..];
      FilterCount(s[1..], p);
    }
  }

  lemma FilterMembers<T(!new)>(s: seq<T>, p: T -> bool)
    ensures forall x :: x in Filter(s, p) <==> x in s && p(x)
  {
    FilterCount(s, p);
    forall x ensures x in Filter(s, p) <==> x in s && p(x) {
      assert x in Filter(s, p) <==> multiset(Filter(s, p))[x] > 0;
      assert x in s <==> multiset(s)[x] > 0;
    }
  }

  lemma {:induction false} FilterAppend<T>(a: seq<T>, b: seq<T>, p: T -> bool)
    ensures Filter(a + b, p) == Filter(a, p) + Filter(b, p)
  {
    if a == [] {
      assert a + b == b;
    } else {
      var head := if p(a[0]) then [a[0]] else [];
      assert (a + b)[0] == a[0];
      assert (a + b)[1..] == a[1..] + b;
      assert Filter(a + b, p) == head + Filter(a[1..] + b, p);
      FilterAppend(a[1..], b, p);
      assert Filter(a, p) == head + Filter(a[1..], p);
    }
  }

  /** Every element of s that passes p lands, in Filter(s, p), at the position
      given by the number of passing elements before it: filtering keeps the
      relative order. */
  lemma FilterAt<T>(s: seq<T>, p: T -> bool, i: nat)
    requires i < |s| && p(s[i])
    ensures |Filter(s[..i], p)| < |Filter(s, p)|
    ensures Filter(s, p)[|Filter(s[..i], p)|] == s[i]
  {
    assert s == s[..i] + s[i..];
    FilterAppend(s[..i], s[i..], p);
    assert s[i..] == [s[i]] + s[i+1..];
    FilterAppend([s[i]], s[i+1..], p);
  }

  /** Positions in Filter(s, p) grow with positions in s. */
  lemma FilterKeepsOrder<T>(s: seq<T>, p: T -> bool, i: nat, j: nat)
    requires i < j < |s| && p(s[i]) && p(s[j])
    ensures |Filter(s[..i], p)| < |Filter(s[..j], p)| < |Filter(s, p)|
    ensures Filter(s, p)[|Filter(s[..i], p)|] == s[i]
    ensures Filter(s, p)[|Filter(s[..j], p)|] == s[j]
  {
    FilterAt(s, p, i);
    FilterAt(s, p, j);
    assert s[..j] == s[..i] + s[i..j];
    FilterAppend(s[..i], s[i..j], p);
    assert s[i..j] == [s[i]] + s[i+1..j];
    FilterAppend([s[i]], s[i+1..j], p);
  }

  /** The positions in Filter(s, p) of two passing elements, in the same order. */
  lemma FilterPositions<T>(s: seq<T>, p: T -> bool, i: nat, j: nat) returns (i': nat, j': nat)
    requires i < j < |s| && p(s[i]) && p(s[j])
    ensures i' < j' < |Filter(s, p)|
    ensures Filter(s, p)[i'] == s[i] && Filter(s, p)[j'] == s[j]
  {
    FilterKeepsOrder(s, p, i, j);
    i', j' := |Filter(s[..i], p)|, |Filter(s[..j], p)|;
  }

  lemma {:induction false} FilterAll<T>(s: seq<T>, p: T -> bool)
    requires forall j :: 0 <= j < |s| ==> p(s[j])
    ensures Filter(s, p) == s
  {
    if s != [] {
      assert s == [s[0]] + s[1..];
      FilterAll(s[1..], p);
    }
  }

  lemma {:induction false} FilterNone<T>(s: seq<T>, p: T -> bool)
    requires forall j :: 0 <= j < |s| ==> !p(s[j])
    ensures Filter(s, p) == []
  {
    if s != [] {
      assert forall j :: 0 <= j < |s| - 1 ==> s[1..][j] == s[j + 1];
      FilterNone(s[1..], p);
    }
  }

  /** When exactly the elements from position n on pass, filtering drops the
      first n. */
  lemma FilterSuffix<T>(s: seq<T>, p: T -> bool, n: nat)
    requires n <= |s|
    requires forall j :: 0 <= j < n ==> !p(s[j])
    requires forall j :: n <= j < |s| ==> p(s[j])
    ensures Filter(s, p) == s[n..]
  {
    assert s == s[..n] + s[n..];
    FilterAppend(s[..n], s[n..], p);
    ghost var before, after := s[..n], s[n..];
    assert forall j :: 0 <= j < |before| ==> before[j] == s[j];
    FilterNone(before, p);
    assert forall j :: 0 <= j < |after| ==> after[j] == s[n + j];
    FilterAll(after, p);
  }

  /** Filtering out exactly the element at position i leaves the sequence with
      that one position cut out. */
  lemma {:induction false} FilterDropsOne<T>(s: seq<T>, p: T -> bool, i: nat)
    requires i < |s|
    requires !p(s[i])
    requires forall j :: 0 <= j < i ==> p(s[j])
    requires forall j :: i < j < |s| ==> p(s[j])
    ensures Filter(s, p) == s[..i] + s[i+1..]
  {
    assert s == (s[..i] + [s[i]]) + s[i+1..];
    FilterAppend(s[..i] + [s[i]], s[i+1..], p);
    FilterAppend(s[..i], [s[i]], p);
    assert Filter([s[i]], p) == [] + Filter([s[i]][1..], p);
    FilterAllSlice(s, p, 0, i);
    assert s[0..i] == s[..i];
    FilterAllSlice(s, p, i + 1, |s|);
    assert s[i + 1..|s|] == s[i+1..];
  }

  lemma FilterAllSlice<T>(s: seq<T>, p: T -> bool, lo: nat, hi: nat)
    requires lo <= hi <= |s|
    requires forall j :: lo <= j < hi ==> p(s[j])
    ensures Filter(s[lo..hi], p) == s[lo..hi]
  {
    ghost var part := s[lo..hi];
    assert forall j :: 0 <= j < |part| ==> part[j] == s[lo + j];
    FilterAll(part, p);
  }

  lemma {:induction false} FilterKeepsNoDuplicates<T(!new)>(s: seq<T>, p: T -> bool)
    requires NoDuplicates(s)
    ensures NoDuplicates(Filter(s, p))
  {
    if s != [] {
      assert s == [s[0]] + s[1..];
      FilterKeepsNoDuplicates(s[1..], p);
      FilterMembers(s[1..], p);
      var rest := Filter(s[1..], p);
      if p(s[0]) {
        assert s[0] !in s[1..];
        assert s[0] !in rest;
        var r := [s[0]] + rest;
        forall i, j | 0 <= i < j < |r| ensures r[i] != r[j] {
          if i == 0 {
            assert r[j] == rest[j - 1];
          } else {
            assert r[i] == rest[i - 1] && r[j] == rest[j - 1];
          }
        }
      }
    }
  }

  /** `xs.filter(Boolean)` over results that are either an object or null:
      the present values, in order. */
  function Present<T>(xs: seq<Option<T>>): (r: seq<T>)
    ensures |r| <= |xs|
  {
    if xs == [] then [] else (if xs[0].Some? then [xs[0].value] else []) + Present(xs[1..])
  }

  lemma {:induction false} PresentAppend<T>(a: seq<Option<T>>, b: seq<Option<T>>)
    ensures Present(a + b) == Present(a) + Present(b)
  {
    if a == [] {
      assert a + b == b;
    } else {
      assert (a + b)[0] == a[0];
      assert (a + b)[1..] == a[1..] + b;
      PresentAppend(a[1..], b);
    }
  }

  /** A present value at position i lands at the position given by the number
      of present values before it. */
  lemma PresentAt<T>(xs: seq<Option<T>>, i: nat)
    requires i < |xs| && xs[i].Some?
    ensures |Present(xs[..i])| < |Present(xs)|
    ensures Present(xs)[|Present(xs[..i])|] == xs[i].value
  {
    assert xs == xs[..i] + xs[i..];
    PresentAppend(xs[..i], xs[i..]);
    assert xs[i..] == [xs[i]] + xs[i+1..];
    PresentAppend([xs[i]], xs[i+1..]);
  }

  /** Every entry of Present(xs) is the value of some present position, and
      the number of entries is the number of present positions. */
  lemma {:induction false} PresentFrom<T>(xs: seq<Option<T>>, j: nat)
    requires j < |Present(xs)|
    ensures exists i :: 0 <= i < |xs| && xs[i] == Some(Present(xs)[j]) && |Present(xs[..i])| == j
  {
    assert xs == [xs[0]] + xs[1..];
    var tail := Present(xs[1..]);
    if xs[0].Some? && j == 0 {
      assert xs[..0] == [];
    } else {
      var j' := if xs[0].Some? then j - 1 else j;
      assert Present(xs)[j] == tail[j'];
      PresentFrom(xs[1..], j');
      var i' :| 0 <= i' < |xs[1..]| && xs[1..][i'] == Some(tail[j']) && |Present(xs[1..][..i'])| == j';
      assert xs[..i' + 1] == [xs[0]] + xs[1..][..i'];
      PresentAppend([xs[0]], xs[1..][..i']);
    }
  }

  lemma {:induction false} PresentAllSome<T>(xs: seq<Option<T>>)
    requires forall i :: 0 <= i < |xs| ==> xs[i].Some?
    ensures |Present(xs)| == |xs|
    ensures forall i :: 0 <= i < |xs| ==> Present(xs)[i] == xs[i].value
  {
    if xs != [] {
      assert xs == [xs[0]] + xs[1..];
      PresentAllSome(xs[1..]);
    }
  }

  lemma {:induction false} PresentNoneSome<T>(xs: seq<Option<T>>)
    requires forall i :: 0 <= i < |xs| ==> xs[i].None?
    ensures Present(xs) == []
  {
    if xs != [] {
      assert xs == [xs[0]] + xs[1..];
      PresentNoneSome(xs[1..]);
    }
  }

  function Sum(s: seq<real>): real {
    if s == [] then 0.0 else s[0] + Sum(s[1..])
  }

  lemma {:induction false} SumAppend(s: seq<real>, x: real)
    ensures Sum(s + [x]) == Sum(s) + x
  {
    if s != [] {
      assert (s + [x])[1..] == s[1..] + [x];
      SumAppend(s[1..], x);
    }
  }

  lemma {:induction false} SumConstant(s: seq<real>, c: real)
    requires forall i :: 0 <= i < |s| ==> s[i] == c
    ensures Sum(s) == |s| as real * c
  {
    if s != [] {
      SumConstant(s[1..], c);
    }
  }
}
