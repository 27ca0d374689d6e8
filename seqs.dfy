/** `Array.prototype.filter` on sequences, and the order-preserving sub-sequence relation
    the catalog's filters are stated with. */
module Seqs {
  import opened Wrappers

  /** `s.filter(keep)`: the elements that pass, in their original order. */
  function Filter<T(==)>(s: seq<T>, keep: T -> bool): (r: seq<T>)
    ensures |r| <= |s|
    ensures forall i :: 0 <= i < |r| ==> r[i] in s && keep(r[i])
    ensures forall i :: 0 <= i < |s| && keep(s[i]) ==> s[i] in r
  {
    if s == [] then []
    else if keep(s[0]) then [s[0]] + Filter(s[1..], keep)
    else Filter(s[1..], keep)
  }

  /** Filtering a list with a head filters the head, then the rest. */
  lemma FilterCons<T>(h: T, s: seq<T>, keep: T -> bool)
    ensures Filter([h] + s, keep) == (if keep(h) then [h] else []) + Filter(s, keep)
  {
    assert ([h] + s)[1..] == s;
  }

  /** An element is in the filtered list exactly when it is in the list and passes. */
  lemma FilterMembers<T>(s: seq<T>, keep: T -> bool)
    ensures forall x :: x in Filter(s, keep) <==> x in s && keep(x)
  {
    var r := Filter(s, keep);
    forall x ensures x in r <==> x in s && keep(x) {
      if x in r {
        var i :| 0 <= i < |r| && r[i] == x;
      }
      if x in s && keep(x) {
        var i :| 0 <= i < |s| && s[i] == x;
      }
    }
  }

  /** `a` is `b` with some elements left out and the rest in their order. */
  predicate IsSubsequence<T(==)>(a: seq<T>, b: seq<T>)
    decreases |b|
  {
    if a == [] then true
    else if b == [] then false
    else if a[0] == b[0] then IsSubsequence(a[1..], b[1..])
    else IsSubsequence(a, b[1..])
  }

  function Not<T>(keep: T -> bool): T -> bool {
    x => !keep(x)
  }

  function Both<T>(p: T -> bool, q: T -> bool): T -> bool {
    x => p(x) && q(x)
  }

  /** Filtering keeps the order of what it keeps. */
  lemma {:induction false} FilterIsSubsequence<T>(s: seq<T>, keep: T -> bool)
    ensures IsSubsequence(Filter(s, keep), s)
  {
    if s != [] {
      FilterIsSubsequence(s[1..], keep);
      var r := Filter(s, keep);
      if !keep(s[0]) && r != [] {
        assert r[0] in r;
      }
    }
  }

  /** What a filter keeps and what its negation keeps together make up the input. */
  lemma {:induction false} FilterPartition<T>(s: seq<T>, keep: T -> bool)
    ensures multiset(Filter(s, keep)) + multiset(Filter(s, Not(keep))) == multiset(s)
    ensures |Filter(s, keep)| + |Filter(s, Not(keep))| == |s|
  {
    if s != [] {
      FilterPartition(s[1..], keep);
      assert s == [s[0]] + s[1..];
    }
  }

  /** A filter keeps every passing element exactly as often as the list holds it, and no
      copy of a failing one. */
  lemma {:induction false} FilterCount<T>(s: seq<T>, keep: T -> bool)
    ensures forall x :: multiset(Filter(s, keep))[x] == if keep(x) then multiset(s)[x] else 0
  {
    if s != [] {
      FilterCount(s[1..], keep);
      assert s == [s[0]] + s[1..];
      FilterCons(s[0], s[1..], keep);
    }
  }

  /** A filter that every element passes returns its input unchanged. */
  lemma {:induction false} FilterAll<T>(s: seq<T>, keep: T -> bool)
    requires forall i :: 0 <= i < |s| ==> keep(s[i])
    ensures Filter(s, keep) == s
  {
    if s != [] {
      FilterAll(s[1..], keep);
      assert s == [s[0]] + s[1..];
    }
  }

  /** Filters that agree on every element give the same result. */
  lemma {:induction false} FilterAgree<T>(s: seq<T>, p: T -> bool, q: T -> bool)
    requires forall i :: 0 <= i < |s| ==> p(s[i]) == q(s[i])
    ensures Filter(s, p) == Filter(s, q)
  {
    if s != [] {
      FilterAgree(s[1..], p, q);
    }
  }

  /** Two filters in a row are one filter on the conjunction. */
  lemma {:induction false} FilterFilter<T>(s: seq<T>, p: T -> bool, q: T -> bool)
    ensures Filter(Filter(s, p), q) == Filter(s, Both(p, q))
  {
    if s != [] {
      FilterFilter(s[1..], p, q);
      if p(s[0]) {
        assert Filter(s, p)[1..] == Filter(s[1..], p);
      }
    }
  }

  /** Two filters applied in either order give the same result. */
  lemma FilterCommutes<T>(s: seq<T>, p: T -> bool, q: T -> bool)
    ensures Filter(Filter(s, p), q) == Filter(Filter(s, q), p)
  {
    FilterFilter(s, p, q);
    FilterFilter(s, q, p);
    FilterAgree(s, Both(p, q), Both(q, p));
  }

  /** A left-to-right scan of the indexes `k` up to `n`, stopping at the first one where
      `bad` holds. */
  function FirstFrom(n: nat, bad: nat -> bool, k: nat): (r: Option<nat>)
    requires k <= n
    ensures r.Some? ==> k <= r.value < n && bad(r.value)
    ensures r.Some? ==> forall j :: k <= j < r.value ==> !bad(j)
    ensures r.None? ==> forall j :: k <= j < n ==> !bad(j)
    decreases n - k
  {
    if k == n then None
    else if bad(k) then Some(k)
    else FirstFrom(n, bad, k + 1)
  }

  /** An index where `bad` holds with no such index before it is the one the scan finds, and
      the scan finds none exactly when there is none. */
  lemma FirstFromUnique(n: nat, bad: nat -> bool, r: Option<nat>)
    requires r.Some? ==> r.value < n && bad(r.value)
    requires r.Some? ==> forall j :: 0 <= j < r.value ==> !bad(j)
    requires r.None? ==> forall j :: 0 <= j < n ==> !bad(j)
    ensures r == FirstFrom(n, bad, 0)
  {
    var found := FirstFrom(n, bad, 0);
    if r.Some? && found.Some? {
      assert !(r.value < found.value) && !(found.value < r.value);
    }
  }
}
