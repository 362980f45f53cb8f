/** The array operations the stores are built from: `filter`, `find`, and the
    facts about them that the store lemmas rest on. */
module Seqs {
  import opened Common

  /** `r` occurs in `s` in order, possibly with gaps (greedy matching). */
  predicate Subsequence<T(==)>(r: seq<T>, s: seq<T>)
    decreases |s|
  {
    if r == [] then true
    else if s == [] then false
    else if r[0] == s[0] then Subsequence(r[1..], s[1..])
    else Subsequence(r, s[1..])
  }

  /** `s.filter(p)`: exactly the elements of `s` that satisfy `p`, each as
      often as in `s`, in their original order. */
  function Filter<T(==)>(s: seq<T>, p: T -> bool): (r: seq<T>)
    ensures |r| <= |s|
    ensures forall x :: x in r ==> x in s && p(x)
    ensures forall x :: x in s && p(x) ==> multiset(r)[x] == multiset(s)[x]
    ensures Subsequence(r, s)
    decreases |s|
  {
    if s == [] then []
    else
      assert s == [s[0]] + s[1..];
      if p(s[0]) then [s[0]] + Filter(s[1..], p) else Filter(s[1..], p)
  }

  /** `s.findIndex(p)`, with `None` for -1: the first position whose element satisfies `p`. */
  function IndexOfFirst<T>(s: seq<T>, p: T -> bool): (r: Option<nat>)
    ensures r.Some? ==> r.value < |s| && p(s[r.value])
    ensures r.Some? ==> forall j :: 0 <= j < r.value ==> !p(s[j])
    ensures r.None? ==> forall j :: 0 <= j < |s| ==> !p(s[j])
    decreases |s|
  {
    if s == [] then None
    else if p(s[0]) then Some(0)
    else match IndexOfFirst(s[1..], p)
      case None => None
      case Some(k) => Some(k + 1)
  }

  /** `s.find(p)`: the first element that satisfies `p`, if any. */
  function Find<T>(s: seq<T>, p: T -> bool): (r: Option<T>)
    ensures r.Some? <==> exists i :: 0 <= i < |s| && p(s[i])
    ensures r.Some? ==> p(r.value)
    ensures r.Some? ==> IndexOfFirst(s, p).Some? && r.value == s[IndexOfFirst(s, p).value]
  {
    match IndexOfFirst(s, p)
    case None => None
    case Some(i) => Some(s[i])
  }

  /** No two elements of `s` share a key. */
  ghost predicate DistinctKeys<T, K>(s: seq<T>, key: T -> K) {
    forall i, j :: 0 <= i < j < |s| ==> key(s[i]) != key(s[j])
  }

  lemma {:induction false} FilterConcat<T>(a: seq<T>, b: seq<T>, p: T -> bool)
    ensures Filter(a + b, p) == Filter(a, p) + Filter(b, p)
    decreases |a|
  {
    if a == [] {
      assert a + b == b;
    } else {
      assert (a + b)[1..] == a[1..] + b;
      FilterConcat(a[1..], b, p);
    }
  }

  /** Filtering keeps a sequence whose every element passes. */
  lemma {:induction false} FilterAllPass<T>(s: seq<T>, p: T -> bool)
    requires forall i :: 0 <= i < |s| ==> p(s[i])
    ensures Filter(s, p) == s
    decreases |s|
  {
    if s != [] {
      FilterAllPass(s[1..], p);
    }
  }

  /** Filtering twice by the same predicate is filtering once. */
  lemma FilterIdempotent<T>(s: seq<T>, p: T -> bool)
    ensures Filter(Filter(s, p), p) == Filter(s, p)
  {
    var r := Filter(s, p);
    forall i | 0 <= i < |r| ensures p(r[i]) {
      assert r[i] in r;
    }
    FilterAllPass(r, p);
  }

  /** Filtering by `p` and then by `q` is filtering by their conjunction. */
  lemma {:induction false} FilterFilter<T>(s: seq<T>, p: T -> bool, q: T -> bool, pq: T -> bool)
    requires forall x :: pq(x) == (p(x) && q(x))
    ensures Filter(Filter(s, p), q) == Filter(s, pq)
    decreases |s|
  {
    if s != [] {
      FilterFilter(s[1..], p, q, pq);
      if p(s[0]) {
        assert Filter(s, p) == [s[0]] + Filter(s[1..], p);
        assert Filter(s, p)[1..] == Filter(s[1..], p);
      }
    }
  }

  /** Filtering drops a sequence none of whose elements passes. */
  lemma {:induction false} NoneFilterPass<T>(s: seq<T>, p: T -> bool)
    requires forall i :: 0 <= i < |s| ==> !p(s[i])
    ensures Filter(s, p) == []
    decreases |s|
  {
    if s != [] {
      NoneFilterPass(s[1..], p);
    }
  }

  /** A filter result is empty exactly when no element passes. */
  lemma FilterEmptyIff<T>(s: seq<T>, p: T -> bool)
    ensures Filter(s, p) == [] <==> forall i :: 0 <= i < |s| ==> !p(s[i])
  {
    if forall i :: 0 <= i < |s| ==> !p(s[i]) {
      NoneFilterPass(s, p);
    } else {
      var i :| 0 <= i < |s| && p(s[i]);
      assert s[i] in s;
      assert multiset(Filter(s, p))[s[i]] == multiset(s)[s[i]] > 0;
    }
  }

  /** The head of a non-empty filter result is the element `find` returns. */
  lemma {:induction false} FilterHeadIsFirst<T>(s: seq<T>, p: T -> bool)
    requires Filter(s, p) != []
    ensures IndexOfFirst(s, p).Some?
    ensures Filter(s, p)[0] == s[IndexOfFirst(s, p).value]
    decreases |s|
  {
    if !p(s[0]) {
      FilterHeadIsFirst(s[1..], p);
    }
  }

  /** Filtering keeps the keys of a sequence distinct. */
  lemma {:induction false} FilterKeepsDistinctKeys<T, K>(s: seq<T>, p: T -> bool, key: T -> K)
    requires DistinctKeys(s, key)
    ensures DistinctKeys(Filter(s, p), key)
    decreases |s|
  {
    if s != [] {
      var t := s[1..];
      assert DistinctKeys(t, key) by {
        forall i, j | 0 <= i < j < |t| ensures key(t[i]) != key(t[j]) {
          assert t[i] == s[i + 1] && t[j] == s[j + 1];
        }
      }
      FilterKeepsDistinctKeys(t, p, key);
      if p(s[0]) {
        var r := Filter(s, p);
        var rt := Filter(t, p);
        assert r == [s[0]] + rt;
        forall i, j | 0 <= i < j < |r| ensures key(r[i]) != key(r[j]) {
          if i == 0 {
            assert r[j] == rt[j - 1] && rt[j - 1] in rt;
            var k :| 0 <= k < |t| && t[k] == r[j];
            assert r[j] == s[k + 1];
          } else {
            assert r[i] == rt[i - 1] && r[j] == rt[j - 1];
          }
        }
      }
    }
  }

  /** The test `x => x.__ref.id != id` for an element whose id is `idOf(x)`. */
  function IdOtherThan<T>(idOf: T -> Id, id: Id): T -> bool {
    (x: T) => idOf(x) != id
  }

  /** `s.filter(x => x.__ref.id != id)`: every element with id `id` is dropped,
      the others are kept as often as they occur and in their order. */
  function Without<T(==)>(s: seq<T>, idOf: T -> Id, id: Id): (r: seq<T>)
    ensures forall x :: x in r ==> x in s && idOf(x) != id
    ensures forall x :: x in s && idOf(x) != id ==> x in r
    ensures forall x :: x in s && idOf(x) != id ==> multiset(r)[x] == multiset(s)[x]
    ensures Subsequence(r, s)
  {
    Filter(s, IdOtherThan(idOf, id))
  }

  /** Removing an id nothing has leaves the sequence as it was. */
  lemma WithoutAbsentIsNoop<T>(s: seq<T>, idOf: T -> Id, id: Id)
    requires forall i :: 0 <= i < |s| ==> idOf(s[i]) != id
    ensures Without(s, idOf, id) == s
  {
    FilterAllPass(s, IdOtherThan(idOf, id));
  }

  /** Removing an id twice is removing it once. */
  lemma WithoutIdempotent<T>(s: seq<T>, idOf: T -> Id, id: Id)
    ensures Without(Without(s, idOf, id), idOf, id) == Without(s, idOf, id)
  {
    FilterIdempotent(s, IdOtherThan(idOf, id));
  }

  /** Appending an element with a fresh id and then removing that id gives back the sequence. */
  lemma WithoutUndoesAppend<T>(s: seq<T>, idOf: T -> Id, x: T)
    requires forall i :: 0 <= i < |s| ==> idOf(s[i]) != idOf(x)
    ensures Without(s + [x], idOf, idOf(x)) == s
  {
    FilterConcat(s, [x], IdOtherThan(idOf, idOf(x)));
    FilterAllPass(s, IdOtherThan(idOf, idOf(x)));
  }

  /** No element of `s` has the id `id`. */
  ghost predicate Fresh<T>(s: seq<T>, idOf: T -> Id, id: Id) {
    forall i :: 0 <= i < |s| ==> idOf(s[i]) != id
  }

  /** Removing an id keeps the ids of a sequence distinct. */
  lemma WithoutKeepsDistinctIds<T>(s: seq<T>, idOf: T -> Id, id: Id)
    requires DistinctKeys(s, idOf)
    ensures DistinctKeys(Without(s, idOf, id), idOf)
  {
    FilterKeepsDistinctKeys(s, IdOtherThan(idOf, id), idOf);
  }

  /** Appending an element with a fresh id keeps the ids distinct. */
  lemma AppendFreshKeepsDistinctIds<T>(s: seq<T>, idOf: T -> Id, x: T)
    requires DistinctKeys(s, idOf)
    requires Fresh(s, idOf, idOf(x))
    ensures DistinctKeys(s + [x], idOf)
  {
    var t := s + [x];
    forall i, j | 0 <= i < j < |t| ensures idOf(t[i]) != idOf(t[j]) {
      assert t[i] == s[i];
      if j < |s| { assert t[j] == s[j]; }
    }
  }
}
