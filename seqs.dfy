/** Sequence utilities: removing repeated elements while keeping the order of
    first occurrence. This is the order in which a JavaScript `Set` or `Map`
    yields its keys, and the result of `[...new Set(xs)]`.
 */
module Seqs {

  predicate Distinct<T(==)>(s: seq<T>) {
    forall i, j :: 0 <= i < j < |s| ==> s[i] != s[j]
  }

  /** The index of the first occurrence of `x` in `s`. */
  function FirstIndex<T(==)>(s: seq<T>, x: T): (i: nat)
    requires x in s
    ensures i < |s| && s[i] == x
    ensures forall k :: 0 <= k < i ==> s[k] != x
  {
    if s[0] == x then 0 else 1 + FirstIndex(s[1..], x)
  }

  /** The elements of `s` without repetitions, in order of first occurrence:
      `[...new Set(s)]`. */
  function Dedup<T(==)>(s: seq<T>): (r: seq<T>)
    ensures Distinct(r)
    ensures forall i :: 0 <= i < |s| ==> s[i] in r
    ensures forall i :: 0 <= i < |r| ==> r[i] in s
    ensures |r| <= |s|
  {
    if s == [] then []
    else
      var p := Dedup(s[..|s| - 1]);
      if s[|s| - 1] in p then p else p + [s[|s| - 1]]
  }

  lemma DedupAppend<T>(s: seq<T>, x: T)
    ensures Dedup(s + [x]) == if x in s then Dedup(s) else Dedup(s) + [x]
  {
    assert (s + [x])[..|s|] == s;
  }

  /** `Dedup` lists the elements in the order in which each first occurs. */
  lemma {:induction false} DedupFirstOccurrenceOrder<T>(s: seq<T>)
    ensures forall i, j :: 0 <= i < j < |Dedup(s)| ==>
      FirstIndex(s, Dedup(s)[i]) < FirstIndex(s, Dedup(s)[j])
  {
    if s != [] {
      var q := s[..|s| - 1];
      var x := s[|s| - 1];
      var p := Dedup(q);
      var r := Dedup(s);
      DedupFirstOccurrenceOrder(q);
      assert s == q + [x];
      forall k | 0 <= k < |p| ensures FirstIndex(s, p[k]) == FirstIndex(q, p[k]) {
        FirstIndexPrefix(q, [x], p[k]);
      }
      if x !in q {
        assert r == p + [x];
        FirstIndexLast(q, x);
      } else {
        assert r == p;
      }
    }
  }

  lemma FirstIndexPrefix<T>(a: seq<T>, b: seq<T>, y: T)
    requires y in a
    ensures FirstIndex(a + b, y) == FirstIndex(a, y)
  {
    var i := FirstIndex(a, y);
    assert (a + b)[i] == y;
    assert forall k :: 0 <= k < i ==> (a + b)[k] == a[k];
  }

  lemma FirstIndexLast<T>(q: seq<T>, x: T)
    requires x !in q
    ensures FirstIndex(q + [x], x) == |q|
  {
    assert forall k :: 0 <= k < |q| ==> (q + [x])[k] == q[k];
  }

  /** A sequence without repetitions is left as it is. */
  lemma {:induction false} DedupDistinct<T>(s: seq<T>)
    requires Distinct(s)
    ensures Dedup(s) == s
  {
    if s != [] {
      var q := s[..|s| - 1];
      assert Distinct(q);
      DedupDistinct(q);
      assert s[|s| - 1] !in q;
    }
  }

  /** Removing repetitions twice is the same as once. */
  lemma DedupIdempotent<T>(s: seq<T>)
    ensures Dedup(Dedup(s)) == Dedup(s)
  {
    DedupDistinct(Dedup(s));
  }

  /** Number of distinct elements. */
  lemma DedupCardinality<T>(s: seq<T>)
    ensures |Dedup(s)| == |Elements(s)|
  {
    DistinctCardinality(Dedup(s));
    assert Elements(Dedup(s)) == Elements(s);
  }

  function Elements<T>(s: seq<T>): set<T> {
    set i | 0 <= i < |s| :: s[i]
  }

  lemma {:induction false} DistinctCardinality<T>(s: seq<T>)
    requires Distinct(s)
    ensures |Elements(s)| == |s|
  {
    if s != [] {
      var q := s[..|s| - 1];
      assert Distinct(q);
      DistinctCardinality(q);
      assert Elements(s) == Elements(q) + {s[|s| - 1]};
      assert s[|s| - 1] !in q;
    }
  }
}
