/** `Array.prototype.sort` with a newest-first comparator, as both report
    listings use it. The ECMAScript sort is stable (since ES2019): elements the
    comparator calls equal keep their order.
 */
module Sorting {

  /** What the comparators look at: a time in milliseconds, or nothing (a
      name whose timestamp does not parse). */
  datatype SortKey = Timed(ms: int) | Untimed

  /** `a` sorts strictly before `b`: the later time first, untimed last. */
  predicate Precedes(a: SortKey, b: SortKey) {
    a.Timed? && (b.Untimed? || a.ms > b.ms)
  }

  /** Two keys neither of which precedes the other are equal. */
  lemma PrecedesTotal(a: SortKey, b: SortKey)
    ensures Precedes(a, b) || Precedes(b, a) || a == b
    ensures !(Precedes(a, b) && Precedes(b, a))
  {
  }

  predicate Sorted<T>(s: seq<T>, key: T -> SortKey) {
    forall i, j :: 0 <= i < j < |s| ==> !Precedes(key(s[j]), key(s[i]))
  }

  /** The elements with key `k`, in order. */
  function WithKey<T>(s: seq<T>, key: T -> SortKey, k: SortKey): (r: seq<T>)
    ensures |r| <= |s|
  {
    if s == [] then []
    else (if key(s[0]) == k then [s[0]] else []) + WithKey(s[1..], key, k)
  }

  /** `x` placed before the first element that does not sort strictly
      before it. */
  function Insert<T>(x: T, s: seq<T>, key: T -> SortKey): (r: seq<T>)
    ensures |r| == |s| + 1
  {
    if s == [] || !Precedes(key(s[0]), key(x)) then [x] + s
    else [s[0]] + Insert(x, s[1..], key)
  }

  /** Stable insertion sort. */
  function Sort<T>(s: seq<T>, key: T -> SortKey): (r: seq<T>)
    ensures |r| == |s|
  {
    if s == [] then [] else Insert(s[0], Sort(s[1..], key), key)
  }

  lemma {:induction false} InsertPermutes<T>(x: T, s: seq<T>, key: T -> SortKey)
    ensures multiset(Insert(x, s, key)) == multiset(s) + multiset{x}
  {
    if s != [] && Precedes(key(s[0]), key(x)) {
      InsertPermutes(x, s[1..], key);
      assert s == [s[0]] + s[1..];
    }
  }

  lemma {:induction false} InsertSorted<T>(x: T, s: seq<T>, key: T -> SortKey)
    requires Sorted(s, key)
    ensures Sorted(Insert(x, s, key), key)
  {
    var r := Insert(x, s, key);
    if s == [] || !Precedes(key(s[0]), key(x)) {
      forall j | 1 <= j < |r| ensures !Precedes(key(r[j]), key(x)) {
        assert r[j] == s[j - 1];
        if j > 1 {
          assert !Precedes(key(s[j - 1]), key(s[0]));
        }
      }
    } else {
      var t := Insert(x, s[1..], key);
      InsertSorted(x, s[1..], key);
      InsertPermutes(x, s[1..], key);
      forall j | 0 <= j < |t| ensures !Precedes(key(t[j]), key(s[0])) {
        assert t[j] in multiset(s[1..]) + multiset{x};
        if t[j] != x {
          assert t[j] in s[1..];
          var k :| 0 <= k < |s[1..]| && s[1..][k] == t[j];
          assert s[k + 1] == t[j];
        }
      }
      assert r == [s[0]] + t;
    }
  }

  lemma {:induction false} InsertWithKey<T>(x: T, s: seq<T>, key: T -> SortKey, k: SortKey)
    requires Sorted(s, key)
    ensures WithKey(Insert(x, s, key), key, k)
         == (if key(x) == k then [x] else []) + WithKey(s, key, k)
  {
    if s != [] && Precedes(key(s[0]), key(x)) {
      var r := Insert(x, s, key);
      InsertWithKey(x, s[1..], key, k);
      assert r[1..] == Insert(x, s[1..], key);
      assert r[0] == s[0];
      if key(x) == k {
        assert key(s[0]) != k;
      }
    }
  }

  /** The sort orders its input newest first ... */
  lemma {:induction false} SortSorted<T>(s: seq<T>, key: T -> SortKey)
    ensures Sorted(Sort(s, key), key)
  {
    if s != [] {
      SortSorted(s[1..], key);
      InsertSorted(s[0], Sort(s[1..], key), key);
    }
  }

  /** ... keeps every element exactly as often as it occurs ... */
  lemma {:induction false} SortPermutes<T>(s: seq<T>, key: T -> SortKey)
    ensures multiset(Sort(s, key)) == multiset(s)
  {
    if s != [] {
      SortPermutes(s[1..], key);
      InsertPermutes(s[0], Sort(s[1..], key), key);
      assert s == [s[0]] + s[1..];
    }
  }

  /** ... and leaves elements of equal key in their input order. */
  lemma {:induction false} SortStable<T>(s: seq<T>, key: T -> SortKey, k: SortKey)
    ensures WithKey(Sort(s, key), key, k) == WithKey(s, key, k)
  {
    if s != [] {
      SortStable(s[1..], key, k);
      SortSorted(s[1..], key);
      InsertWithKey(s[0], Sort(s[1..], key), key, k);
    }
  }

  /** Untimed elements come after every timed one. */
  lemma UntimedLast<T>(s: seq<T>, key: T -> SortKey, i: int, j: int)
    requires 0 <= i < |s| && 0 <= j < |s|
    requires key(Sort(s, key)[i]).Untimed? && key(Sort(s, key)[j]).Timed?
    ensures j < i
  {
    SortSorted(s, key);
    SortedUntimedLast(Sort(s, key), key, i, j);
  }

  lemma SortedUntimedLast<T>(r: seq<T>, key: T -> SortKey, i: int, j: int)
    requires Sorted(r, key) && 0 <= i < |r| && 0 <= j < |r|
    requires key(r[i]).Untimed? && key(r[j]).Timed?
    ensures j < i
  {
  }
}
