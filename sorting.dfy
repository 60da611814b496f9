/** Stable ordering by a key, as `Array.prototype.sort` (stable since ES2019) and an SQL
    `ORDER BY` evaluated in first-appearance order give it. A key is a real number or one
    of two ends: NULLs that Postgres puts first in a descending order map to `Top`,
    values that a JavaScript comparator cannot place map to `Bottom`. */
module Sorting {

  datatype Key = Bottom | Val(x: real) | Top

  /** The total order on keys. */
  predicate KeyLe(a: Key, b: Key) {
    a.Bottom? || b.Top? || (a.Val? && b.Val? && a.x <= b.x)
  }

  predicate KeyLt(a: Key, b: Key) { !KeyLe(b, a) }

  lemma KeyLeTotal(a: Key, b: Key)
    ensures KeyLe(a, b) || KeyLe(b, a)
    ensures KeyLt(a, b) ==> KeyLe(a, b)
  {
  }

  /** Non-increasing by key. */
  predicate SortedDesc<T>(s: seq<T>, key: T -> Key) {
    forall i, j :: 0 <= i < j < |s| ==> KeyLe(key(s[j]), key(s[i]))
  }

  /** Puts `x` after every element whose key is at least its own, so that among equal keys
      the later element stays later. */
  function Insert<T>(x: T, s: seq<T>, key: T -> Key): (r: seq<T>)
    requires SortedDesc(s, key)
    ensures |r| == |s| + 1
    ensures multiset(r) == multiset(s) + multiset{x}
    ensures SortedDesc(r, key)
  {
    if s == [] then [x]
    else if KeyLt(key(s[0]), key(x)) then
      assert forall j :: 0 <= j < |s| ==> KeyLe(key(s[j]), key(x)) by {
        forall j | 0 <= j < |s| ensures KeyLe(key(s[j]), key(x)) {
          if j > 0 { assert KeyLe(key(s[j]), key(s[0])); }
        }
      }
      [x] + s
    else
      var rest := Insert(x, s[1..], key);
      assert s == [s[0]] + s[1..];
      assert forall j :: 0 <= j < |rest| ==> KeyLe(key(rest[j]), key(s[0])) by {
        forall j | 0 <= j < |rest| ensures KeyLe(key(rest[j]), key(s[0])) {
          assert rest[j] in multiset(rest);
          assert rest[j] == x || rest[j] in multiset(s[1..]);
        }
      }
      [s[0]] + rest
  }

  /** Stable insertion sort, non-increasing by key. */
  function SortDesc<T>(s: seq<T>, key: T -> Key): (r: seq<T>)
    ensures |r| == |s|
    ensures multiset(r) == multiset(s)
    ensures SortedDesc(r, key)
  {
    if s == [] then []
    else
      assert s == s[..|s| - 1] + [s[|s| - 1]];
      Insert(s[|s| - 1], SortDesc(s[..|s| - 1], key), key)
  }

  /** `s.slice(0, n)`, SQL `LIMIT n`. */
  function Take<T>(s: seq<T>, n: nat): (r: seq<T>)
    ensures |r| <= n && |r| <= |s|
    ensures |r| == if n < |s| then n else |s|
    ensures r == s[..|r|]
  {
    if n < |s| then s[..n] else s
  }

  lemma TakeSorted<T>(s: seq<T>, n: nat, key: T -> Key)
    requires SortedDesc(s, key)
    ensures SortedDesc(Take(s, n), key)
  {
  }

  /** An element that the first `n` of a sorted sequence leave out ranks no higher than
      any of them, and there are `n` of them. */
  lemma TakeKeepsLargest<T>(s: seq<T>, n: nat, key: T -> Key, x: T)
    requires SortedDesc(s, key) && x in s && x !in Take(s, n)
    ensures |Take(s, n)| == n
    ensures forall k :: 0 <= k < n ==> KeyLe(key(x), key(Take(s, n)[k]))
  {
    var j :| 0 <= j < |s| && s[j] == x;
    assert j >= |Take(s, n)|;
  }
}
