/**
 * The `Array.prototype` operations the handlers and the client use: `filter`,
 * `slice` with JavaScript's argument rules, `Math.min` with a number, and
 * `sort` by an integer key.
 */
module JsArray {
  import opened Json

  /** `s.filter(p)`. */
  function Filter<T(!new)>(s: seq<T>, p: T -> bool): (r: seq<T>)
    ensures |r| <= |s|
    ensures forall x :: x in r <==> x in s && p(x)
    ensures forall i :: 0 <= i < |r| ==> p(r[i])
    decreases |s|
  {
    if s == [] then []
    else
      var rest := Filter(s[1..], p);
      assert forall x :: x in s <==> x == s[0] || x in s[1..];
      if p(s[0]) then [s[0]] + rest else rest
  }

  /** Filtering distributes over concatenation, so the kept elements stay in their original order. */
  lemma {:induction false} FilterAppend<T(!new)>(a: seq<T>, b: seq<T>, p: T -> bool)
    ensures Filter(a + b, p) == Filter(a, p) + Filter(b, p)
    decreases |a|
  {
    if a == [] {
      assert a + b == b;
    } else {
      assert (a + b)[1..] == a[1..] + b;
      FilterAppend(a[1..], b, p);
    }
  }

  /** A filter that every element passes keeps the whole sequence. */
  lemma {:induction false} FilterKeepsAll<T(!new)>(s: seq<T>, p: T -> bool)
    requires forall i :: 0 <= i < |s| ==> p(s[i])
    ensures Filter(s, p) == s
    decreases |s|
  {
    if s != [] {
      FilterKeepsAll(s[1..], p);
    }
  }

  /** ToIntegerOrInfinity of a finite number: truncation toward zero. */
  function Trunc(x: real): (t: int)
    ensures x >= 0.0 ==> t == x.Floor
    ensures x < 0.0 ==> t == -((-x).Floor)
  {
    if x >= 0.0 then x.Floor else -((-x).Floor)
  }

  /** The position `slice` resolves an argument to: negatives count from the end, NaN is 0, the result is clamped. */
  function RelativeIndex(n: JsNumber, len: nat): (r: nat)
    ensures r <= len
  {
    match n
    case NaN => 0
    case Infinity(negative) => if negative then 0 else len
    case Finite(x) =>
      var t := Trunc(x);
      if t < 0 then (if len + t < 0 then 0 else len + t) else if t > len then len else t
  }

  /** `s.slice(0, end)`. */
  function SliceTo<T>(s: seq<T>, end: JsNumber): (r: seq<T>)
    ensures |r| <= |s| && r == s[..|r|]
  {
    s[..RelativeIndex(end, |s|)]
  }

  /** For a non-negative whole number `k`, `slice(0, k)` is the first `min(k, |s|)` elements. */
  lemma SliceToWhole<T>(s: seq<T>, k: nat)
    ensures SliceTo(s, Finite(k as real)) == s[..if k < |s| then k else |s|]
  {
    assert Trunc(k as real) == k;
  }

  /** For a negative whole number `k`, `slice(0, k)` drops the last `-k` elements instead. */
  lemma SliceToNegative<T>(s: seq<T>, k: int)
    requires k < 0
    ensures SliceTo(s, Finite(k as real)) == s[..if |s| + k < 0 then 0 else |s| + k]
  {
    assert (-(k as real)).Floor == -k;
  }

  /** `Math.min(n, cap)` for a finite `cap`. */
  function Min(n: JsNumber, cap: real): (r: JsNumber)
    ensures n.NaN? <==> r.NaN?
    ensures r.Finite? ==> r.x <= cap
    ensures n.Finite? ==> r == Finite(if n.x < cap then n.x else cap)
    ensures n == Infinity(false) ==> r == Finite(cap)
    ensures n == Infinity(true) ==> r == n
  {
    match n
    case NaN => NaN
    case Infinity(negative) => if negative then n else Finite(cap)
    case Finite(x) => Finite(if x < cap then x else cap)
  }

  /**
   * A slice up to a non-negative number that is at most `cap` holds at most `cap` elements.
   * (A negative end counts from the back and may keep far more; see `SliceToNegative`.)
   */
  lemma SliceToCapped<T>(s: seq<T>, n: JsNumber, cap: nat)
    requires n.Finite? ==> 0.0 <= n.x <= cap as real
    requires n != Infinity(false)
    ensures |SliceTo(s, n)| <= cap
  {
    if n.Finite? && n.x >= 0.0 {
      assert (n.x.Floor as real) <= n.x;
      assert Trunc(n.x) <= cap;
    }
  }

  /** Every element is at or below the next ones in key order. */
  predicate SortedByKey<T>(s: seq<T>, key: T -> int) {
    forall i, j :: 0 <= i < j < |s| ==> key(s[i]) <= key(s[j])
  }

  /** Inserts `x` into a key-sorted sequence before the first element whose key is not smaller. */
  function InsertByKey<T>(x: T, s: seq<T>, key: T -> int): (r: seq<T>)
    requires SortedByKey(s, key)
    ensures SortedByKey(r, key)
    ensures multiset(r) == multiset(s) + multiset{x}
    decreases |s|
  {
    if s == [] then [x]
    else if key(x) <= key(s[0]) then [x] + s
    else
      var rest := InsertByKey(x, s[1..], key);
      assert s == [s[0]] + s[1..];
      forall i | 0 <= i < |rest|
        ensures key(s[0]) <= key(rest[i])
      {
        assert rest[i] in multiset(rest);
        if rest[i] != x {
          assert rest[i] in multiset(s[1..]);
        }
      }
      [s[0]] + rest
  }

  /**
   * `s.sort((a, b) => key(a) - key(b))`: an insertion sort into ascending key order.
   * Each element is inserted ahead of the equal-key elements that follow it in `s`;
   * the contract states order and permutation only, not the order among equal keys.
   */
  function SortByKey<T>(s: seq<T>, key: T -> int): (r: seq<T>)
    ensures SortedByKey(r, key)
    ensures multiset(r) == multiset(s)
    decreases |s|
  {
    if s == [] then []
    else
      assert s == [s[0]] + s[1..];
      InsertByKey(s[0], SortByKey(s[1..], key), key)
  }
}
