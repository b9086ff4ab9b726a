/**
 * The library sorts the source relies on (Python's `list.sort`, JavaScript's
 * `Array.prototype.sort`) are both stable. They are modelled here by one stable
 * insertion sort parameterised by a "strictly before" relation, together with
 * the three facts a caller may rely on: the result is a permutation, it is
 * sorted, and elements that compare equal keep their input order.
 */
module Sorting {

  /** `lt` is a strict weak order: asymmetric and negatively transitive. */
  ghost predicate StrictWeakOrder<T(!new)>(lt: (T, T) -> bool) {
    (forall a, b :: lt(a, b) ==> !lt(b, a)) &&
    (forall a, b, c :: lt(a, c) ==> lt(a, b) || lt(b, c))
  }

  /** Neither element must come before the other. */
  predicate Equivalent<T>(lt: (T, T) -> bool, a: T, b: T) {
    !lt(a, b) && !lt(b, a)
  }

  /** No element is strictly before one that precedes it. */
  ghost predicate Sorted<T>(s: seq<T>, lt: (T, T) -> bool) {
    forall i, j :: 0 <= i < j < |s| ==> !lt(s[j], s[i])
  }

  /** The elements of `s` that satisfy `p`, in order (a Python comprehension with an `if`). */
  function Filter<T>(s: seq<T>, p: T -> bool): (r: seq<T>)
    ensures |r| <= |s|
    ensures forall x :: x in r ==> x in s && p(x)
    ensures forall x :: x in s && p(x) ==> x in r
  {
    if s == [] then [] else (if p(s[0]) then [s[0]] else []) + Filter(s[1..], p)
  }

  /** The first `n` elements, or all of them when there are fewer (Python's `s[:n]`). */
  function Take<T>(s: seq<T>, n: nat): (r: seq<T>)
    ensures |r| == if |s| < n then |s| else n
    ensures forall i :: 0 <= i < |r| ==> r[i] == s[i]
  {
    if |s| <= n then s else s[..n]
  }

  /** Inserts `x` before the first element that is not strictly before it. */
  function Insert<T>(x: T, s: seq<T>, lt: (T, T) -> bool): (r: seq<T>)
    ensures |r| == |s| + 1
    ensures multiset(r) == multiset(s) + multiset{x}
  {
    if s == [] || !lt(s[0], x) then [x] + s
    else
      assert s == [s[0]] + s[1..];
      [s[0]] + Insert(x, s[1..], lt)
  }

  /** Stable insertion sort: `x` is inserted ahead of the elements equivalent to it that follow it in the input. */
  function Sort<T>(s: seq<T>, lt: (T, T) -> bool): (r: seq<T>)
    ensures |r| == |s|
    ensures multiset(r) == multiset(s)
  {
    if s == [] then []
    else
      assert s == [s[0]] + s[1..];
      Insert(s[0], Sort(s[1..], lt), lt)
  }

  /** The elements of `s` equivalent to `e`, in order. */
  function Class<T>(s: seq<T>, lt: (T, T) -> bool, e: T): seq<T> {
    if s == [] then [] else (if Equivalent(lt, s[0], e) then [s[0]] else []) + Class(s[1..], lt, e)
  }

  /** Two elements one of which is strictly before the other are not both equivalent to a third. */
  lemma SeparatedClasses<T(!new)>(lt: (T, T) -> bool, a: T, b: T, e: T)
    requires StrictWeakOrder(lt)
    requires lt(a, b)
    ensures !(Equivalent(lt, a, e) && Equivalent(lt, b, e))
  {
  }

  lemma {:induction false} InsertSorted<T(!new)>(x: T, s: seq<T>, lt: (T, T) -> bool)
    requires StrictWeakOrder(lt) && Sorted(s, lt)
    ensures Sorted(Insert(x, s, lt), lt)
  {
    var r := Insert(x, s, lt);
    if s == [] || !lt(s[0], x) {
      assert r == [x] + s;
      forall i, j | 0 <= i < j < |r| ensures !lt(r[j], r[i]) {
        if i == 0 {
          assert r[j] == s[j - 1];
          if j > 1 {
            // negative transitivity: s[0] is not before x, and s[j - 1] not before s[0]
            assert !lt(s[j - 1], x);
          }
        } else {
          assert r[i] == s[i - 1] && r[j] == s[j - 1];
        }
      }
    } else {
      InsertSorted(x, s[1..], lt);
      var t := Insert(x, s[1..], lt);
      assert r == [s[0]] + t;
      forall i, j | 0 <= i < j < |r| ensures !lt(r[j], r[i]) {
        if i == 0 {
          assert r[j] == t[j - 1];
          assert r[j] in multiset(t);
          assert r[j] == x || r[j] in multiset(s[1..]);
          if r[j] != x {
            assert r[j] in s[1..];
            var k :| 0 <= k < |s[1..]| && s[1..][k] == r[j];
            assert s[k + 1] == r[j];
          }
        } else {
          assert r[i] == t[i - 1] && r[j] == t[j - 1];
        }
      }
    }
  }

  /** The sort's output is ordered by `lt`. */
  lemma {:induction false} SortSorted<T(!new)>(s: seq<T>, lt: (T, T) -> bool)
    requires StrictWeakOrder(lt)
    ensures Sorted(Sort(s, lt), lt)
  {
    if s != [] {
      SortSorted(s[1..], lt);
      InsertSorted(s[0], Sort(s[1..], lt), lt);
    }
  }

  lemma {:induction false} InsertClass<T(!new)>(x: T, s: seq<T>, lt: (T, T) -> bool, e: T)
    requires StrictWeakOrder(lt)
    ensures Class(Insert(x, s, lt), lt, e) == (if Equivalent(lt, x, e) then [x] else []) + Class(s, lt, e)
  {
    var cx: seq<T> := if Equivalent(lt, x, e) then [x] else [];
    if s == [] || !lt(s[0], x) {
      assert Insert(x, s, lt) == [x] + s;
      assert ([x] + s)[1..] == s;
    } else {
      var t := Insert(x, s[1..], lt);
      var c0: seq<T> := if Equivalent(lt, s[0], e) then [s[0]] else [];
      assert Insert(x, s, lt) == [s[0]] + t;
      assert ([s[0]] + t)[1..] == t;
      assert Class([s[0]] + t, lt, e) == c0 + Class(t, lt, e);
      InsertClass(x, s[1..], lt, e);
      assert Class(s, lt, e) == c0 + Class(s[1..], lt, e);
      SeparatedClasses(lt, s[0], x, e);
    }
  }

  /** Stability: for every element `e`, the elements equivalent to `e` appear in the output in their input order. */
  lemma {:induction false} SortStable<T(!new)>(s: seq<T>, lt: (T, T) -> bool, e: T)
    requires StrictWeakOrder(lt)
    ensures Class(Sort(s, lt), lt, e) == Class(s, lt, e)
  {
    if s != [] {
      SortStable(s[1..], lt, e);
      InsertClass(s[0], Sort(s[1..], lt), lt, e);
    }
  }

  /** Sorting keeps every element and adds none: the output is a permutation of the input. */
  lemma SortPermutation<T>(s: seq<T>, lt: (T, T) -> bool)
    ensures multiset(Sort(s, lt)) == multiset(s)
    ensures forall x :: x in Sort(s, lt) <==> x in s
  {
    var r := Sort(s, lt);
    forall x ensures x in r <==> x in s {
      assert x in r <==> x in multiset(r);
      assert x in s <==> x in multiset(s);
    }
  }
}
