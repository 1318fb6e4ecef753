/** The stable sort of a list by a strict weak order, as `sort_by` and `sort_by_key` do it. */
module StableSort {

  /** "Comes before" is irreflexive and asymmetric, and "does not come before" is transitive. */
  ghost predicate StrictWeak<T(!new)>(before: (T, T) -> bool) {
    && (forall a :: !before(a, a))
    && (forall a, b :: before(a, b) ==> !before(b, a))
    && (forall a, b, c :: !before(a, b) && !before(b, c) ==> !before(a, c))
  }

  predicate Sorted<T>(xs: seq<T>, before: (T, T) -> bool) {
    forall i, j :: 0 <= i < j < |xs| ==> !before(xs[j], xs[i])
  }

  /** Puts `x` before the first element that does not come before it, so that equals keep their order. */
  function Insert<T>(x: T, xs: seq<T>, before: (T, T) -> bool): (r: seq<T>)
    ensures multiset(r) == multiset{x} + multiset(xs) && |r| == |xs| + 1
  {
    if xs != [] && before(xs[0], x) then
      assert xs == [xs[0]] + xs[1..];
      [xs[0]] + Insert(x, xs[1..], before)
    else [x] + xs
  }

  function Sort<T>(xs: seq<T>, before: (T, T) -> bool): (r: seq<T>)
    ensures multiset(r) == multiset(xs) && |r| == |xs|
  {
    if xs == [] then [] else
    assert xs == [xs[0]] + xs[1..];
    Insert(xs[0], Sort(xs[1..], before), before)
  }

  lemma InSort<T>(xs: seq<T>, before: (T, T) -> bool, x: T)
    ensures x in Sort(xs, before) <==> x in xs
  {
    assert x in multiset(Sort(xs, before)) <==> x in multiset(xs);
  }

  lemma {:induction false} InsertSorts<T(!new)>(x: T, xs: seq<T>, before: (T, T) -> bool)
    requires StrictWeak(before) && Sorted(xs, before)
    ensures Sorted(Insert(x, xs, before), before)
  {
    var r := Insert(x, xs, before);
    if xs != [] && before(xs[0], x) {
      InsertSorts(x, xs[1..], before);
      forall j | 0 < j < |r| ensures !before(r[j], r[0]) {
        assert r[j] in multiset(r[1..]);
        if r[j] != x {
          var k :| 0 <= k < |xs[1..]| && xs[1..][k] == r[j];
        }
      }
    } else if xs != [] {
      forall j | 0 < j < |r| ensures !before(r[j], x) {
        assert j > 1 ==> !before(r[j], xs[0]);
      }
    }
  }

  lemma {:induction false} SortSorts<T(!new)>(xs: seq<T>, before: (T, T) -> bool)
    requires StrictWeak(before)
    ensures Sorted(Sort(xs, before), before)
  {
    if xs != [] {
      SortSorts(xs[1..], before);
      InsertSorts(xs[0], Sort(xs[1..], before), before);
    }
  }

  /** The elements that sort together with `x`, in their order in the list. */
  function Equals<T>(xs: seq<T>, x: T, before: (T, T) -> bool): seq<T> {
    if xs == [] then [] else
    (if !before(xs[0], x) && !before(x, xs[0]) then [xs[0]] else []) + Equals(xs[1..], x, before)
  }

  lemma {:induction false} InsertIsStable<T(!new)>(n: T, xs: seq<T>, x: T, before: (T, T) -> bool)
    requires StrictWeak(before)
    ensures Equals(Insert(n, xs, before), x, before) == Equals([n] + xs, x, before)
  {
    hide StrictWeak;
    if xs != [] && before(xs[0], n) {
      InsertIsStable(n, xs[1..], x, before);
      assert ([n] + xs)[1..] == xs && ([n] + xs[1..])[1..] == xs[1..];
      NotBothEqual(xs[0], n, x, before);
    }
  }

  lemma NotBothEqual<T(!new)>(a: T, b: T, x: T, before: (T, T) -> bool)
    requires StrictWeak(before) && before(a, b)
    ensures before(a, x) || before(x, a) || before(b, x) || before(x, b)
  {
  }

  /** Elements that sort together keep their order. */
  lemma {:induction false} SortIsStable<T(!new)>(xs: seq<T>, x: T, before: (T, T) -> bool)
    requires StrictWeak(before)
    ensures Equals(Sort(xs, before), x, before) == Equals(xs, x, before)
  {
    if xs != [] {
      SortIsStable(xs[1..], x, before);
      var s := Sort(xs[1..], before);
      InsertIsStable(xs[0], s, x, before);
      assert ([xs[0]] + s)[1..] == s;
    }
  }

  lemma {:induction false} SortSorted<T>(xs: seq<T>, before: (T, T) -> bool)
    requires Sorted(xs, before)
    ensures Sort(xs, before) == xs
  {
    if xs != [] {
      SortSorted(xs[1..], before);
      assert |xs| > 1 ==> !before(xs[1], xs[0]);
    }
  }
}
