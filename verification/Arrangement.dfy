/** Sorting as the source uses it: list.sort with a key, described by a strict order `before`. */
module Arrangement {

  /** before orders its elements up to ties. */
  ghost predicate StrictWeakOrder<T(!new)>(before: (T, T) -> bool) {
    && (forall a, b :: before(a, b) ==> !before(b, a))
    && (forall a, b, c :: !before(a, b) && !before(b, c) ==> !before(a, c))
  }

  /** No element comes after one that it should precede. */
  ghost predicate InOrder<T>(xs: seq<T>, before: (T, T) -> bool) {
    forall i, j :: 0 <= i < j < |xs| ==> !before(xs[j], xs[i])
  }

  /** Every element strictly precedes the later ones: there are no ties. */
  ghost predicate Strictly<T>(xs: seq<T>, before: (T, T) -> bool) {
    forall i, j :: 0 <= i < j < |xs| ==> before(xs[i], xs[j])
  }

  ghost predicate NoTies<T>(xs: seq<T>, before: (T, T) -> bool) {
    forall i, j :: 0 <= i < j < |xs| ==> before(xs[i], xs[j]) || before(xs[j], xs[i])
  }

  /** How many leading elements stay in front of x. */
  function Position<T>(x: T, ys: seq<T>, before: (T, T) -> bool): (k: nat)
    ensures k <= |ys|
    ensures k < |ys| ==> before(x, ys[k])
    ensures forall i :: 0 <= i < k ==> !before(x, ys[i])
  {
    if ys == [] || before(x, ys[0]) then 0 else 1 + Position(x, ys[1..], before)
  }

  function Insert<T>(x: T, ys: seq<T>, before: (T, T) -> bool): seq<T> {
    var k := Position(x, ys, before);
    ys[..k] + [x] + ys[k..]
  }

  function Arranged<T>(xs: seq<T>, before: (T, T) -> bool): seq<T> {
    if xs == [] then [] else Insert(xs[|xs| - 1], Arranged(xs[..|xs| - 1], before), before)
  }

  lemma InsertKeepsOrder<T(!new)>(x: T, ys: seq<T>, before: (T, T) -> bool)
    requires StrictWeakOrder(before) && InOrder(ys, before)
    ensures InOrder(Insert(x, ys, before), before)
  {
    var k, r := Position(x, ys, before), Insert(x, ys, before);
    forall i, j | 0 <= i < j < |r|
      ensures !before(r[j], r[i])
    {
      if i == k {
        // everything from ys[k] on comes after x, because ys[k] does
        assert !before(ys[k], x);
        assert r[j] == ys[j - 1] && (j - 1 > k ==> !before(ys[j - 1], ys[k]));
      } else if j == k {
        assert r[i] == ys[i];
      }
    }
  }

  lemma InsertAddsOne<T>(x: T, ys: seq<T>, before: (T, T) -> bool)
    ensures multiset(Insert(x, ys, before)) == multiset(ys) + multiset{x}
  {
    var k := Position(x, ys, before);
    assert ys == ys[..k] + ys[k..];
  }

  lemma {:induction false} ArrangedIsSortedPermutation<T(!new)>(xs: seq<T>, before: (T, T) -> bool)
    requires StrictWeakOrder(before)
    ensures InOrder(Arranged(xs, before), before) && multiset(Arranged(xs, before)) == multiset(xs)
  {
    if xs != [] {
      var front, x := xs[..|xs| - 1], xs[|xs| - 1];
      ArrangedIsSortedPermutation(front, before);
      assert xs == front + [x];
      InsertKeepsOrder(x, Arranged(front, before), before);
      InsertAddsOne(x, Arranged(front, before), before);
    }
  }

  lemma WithoutFirst<T>(xs: seq<T>)
    requires xs != []
    ensures multiset(xs[1..]) == multiset(xs) - multiset{xs[0]}
  {
    assert xs == [xs[0]] + xs[1..];
  }

  /** There is only one strict arrangement of the same elements. */
  lemma {:induction false} StrictArrangementIsUnique<T(!new)>(xs: seq<T>, ys: seq<T>, before: (T, T) -> bool)
    requires StrictWeakOrder(before)
    requires Strictly(xs, before) && Strictly(ys, before) && multiset(xs) == multiset(ys)
    ensures xs == ys
  {
    assert |xs| == |multiset(xs)| == |multiset(ys)| == |ys|;
    if xs != [] {
      assert xs[0] in multiset(ys) && ys[0] in multiset(xs);
      assert xs[0] in ys && ys[0] in xs;
      assert xs[0] == ys[0];
      WithoutFirst(xs);
      WithoutFirst(ys);
      StrictArrangementIsUnique(xs[1..], ys[1..], before);
      assert xs == [xs[0]] + xs[1..];
    }
  }

  lemma {:induction false} OnceWithoutTies<T(!new)>(xs: seq<T>, x: T, before: (T, T) -> bool)
    requires StrictWeakOrder(before) && NoTies(xs, before)
    ensures multiset(xs)[x] <= 1
  {
    if xs != [] {
      var front, last := xs[..|xs| - 1], xs[|xs| - 1];
      assert xs == front + [last];
      OnceWithoutTies(front, x, before);
      assert last == x ==> x !in front;
    }
  }

  lemma TwiceInSequence<T>(ys: seq<T>, i: nat, j: nat)
    requires i < j < |ys| && ys[i] == ys[j]
    ensures multiset(ys)[ys[i]] >= 2
  {
    assert ys == ys[..i] + [ys[i]] + ys[i + 1..j] + [ys[j]] + ys[j + 1..];
  }

  lemma NoTiesInPermutation<T(!new)>(xs: seq<T>, ys: seq<T>, before: (T, T) -> bool)
    requires StrictWeakOrder(before) && NoTies(xs, before) && multiset(xs) == multiset(ys)
    ensures NoTies(ys, before)
  {
    forall i, j | 0 <= i < j < |ys|
      ensures before(ys[i], ys[j]) || before(ys[j], ys[i])
    {
      if ys[i] == ys[j] {
        TwiceInSequence(ys, i, j);
        OnceWithoutTies(xs, ys[i], before);
      } else {
        assert ys[i] in multiset(xs) && ys[j] in multiset(xs);
        assert ys[i] in xs && ys[j] in xs;
      }
    }
  }

  lemma ArrangedWithoutTies<T(!new)>(xs: seq<T>, before: (T, T) -> bool)
    requires StrictWeakOrder(before) && NoTies(xs, before)
    ensures Strictly(Arranged(xs, before), before)
  {
    ArrangedIsSortedPermutation(xs, before);
    NoTiesInPermutation(xs, Arranged(xs, before), before);
  }

  /** Without ties the arrangement depends on the elements and not on the order they come in. */
  lemma ArrangementIgnoresArrivalOrder<T(!new)>(xs: seq<T>, ys: seq<T>, before: (T, T) -> bool)
    requires StrictWeakOrder(before) && NoTies(xs, before) && multiset(xs) == multiset(ys)
    ensures Arranged(xs, before) == Arranged(ys, before)
  {
    NoTiesInPermutation(xs, ys, before);
    ArrangedWithoutTies(xs, before);
    ArrangedWithoutTies(ys, before);
    ArrangedIsSortedPermutation(xs, before);
    ArrangedIsSortedPermutation(ys, before);
    StrictArrangementIsUnique(Arranged(xs, before), Arranged(ys, before), before);
  }

  /** A newcomer moves nobody who is ahead of it. */
  lemma NewcomerKeepsPrefix<T>(xs: seq<T>, x: T, before: (T, T) -> bool, k: nat)
    requires k <= Position(x, Arranged(xs, before), before)
    ensures k <= |Arranged(xs + [x], before)| && Arranged(xs + [x], before)[..k] == Arranged(xs, before)[..k]
  {
    assert (xs + [x])[..|xs|] == xs;
    assert Arranged(xs + [x], before) == Insert(x, Arranged(xs, before), before);
    InsertKeepsPrefix(x, Arranged(xs, before), before, k);
  }

  lemma InsertKeepsPrefix<T>(x: T, ys: seq<T>, before: (T, T) -> bool, k: nat)
    requires k <= Position(x, ys, before)
    ensures k <= |Insert(x, ys, before)| && Insert(x, ys, before)[..k] == ys[..k]
  {
  }

  /** The elements that are kept, in the order they come in. */
  function Filter<T>(xs: seq<T>, keep: T -> bool): seq<T> {
    if xs == [] then []
    else Filter(xs[..|xs| - 1], keep) + if keep(xs[|xs| - 1]) then [xs[|xs| - 1]] else []
  }

  lemma FilterNext<T>(xs: seq<T>, i: nat, keep: T -> bool)
    requires i < |xs|
    ensures Filter(xs[..i + 1], keep) == Filter(xs[..i], keep) + if keep(xs[i]) then [xs[i]] else []
  {
    assert xs[..i + 1][..i] == xs[..i];
  }

  lemma {:induction false} FilterCounts<T>(xs: seq<T>, keep: T -> bool, x: T)
    ensures multiset(Filter(xs, keep))[x] == if keep(x) then multiset(xs)[x] else 0
  {
    if xs != [] {
      FilterCounts(xs[..|xs| - 1], keep, x);
      assert xs == xs[..|xs| - 1] + [xs[|xs| - 1]];
    }
  }

  lemma FilterOfPermutation<T(!new)>(xs: seq<T>, ys: seq<T>, keep: T -> bool)
    requires multiset(xs) == multiset(ys)
    ensures multiset(Filter(xs, keep)) == multiset(Filter(ys, keep))
  {
    forall x: T
      ensures multiset(Filter(xs, keep))[x] == multiset(Filter(ys, keep))[x]
    {
      FilterCounts(xs, keep, x);
      FilterCounts(ys, keep, x);
    }
  }

  lemma {:induction false} FilterKeepsAll<T>(xs: seq<T>, keep: T -> bool)
    requires forall i :: 0 <= i < |xs| ==> keep(xs[i])
    ensures Filter(xs, keep) == xs
  {
    if xs != [] {
      FilterKeepsAll(xs[..|xs| - 1], keep);
    }
  }

  lemma {:induction false} FilterSplits<T>(xs: seq<T>, k: nat, keep: T -> bool)
    requires k <= |xs|
    requires forall i :: 0 <= i < k ==> keep(xs[i])
    requires forall i :: k <= i < |xs| ==> !keep(xs[i])
    ensures Filter(xs, keep) == xs[..k]
  {
    if k == |xs| {
      FilterKeepsAll(xs, keep);
    } else {
      FilterSplits(xs[..|xs| - 1], k, keep);
    }
  }

  /** When an element is kept only if all the ones before it are, a prefix is kept. */
  lemma {:induction false} FilterIsPrefix<T>(xs: seq<T>, keep: T -> bool)
    requires forall i, j :: 0 <= i < j < |xs| && keep(xs[j]) ==> keep(xs[i])
    ensures |Filter(xs, keep)| <= |xs| && Filter(xs, keep) == xs[..|Filter(xs, keep)|]
  {
    if xs != [] {
      var front := xs[..|xs| - 1];
      FilterIsPrefix(front, keep);
      if keep(xs[|xs| - 1]) {
        FilterKeepsAll(front, keep);
      }
    }
  }
}
