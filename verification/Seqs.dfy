/** Order-preserving selection and mapping of sequences: the model of the
    source's list comprehensions and of SQL `WHERE` clauses. */
module Seqs {

  datatype Option<+T> = None | Some(value: T)

  /** The elements of `xs` that satisfy `p`, in their original order. */
  function Filter<T>(xs: seq<T>, p: T -> bool): seq<T>
  {
    if xs == [] then []
    else
      var rest := Filter(xs[..|xs| - 1], p);
      if p(xs[|xs| - 1]) then rest + [xs[|xs| - 1]] else rest
  }

  function Map<T, U>(xs: seq<T>, f: T -> U): (ys: seq<U>)
    ensures |ys| == |xs| && forall i :: 0 <= i < |xs| ==> ys[i] == f(xs[i])
  {
    seq(|xs|, i requires 0 <= i < |xs| => f(xs[i]))
  }

  function Reverse<T>(xs: seq<T>): (ys: seq<T>)
    ensures |ys| == |xs| && forall i :: 0 <= i < |xs| ==> ys[i] == xs[|xs| - 1 - i]
  {
    seq(|xs|, i requires 0 <= i < |xs| => xs[|xs| - 1 - i])
  }

  /** No element occurs twice. */
  ghost predicate Unique<T>(xs: seq<T>) {
    forall i, j :: 0 <= i < j < |xs| ==> xs[i] != xs[j]
  }

  lemma UniqueSnoc<T>(xs: seq<T>, x: T)
    requires Unique(xs) && x !in xs
    ensures Unique(xs + [x])
  {
  }

  lemma TakeSnoc<T>(xs: seq<T>, i: nat)
    requires i < |xs|
    ensures xs[..i + 1] == xs[..i] + [xs[i]]
  {
  }

  lemma FrontAndLast<T>(xs: seq<T>)
    requires xs != []
    ensures xs == xs[..|xs| - 1] + [xs[|xs| - 1]]
  {
  }

  lemma MapSnoc<T(!new), U>(xs: seq<T>, x: T, f: T -> U)
    ensures Map(xs + [x], f) == Map(xs, f) + [f(x)]
  {
  }

  lemma FilterSnoc<T(!new)>(xs: seq<T>, x: T, p: T -> bool)
    ensures Filter(xs + [x], p) == if p(x) then Filter(xs, p) + [x] else Filter(xs, p)
  {
    assert (xs + [x])[..|xs|] == xs;
  }

  lemma Associates<T>(xs: seq<T>, ys: seq<T>, zs: seq<T>)
    ensures (xs + ys) + zs == xs + (ys + zs)
  {
  }

  lemma {:induction false} FilterConcat<T(!new)>(xs: seq<T>, ys: seq<T>, p: T -> bool)
    ensures Filter(xs + ys, p) == Filter(xs, p) + Filter(ys, p)
  {
    if ys == [] {
      assert xs + ys == xs;
    } else {
      var n := |ys| - 1;
      FilterConcat(xs, ys[..n], p);
      assert xs + ys == (xs + ys[..n]) + [ys[n]];
      FilterSnoc(xs + ys[..n], ys[n], p);
      Associates(Filter(xs, p), Filter(ys[..n], p), [ys[n]]);
    }
  }

  lemma {:induction false} FilterMembers<T(!new)>(xs: seq<T>, p: T -> bool)
    ensures forall x :: x in Filter(xs, p) <==> x in xs && p(x)
  {
    if xs != [] {
      var n := |xs| - 1;
      FilterMembers(xs[..n], p);
      assert xs == xs[..n] + [xs[n]];
    }
  }

  lemma {:induction false} FilterTwice<T(!new)>(xs: seq<T>, p: T -> bool, q: T -> bool, both: T -> bool)
    requires forall x :: x in xs ==> both(x) == (p(x) && q(x))
    ensures Filter(Filter(xs, p), q) == Filter(xs, both)
  {
    if xs != [] {
      var n := |xs| - 1;
      FilterTwice(xs[..n], p, q, both);
      if p(xs[n]) {
        FilterSnoc(Filter(xs[..n], p), xs[n], q);
      }
    }
  }

  lemma {:induction false} FilterAll<T(!new)>(xs: seq<T>, p: T -> bool)
    requires forall x :: x in xs ==> p(x)
    ensures Filter(xs, p) == xs
  {
    if xs != [] {
      FilterAll(xs[..|xs| - 1], p);
    }
  }

  lemma {:induction false} FilterNone<T(!new)>(xs: seq<T>, p: T -> bool)
    requires forall x :: x in xs ==> !p(x)
    ensures Filter(xs, p) == []
  {
    if xs != [] {
      FilterNone(xs[..|xs| - 1], p);
    }
  }

  /** Selecting keeps every selected element as often as it occurs. */
  lemma {:induction false} FilterCounts<T(!new)>(xs: seq<T>, p: T -> bool)
    ensures forall x :: multiset(Filter(xs, p))[x] == if p(x) then multiset(xs)[x] else 0
  {
    if xs != [] {
      FrontAndLast(xs);
      FilterCounts(xs[..|xs| - 1], p);
    }
  }

  /** Selecting from a prefix gives a prefix of the selection. */
  lemma FilterPrefix<T(!new)>(xs: seq<T>, k: nat, p: T -> bool)
    requires k <= |xs|
    ensures |Filter(xs[..k], p)| <= |Filter(xs, p)|
    ensures Filter(xs[..k], p) == Filter(xs, p)[..|Filter(xs[..k], p)|]
  {
    assert xs == xs[..k] + xs[k..];
    FilterConcat(xs[..k], xs[k..], p);
  }

  /** Selecting after mapping is mapping after selecting on the image. */
  lemma {:induction false} FilterMap<T(!new), U(!new)>(xs: seq<T>, f: T -> U, p: T -> bool, q: U -> bool)
    requires forall x :: x in xs ==> p(x) == q(f(x))
    ensures Filter(Map(xs, f), q) == Map(Filter(xs, p), f)
  {
    if xs != [] {
      var n := |xs| - 1;
      FilterMap(xs[..n], f, p, q);
      assert Map(xs, f) == Map(xs[..n], f) + [f(xs[n])];
      FilterSnoc(Map(xs[..n], f), f(xs[n]), q);
    }
  }

  /** The concatenation of what `f` gives for each element: repeated `extend`. */
  function FlatMap<T, U>(xs: seq<T>, f: T -> seq<U>): seq<U>
  {
    if xs == [] then [] else FlatMap(xs[..|xs| - 1], f) + f(xs[|xs| - 1])
  }

  lemma FlatMapSnoc<T(!new), U(!new)>(xs: seq<T>, x: T, f: T -> seq<U>)
    ensures FlatMap(xs + [x], f) == FlatMap(xs, f) + f(x)
  {
    assert (xs + [x])[..|xs|] == xs;
  }

  lemma {:induction false} FilterFlatMap<T(!new), U(!new)>(xs: seq<T>, f: T -> seq<U>, p: U -> bool, g: T -> seq<U>)
    requires forall x :: x in xs ==> g(x) == Filter(f(x), p)
    ensures Filter(FlatMap(xs, f), p) == FlatMap(xs, g)
  {
    if xs != [] {
      var n := |xs| - 1;
      FilterFlatMap(xs[..n], f, p, g);
      FilterConcat(FlatMap(xs[..n], f), f(xs[n]), p);
    }
  }

  lemma {:induction false} MapFlatMap<T(!new), U(!new), V(!new)>(xs: seq<T>, f: T -> seq<U>, h: U -> V, g: T -> seq<V>)
    requires forall x :: x in xs ==> g(x) == Map(f(x), h)
    ensures Map(FlatMap(xs, f), h) == FlatMap(xs, g)
  {
    if xs != [] {
      var n := |xs| - 1;
      MapFlatMap(xs[..n], f, h, g);
      assert Map(FlatMap(xs[..n], f) + f(xs[n]), h) == Map(FlatMap(xs[..n], f), h) + Map(f(xs[n]), h);
    }
  }
}
