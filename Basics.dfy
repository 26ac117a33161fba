/**
 * Small building blocks shared by the whole model: an Option type, the
 * averaging idioms the services use (`sum(xs) / len(xs) if xs else 0.0`),
 * order-preserving de-duplication and calendar dates with their order.
 */
module Basics {

  datatype Option<+T> = None | Some(value: T)

  /** The outcome of an operation that either returns a value or fails with an error. */
  datatype Result<+T, +E> = Ok(value: T) | Err(error: E)

  /** A score in the closed unit interval (a similarity ratio, a confidence). */
  type Unit = r: real | 0.0 <= r <= 1.0

  predicate InUnit(r: real) {
    0.0 <= r <= 1.0
  }

  predicate AllInUnit(xs: seq<real>) {
    forall i :: 0 <= i < |xs| ==> InUnit(xs[i])
  }

  /** Python's `sum` over a list of floats (exact reals here). */
  function Sum(xs: seq<real>): real {
    if xs == [] then 0.0 else Sum(xs[..|xs| - 1]) + xs[|xs| - 1]
  }

  /** `sum(xs) / len(xs) if xs else 0.0` */
  function Mean(xs: seq<real>): real {
    if xs == [] then 0.0 else Sum(xs) / (|xs| as real)
  }

  /** `sum(bs)` for a list of booleans: the number of `True` entries. */
  function CountTrue(bs: seq<bool>): nat {
    if bs == [] then 0 else CountTrue(bs[..|bs| - 1]) + (if bs[|bs| - 1] then 1 else 0)
  }

  lemma {:induction false} CountTrueBounds(bs: seq<bool>)
    ensures CountTrue(bs) <= |bs|
    ensures CountTrue(bs) == |bs| <==> forall i :: 0 <= i < |bs| ==> bs[i]
  {
    if bs != [] {
      var init := bs[..|bs| - 1];
      CountTrueBounds(init);
      assert forall i :: 0 <= i < |init| ==> init[i] == bs[i];
    }
  }

  /**
   * `sum(checks) / len(checks) if checks else 0.0` for a list of boolean
   * checks: the fraction of checks that passed. It is 1.0 exactly when some
   * check ran and every check passed.
   */
  function TrueFraction(bs: seq<bool>): (r: real)
    ensures InUnit(r)
  {
    CountTrueBounds(bs);
    if bs == [] then 0.0
    else
      DivInUnit(CountTrue(bs) as real, |bs| as real);
      CountTrue(bs) as real / (|bs| as real)
  }

  /** A part over a positive whole lies in [0, 1]. */
  lemma DivInUnit(part: real, whole: real)
    requires 0.0 <= part <= whole && 0.0 < whole
    ensures InUnit(part / whole)
  {
    var q := part / whole;
    assert q * whole == part;
    assert (1.0 - q) * whole == whole - part;
  }

  /** The fraction is 1.0 exactly when some check ran and every check passed. */
  lemma TrueFractionOne(bs: seq<bool>)
    ensures TrueFraction(bs) == 1.0 <==> bs != [] && forall i :: 0 <= i < |bs| ==> bs[i]
  {
    CountTrueBounds(bs);
  }

  lemma {:induction false} SumBounds(xs: seq<real>)
    requires AllInUnit(xs)
    ensures 0.0 <= Sum(xs) <= |xs| as real
  {
    if xs != [] {
      SumBounds(xs[..|xs| - 1]);
    }
  }

  /** The mean of scores in [0, 1] is again in [0, 1]. */
  lemma MeanInUnit(xs: seq<real>)
    requires AllInUnit(xs)
    ensures InUnit(Mean(xs))
  {
    if xs != [] {
      SumBounds(xs);
      DivInUnit(Sum(xs), |xs| as real);
    }
  }

  lemma {:induction false} SumAppend(xs: seq<real>, ys: seq<real>)
    ensures Sum(xs + ys) == Sum(xs) + Sum(ys)
  {
    if ys != [] {
      var init := ys[..|ys| - 1];
      assert (xs + ys)[..|xs + ys| - 1] == xs + init;
      SumAppend(xs, init);
    } else {
      assert xs + ys == xs;
    }
  }

  /**
   * The last element of `xs` sits at some index `k` of its permutation `ys`;
   * the remaining elements on both sides are again permutations of each other.
   */
  lemma PermutationSplit<T>(xs: seq<T>, ys: seq<T>) returns (k: nat, rest: seq<T>)
    requires multiset(xs) == multiset(ys) && xs != []
    ensures k < |ys| && ys[k] == xs[|xs| - 1]
    ensures xs == xs[..|xs| - 1] + [xs[|xs| - 1]]
    ensures ys == ys[..k] + [ys[k]] + ys[k + 1..] && rest == ys[..k] + ys[k + 1..]
    ensures multiset(xs[..|xs| - 1]) == multiset(rest)
  {
    var last := xs[|xs| - 1];
    var init := xs[..|xs| - 1];
    assert xs == init + [last];
    assert last in multiset(ys);
    k :| 0 <= k < |ys| && ys[k] == last;
    rest := ys[..k] + ys[k + 1..];
    assert ys == ys[..k] + [last] + ys[k + 1..];
    assert multiset(ys) == multiset(rest) + multiset{last};
    assert multiset(xs) == multiset(init) + multiset{last};
    calc {
      multiset(init);
      multiset(xs) - multiset{last};
      multiset(ys) - multiset{last};
      multiset(rest);
    }
  }

  /** Summation does not depend on the order of the terms. */
  lemma {:induction false} SumPermutation(xs: seq<real>, ys: seq<real>)
    requires multiset(xs) == multiset(ys)
    ensures Sum(xs) == Sum(ys)
    decreases |xs|
  {
    if xs == [] {
      assert |ys| == |multiset(ys)| == 0;
    } else {
      var last := xs[|xs| - 1];
      var init := xs[..|xs| - 1];
      var k, rest := PermutationSplit(xs, ys);
      SumPermutation(init, rest);
      SumAppend(ys[..k] + [last], ys[k + 1..]);
      SumAppend(ys[..k], [last]);
      SumAppend(ys[..k], ys[k + 1..]);
      assert Sum([last]) == last by {
        assert [last][..0] == [];
      }
    }
  }

  /** The mean of a list does not depend on the order of its entries. */
  lemma MeanPermutation(xs: seq<real>, ys: seq<real>)
    requires multiset(xs) == multiset(ys)
    ensures Mean(xs) == Mean(ys)
  {
    assert |xs| == |multiset(xs)| == |multiset(ys)| == |ys|;
    SumPermutation(xs, ys);
  }

  /** `[f(x) for x in xs]` flattened: the blocks `f(x)` concatenated in the order of `xs`. */
  function FlatMap<T, U>(f: T -> seq<U>, xs: seq<T>): seq<U> {
    if xs == [] then [] else FlatMap(f, xs[..|xs| - 1]) + f(xs[|xs| - 1])
  }

  lemma {:induction false} FlatMapAppend<T, U>(f: T -> seq<U>, xs: seq<T>, ys: seq<T>)
    ensures FlatMap(f, xs + ys) == FlatMap(f, xs) + FlatMap(f, ys)
    decreases |ys|
  {
    if ys != [] {
      var init := ys[..|ys| - 1];
      assert (xs + ys)[..|xs + ys| - 1] == xs + init;
      FlatMapAppend(f, xs, init);
    } else {
      assert xs + ys == xs;
    }
  }

  /** Reordering the inputs reorders the output: the same elements, as often. */
  lemma {:induction false} FlatMapPermutation<T, U>(f: T -> seq<U>, xs: seq<T>, ys: seq<T>)
    requires multiset(xs) == multiset(ys)
    ensures multiset(FlatMap(f, xs)) == multiset(FlatMap(f, ys))
    decreases |xs|
  {
    if xs == [] {
      assert |ys| == |multiset(ys)| == 0;
    } else {
      var last := xs[|xs| - 1];
      var init := xs[..|xs| - 1];
      var k, rest := PermutationSplit(xs, ys);
      FlatMapPermutation(f, init, rest);
      FlatMapAppend(f, ys[..k] + [last], ys[k + 1..]);
      FlatMapAppend(f, ys[..k], [last]);
      FlatMapAppend(f, ys[..k], ys[k + 1..]);
      assert FlatMap(f, [last]) == f(last) by {
        assert [last][..0] == [];
      }
    }
  }

  /** The union of the sets `f(x)` for `x` in `xs`. */
  function UnionOf<T, U>(f: T -> set<U>, xs: seq<T>): set<U> {
    if xs == [] then {} else UnionOf(f, xs[..|xs| - 1]) + f(xs[|xs| - 1])
  }

  lemma {:induction false} UnionOfMeaning<T, U>(f: T -> set<U>, xs: seq<T>, u: U)
    ensures u in UnionOf(f, xs) <==> exists k :: 0 <= k < |xs| && u in f(xs[k])
  {
    if xs != [] {
      var init := xs[..|xs| - 1];
      UnionOfMeaning(f, init, u);
      assert forall k :: 0 <= k < |init| ==> init[k] == xs[k];
    }
  }

  /** The union does not depend on the order of `xs`. */
  lemma UnionOfPermutation<T, U>(f: T -> set<U>, xs: seq<T>, ys: seq<T>)
    requires multiset(xs) == multiset(ys)
    ensures UnionOf(f, xs) == UnionOf(f, ys)
  {
    UnionOfIncluded(f, xs, ys);
    UnionOfIncluded(f, ys, xs);
  }

  lemma UnionOfIncluded<T, U>(f: T -> set<U>, xs: seq<T>, ys: seq<T>)
    requires multiset(xs) == multiset(ys)
    ensures UnionOf(f, xs) <= UnionOf(f, ys)
  {
    forall u | u in UnionOf(f, xs)
      ensures u in UnionOf(f, ys)
    {
      UnionOfMeaning(f, xs, u);
      UnionOfMeaning(f, ys, u);
      var k :| 0 <= k < |xs| && u in f(xs[k]);
      assert xs[k] in multiset(ys);
      var j :| 0 <= j < |ys| && ys[j] == xs[k];
      assert u in f(ys[j]);
    }
  }

  /** `range(n)` */
  function Range(n: nat): (r: seq<nat>)
    ensures |r| == n && forall i :: 0 <= i < n ==> r[i] == i
  {
    seq(n, i requires 0 <= i < n => i)
  }

  predicate NoDuplicates<T(==)>(s: seq<T>) {
    forall i, j :: 0 <= i < j < |s| ==> s[i] != s[j]
  }

  lemma AppendAssociative3<T>(a: seq<T>, b: seq<T>, c: seq<T>)
    ensures a + b + c == a + (b + c)
  {
  }

  lemma AppendAssociative<T>(a: seq<T>, b: seq<T>, c: seq<T>, d: seq<T>)
    ensures a + b + c + d == a + (b + c + d)
  {
  }

  lemma NoDuplicatesAppend<T>(a: seq<T>, b: seq<T>)
    requires NoDuplicates(a) && NoDuplicates(b)
    requires forall x :: x in a ==> x !in b
    ensures NoDuplicates(a + b)
  {
    forall i, j | 0 <= i < j < |a + b|
      ensures (a + b)[i] != (a + b)[j]
    {
      if i < |a| && j >= |a| {
        assert (a + b)[i] in a && (a + b)[j] in b;
      }
    }
  }

  /**
   * The elements of `s` without repetitions, each kept at its first
   * occurrence. Used where the source writes `list(set(xs))`, whose order
   * Python leaves unspecified.
   */
  function Dedup<T(==,!new)>(s: seq<T>): (r: seq<T>)
    ensures NoDuplicates(r)
    ensures forall x :: x in r <==> x in s
    ensures |r| <= |s|
  {
    if s == [] then []
    else
      var d := Dedup(s[..|s| - 1]);
      assert forall x :: x in s <==> x in s[..|s| - 1] || x == s[|s| - 1] by {
        assert s == s[..|s| - 1] + [s[|s| - 1]];
      }
      if s[|s| - 1] in d then d else d + [s[|s| - 1]]
  }

  /** A calendar date (a `datetime` whose time of day is midnight). */
  datatype Date = Date(year: int, month: int, day: int)

  /** `a <= b` on dates: lexicographic on (year, month, day). */
  predicate DateLe(a: Date, b: Date) {
    a.year < b.year
    || (a.year == b.year && a.month < b.month)
    || (a.year == b.year && a.month == b.month && a.day <= b.day)
  }

  /** `a < b` on dates. */
  predicate DateLt(a: Date, b: Date) {
    DateLe(a, b) && a != b
  }

  /** The date order is total and antisymmetric, as `datetime` comparison is. */
  lemma DateOrderTotal(a: Date, b: Date)
    ensures DateLe(a, b) || DateLe(b, a)
    ensures DateLe(a, b) && DateLe(b, a) ==> a == b
    ensures !DateLe(a, b) <==> DateLt(b, a)
  {
  }
}
