/** Sums, filters and permutations of finite sequences. */
module Sequences {

  /** The exact sum of `f` over `xs`. */
  function SumBy<T>(f: T -> nat, xs: seq<T>): nat {
    if xs == [] then 0 else SumBy(f, xs[..|xs| - 1]) + f(xs[|xs| - 1])
  }

  function Filter<T>(p: T -> bool, xs: seq<T>): seq<T> {
    if xs == [] then []
    else
      var rest := Filter(p, xs[..|xs| - 1]);
      if p(xs[|xs| - 1]) then rest + [xs[|xs| - 1]] else rest
  }

  predicate Permutation<T(==)>(a: seq<T>, b: seq<T>) {
    multiset(a) == multiset(b)
  }

  predicate Distinct<T(==)>(xs: seq<T>) {
    forall i, j :: 0 <= i < j < |xs| ==> xs[i] != xs[j]
  }

  function Without<T>(xs: seq<T>, k: nat): seq<T>
    requires k < |xs|
  {
    xs[..k] + xs[k + 1..]
  }

  lemma {:induction false} SumConcat<T>(f: T -> nat, a: seq<T>, b: seq<T>)
    ensures SumBy(f, a + b) == SumBy(f, a) + SumBy(f, b)
  {
    if b == [] {
      assert a + b == a;
    } else {
      var n := |b| - 1;
      assert (a + b)[..|a + b| - 1] == a + b[..n];
      SumConcat(f, a, b[..n]);
    }
  }

  lemma SumSnoc<T>(f: T -> nat, xs: seq<T>, x: T)
    ensures SumBy(f, xs + [x]) == SumBy(f, xs) + f(x)
  {
    assert (xs + [x])[..|xs|] == xs;
  }

  lemma SumAround<T>(f: T -> nat, a: seq<T>, x: T, b: seq<T>)
    ensures SumBy(f, a + [x] + b) == SumBy(f, a + b) + f(x)
  {
    SumConcat(f, a + [x], b);
    SumSnoc(f, a, x);
    SumConcat(f, a, b);
  }

  lemma SplitAt<T>(xs: seq<T>, k: nat)
    requires k < |xs|
    ensures xs == xs[..k] + [xs[k]] + xs[k + 1..]
  {
  }

  lemma SumWithout<T>(f: T -> nat, xs: seq<T>, k: nat)
    requires k < |xs|
    ensures SumBy(f, xs) == SumBy(f, Without(xs, k)) + f(xs[k])
  {
    SumAround(f, xs[..k], xs[k], xs[k + 1..]);
    SplitAt(xs, k);
  }

  lemma WithoutMultiset<T>(xs: seq<T>, k: nat)
    requires k < |xs|
    ensures multiset(Without(xs, k)) == multiset(xs) - multiset{xs[k]}
  {
    assert xs == xs[..k] + [xs[k]] + xs[k + 1..];
  }

  /** A sum does not depend on the order of its terms. */
  lemma {:induction false} SumPermutation<T>(f: T -> nat, a: seq<T>, b: seq<T>)
    requires Permutation(a, b)
    ensures SumBy(f, a) == SumBy(f, b)
    decreases |a|
  {
    if a == [] {
      assert |multiset(b)| == 0;
      assert b == [];
    } else {
      var k := Find(a, b);
      SumPermutation(f, a[..|a| - 1], Without(b, k));
      SumWithout(f, b, k);
    }
  }

  lemma {:induction false} SumMonotone<T>(f: T -> nat, g: T -> nat, xs: seq<T>)
    requires forall x <- xs :: f(x) <= g(x)
    ensures SumBy(f, xs) <= SumBy(g, xs)
  {
    if xs != [] {
      SumMonotone(f, g, xs[..|xs| - 1]);
    }
  }

  lemma {:induction false} FilterConcat<T>(p: T -> bool, a: seq<T>, b: seq<T>)
    ensures Filter(p, a + b) == Filter(p, a) + Filter(p, b)
  {
    if b == [] {
      assert a + b == a;
    } else {
      var n := |b| - 1;
      assert (a + b)[..|a + b| - 1] == a + b[..n];
      FilterConcat(p, a, b[..n]);
    }
  }

  lemma FilterWithout<T>(p: T -> bool, xs: seq<T>, k: nat)
    requires k < |xs|
    ensures multiset(Filter(p, xs)) ==
            multiset(Filter(p, Without(xs, k))) + if p(xs[k]) then multiset{xs[k]} else multiset{}
  {
    FilterAround(p, xs[..k], xs[k], xs[k + 1..]);
    SplitAt(xs, k);
  }

  lemma FilterAround<T>(p: T -> bool, a: seq<T>, x: T, b: seq<T>)
    ensures multiset(Filter(p, a + [x] + b)) ==
            multiset(Filter(p, a + b)) + if p(x) then multiset{x} else multiset{}
  {
    FilterConcat(p, a + [x], b);
    FilterSnoc(p, a, x);
    FilterConcat(p, a, b);
    InsertMultiset(Filter(p, a), if p(x) then [x] else [], Filter(p, b));
  }

  lemma FilterSnoc<T>(p: T -> bool, xs: seq<T>, x: T)
    ensures Filter(p, xs + [x]) == Filter(p, xs) + if p(x) then [x] else []
  {
    assert (xs + [x])[..|xs|] == xs;
  }

  lemma InsertMultiset<T>(a: seq<T>, x: seq<T>, b: seq<T>)
    ensures multiset(a + x + b) == multiset(a + b) + multiset(x)
  {
  }

  /** Filtering keeps permutations. */
  lemma {:induction false} FilterPermutation<T>(p: T -> bool, a: seq<T>, b: seq<T>)
    requires Permutation(a, b)
    ensures Permutation(Filter(p, a), Filter(p, b))
    decreases |a|
  {
    if a == [] {
      assert |multiset(b)| == 0;
      assert b == [];
    } else {
      var k := Find(a, b);
      FilterPermutation(p, a[..|a| - 1], Without(b, k));
      FilterWithout(p, b, k);
    }
  }

  /** The last element of `a` sits somewhere in any permutation of it; removing both leaves a permutation. */
  lemma Find<T>(a: seq<T>, b: seq<T>) returns (k: nat)
    requires Permutation(a, b) && a != []
    ensures k < |b| && b[k] == a[|a| - 1]
    ensures Permutation(a[..|a| - 1], Without(b, k))
  {
    var last := |a| - 1;
    assert a[last] in multiset(b);
    k :| 0 <= k < |b| && b[k] == a[last];
    WithoutMultiset(b, k);
    assert a == a[..last] + [a[last]];
  }

  lemma {:induction false} FilterMember<T>(p: T -> bool, xs: seq<T>, x: T)
    ensures x in Filter(p, xs) <==> x in xs && p(x)
  {
    if xs != [] {
      FilterMember(p, xs[..|xs| - 1], x);
    }
  }

  lemma {:induction false} FilterCount<T>(p: T -> bool, xs: seq<T>, x: T)
    ensures multiset(Filter(p, xs))[x] == if p(x) then multiset(xs)[x] else 0
  {
    if xs != [] {
      var n := |xs| - 1;
      FilterCount(p, xs[..n], x);
      assert xs == xs[..n] + [xs[n]];
    }
  }

  lemma {:induction false} FilterDistinct<T>(p: T -> bool, xs: seq<T>)
    requires Distinct(xs)
    ensures Distinct(Filter(p, xs))
  {
    if xs != [] {
      var n := |xs| - 1;
      FilterDistinct(p, xs[..n]);
      FilterMember(p, xs[..n], xs[n]);
    }
  }

  /** Terms that are zero may be left out of a sum. */
  lemma {:induction false} SumFilter<T>(f: T -> nat, p: T -> bool, xs: seq<T>)
    requires forall x <- xs :: !p(x) ==> f(x) == 0
    ensures SumBy(f, Filter(p, xs)) == SumBy(f, xs)
  {
    if xs != [] {
      var n := |xs| - 1;
      SumFilter(f, p, xs[..n]);
      SumSnoc(f, Filter(p, xs[..n]), xs[n]);
    }
  }

  lemma PermutationMember<T>(a: seq<T>, b: seq<T>, x: T)
    requires Permutation(a, b)
    ensures x in a <==> x in b
  {
    assert x in multiset(a) <==> x in multiset(b);
  }

  /** Removing the last element of the one and its equal from the other keeps them alike. */
  lemma WithoutLast<T>(a: seq<T>, b: seq<T>) returns (k: nat)
    requires Distinct(a) && Distinct(b) && a != []
    requires forall x :: x in a <==> x in b
    ensures k < |b| && b[k] == a[|a| - 1] && Distinct(Without(b, k))
    ensures forall x :: x in a[..|a| - 1] <==> x in Without(b, k)
  {
    var n := |a| - 1;
    assert a[n] in b;
    k :| 0 <= k < |b| && b[k] == a[n];
    WithoutDistinct(b, k);
    forall x
      ensures x in a[..n] <==> x in Without(b, k)
    {
      assert x in a <==> x in a[..n] || x == a[n];
    }
  }

  lemma PutBack<T>(a: seq<T>, b: seq<T>, k: nat)
    requires a != [] && k < |b| && b[k] == a[|a| - 1]
    requires Permutation(a[..|a| - 1], Without(b, k))
    ensures Permutation(a, b)
  {
    WithoutMultiset(b, k);
    assert a == a[..|a| - 1] + [a[|a| - 1]];
    assert b[k] in multiset(b);
  }

  /** Duplicate-free sequences with the same elements are permutations of one another. */
  lemma {:induction false} DistinctPermutation<T>(a: seq<T>, b: seq<T>)
    requires Distinct(a) && Distinct(b)
    requires forall x :: x in a <==> x in b
    ensures Permutation(a, b)
    decreases |a|
  {
    if a == [] {
      HasMember(b);
    } else {
      var n := |a| - 1;
      var k := WithoutLast(a, b);
      DistinctPermutation(a[..n], Without(b, k));
      PutBack(a, b, k);
    }
  }

  lemma HasMember<T>(xs: seq<T>)
    ensures xs != [] ==> exists x :: x in xs
  {
    if xs != [] {
      assert xs[0] in xs;
    }
  }

  lemma WithoutDistinct<T>(xs: seq<T>, k: nat)
    requires k < |xs| && Distinct(xs)
    ensures Distinct(Without(xs, k))
    ensures forall x :: x in Without(xs, k) <==> x in xs && x != xs[k]
  {
    var rest := Without(xs, k);
    forall x | x in xs && x != xs[k]
      ensures x in rest
    {
      var i :| 0 <= i < |xs| && xs[i] == x;
      assert rest[if i < k then i else i - 1] == x;
    }
  }
}
