/**
 * The collective reductions of a distributed vector. Every rank holds its
 * interior (its partition of the global vector); a reduction computes a
 * local partial over the interior and then all-reduces the partials by
 * summing them, so that every rank returns the same global value.
 *
 * The world is the sequence of all ranks' interiors, indexed by rank.
 * Values are reals: the model does not capture floating-point rounding.
 */
module Collective {

  function Sum(s: seq<real>): real {
    if s == [] then 0.0 else s[0] + Sum(s[1..])
  }

  /** The local kernel of `Dot`: the dot product of two interiors. */
  function LocalDot(x: seq<real>, y: seq<real>): real
    requires |x| == |y|
  {
    if x == [] then 0.0 else x[0] * y[0] + LocalDot(x[1..], y[1..])
  }

  function Abs(v: real): real {
    if v < 0.0 then -v else v
  }

  /** The local kernel of `Asum`: the sum of absolute values of an interior. */
  function LocalAsum(x: seq<real>): (r: real)
    ensures 0.0 <= r
  {
    if x == [] then 0.0 else Abs(x[0]) + LocalAsum(x[1..])
  }

  /** The global vector: the ranks' interiors concatenated in rank order. */
  function Flatten(world: seq<seq<real>>): (v: seq<real>) {
    if world == [] then [] else world[0] + Flatten(world[1..])
  }

  /** Two worlds whose ranks hold interiors of equal lengths. */
  predicate SameShape(xs: seq<seq<real>>, ys: seq<seq<real>>) {
    |xs| == |ys| && forall r :: 0 <= r < |xs| ==> |xs[r]| == |ys[r]|
  }

  /**
   * `communication_sync_allreduce_single_sum` as seen by rank `rank`: with
   * multinode support every rank receives the sum of all partials; without
   * it the local partial is returned as it is.
   */
  function AllReduceSum(partials: seq<real>, rank: nat, multinode: bool): real
    requires rank < |partials|
  {
    if multinode then Sum(partials) else partials[rank]
  }

  function DotPartials(xs: seq<seq<real>>, ys: seq<seq<real>>): (p: seq<real>)
    requires SameShape(xs, ys)
    ensures |p| == |xs|
  {
    seq(|xs|, r requires 0 <= r < |xs| => LocalDot(xs[r], ys[r]))
  }

  function ReducePartials(xs: seq<seq<real>>): (p: seq<real>)
    ensures |p| == |xs|
  {
    seq(|xs|, r requires 0 <= r < |xs| => Sum(xs[r]))
  }

  function AsumPartials(xs: seq<seq<real>>): (p: seq<real>)
    ensures |p| == |xs|
  {
    seq(|xs|, r requires 0 <= r < |xs| => LocalAsum(xs[r]))
  }

  /** `GlobalVector::Dot` on rank `rank`: the local dot product, then the all-reduce. */
  function Dot(xs: seq<seq<real>>, ys: seq<seq<real>>, rank: nat, multinode: bool): real
    requires SameShape(xs, ys) && rank < |xs|
  {
    AllReduceSum(DotPartials(xs, ys), rank, multinode)
  }

  /** `GlobalVector::Reduce` on rank `rank`: the local sum, then the all-reduce. */
  function Reduce(xs: seq<seq<real>>, rank: nat, multinode: bool): real
    requires rank < |xs|
  {
    AllReduceSum(ReducePartials(xs), rank, multinode)
  }

  /** `GlobalVector::Asum` on rank `rank`: the local absolute sum, then the all-reduce. */
  function Asum(xs: seq<seq<real>>, rank: nat, multinode: bool): (r: real)
    requires rank < |xs|
    ensures 0.0 <= r
  {
    AsumPartialsNonNegative(xs);
    AllReduceSum(AsumPartials(xs), rank, multinode)
  }

  /** `sqrt` of the C library, as a contract on a function parameter. */
  ghost predicate IsSquareRoot(sqrt: real -> real) {
    forall d :: 0.0 <= d ==> 0.0 <= sqrt(d) && sqrt(d) * sqrt(d) == d
  }

  /** `GlobalVector::Norm`: the square root of the vector's global dot product with itself. */
  function Norm(xs: seq<seq<real>>, rank: nat, multinode: bool, sqrt: real -> real): (r: real)
    requires rank < |xs|
    requires IsSquareRoot(sqrt)
    ensures 0.0 <= r
    ensures r * r == Dot(xs, xs, rank, multinode)
  {
    DotSelfNonNegative(xs, rank, multinode);
    sqrt(Dot(xs, xs, rank, multinode))
  }

  lemma {:induction false} SumConcat(a: seq<real>, b: seq<real>)
    ensures Sum(a + b) == Sum(a) + Sum(b)
  {
    if a == [] {
      assert a + b == b;
    } else {
      assert (a + b)[0] == a[0];
      assert (a + b)[1..] == a[1..] + b;
      SumConcat(a[1..], b);
    }
  }

  lemma {:induction false} SumNonNegative(s: seq<real>)
    requires forall i :: 0 <= i < |s| ==> 0.0 <= s[i]
    ensures 0.0 <= Sum(s)
  {
    if s != [] {
      SumNonNegative(s[1..]);
    }
  }

  lemma {:induction false} LocalDotConcat(a: seq<real>, b: seq<real>, c: seq<real>, d: seq<real>)
    requires |a| == |c| && |b| == |d|
    ensures LocalDot(a + b, c + d) == LocalDot(a, c) + LocalDot(b, d)
  {
    if a == [] {
      assert a + b == b && c + d == d;
    } else {
      assert (a + b)[1..] == a[1..] + b && (c + d)[1..] == c[1..] + d;
      LocalDotConcat(a[1..], b, c[1..], d);
    }
  }

  lemma {:induction false} LocalDotSelfNonNegative(x: seq<real>)
    ensures 0.0 <= LocalDot(x, x)
  {
    if x != [] {
      assert 0.0 <= x[0] * x[0];
      LocalDotSelfNonNegative(x[1..]);
    }
  }

  lemma {:induction false} LocalAsumConcat(a: seq<real>, b: seq<real>)
    ensures LocalAsum(a + b) == LocalAsum(a) + LocalAsum(b)
  {
    if a == [] {
      assert a + b == b;
    } else {
      assert (a + b)[1..] == a[1..] + b;
      LocalAsumConcat(a[1..], b);
    }
  }

  lemma AsumPartialsNonNegative(xs: seq<seq<real>>)
    ensures 0.0 <= Sum(AsumPartials(xs))
  {
    SumNonNegative(AsumPartials(xs));
  }

  lemma {:induction false} FlattenShape(xs: seq<seq<real>>, ys: seq<seq<real>>)
    requires SameShape(xs, ys)
    ensures |Flatten(xs)| == |Flatten(ys)|
  {
    if xs != [] {
      FlattenShape(xs[1..], ys[1..]);
    }
  }

  lemma {:induction false} SumOfDotPartials(xs: seq<seq<real>>, ys: seq<seq<real>>)
    requires SameShape(xs, ys)
    ensures |Flatten(xs)| == |Flatten(ys)|
    ensures Sum(DotPartials(xs, ys)) == LocalDot(Flatten(xs), Flatten(ys))
  {
    FlattenShape(xs, ys);
    if xs != [] {
      SumOfDotPartials(xs[1..], ys[1..]);
      assert DotPartials(xs, ys)[1..] == DotPartials(xs[1..], ys[1..]);
      LocalDotConcat(xs[0], Flatten(xs[1..]), ys[0], Flatten(ys[1..]));
    }
  }

  lemma {:induction false} SumOfReducePartials(xs: seq<seq<real>>)
    ensures Sum(ReducePartials(xs)) == Sum(Flatten(xs))
  {
    if xs != [] {
      SumOfReducePartials(xs[1..]);
      assert ReducePartials(xs)[1..] == ReducePartials(xs[1..]);
      SumConcat(xs[0], Flatten(xs[1..]));
    }
  }

  lemma {:induction false} SumOfAsumPartials(xs: seq<seq<real>>)
    ensures Sum(AsumPartials(xs)) == LocalAsum(Flatten(xs))
  {
    if xs != [] {
      SumOfAsumPartials(xs[1..]);
      assert AsumPartials(xs)[1..] == AsumPartials(xs[1..]);
      LocalAsumConcat(xs[0], Flatten(xs[1..]));
    }
  }

  /**
   * With multinode support, every rank's `Dot` is the dot product of the
   * whole global vectors (so it is the same on every rank); without it, the
   * rank's local dot product.
   */
  lemma DotIsGlobal(xs: seq<seq<real>>, ys: seq<seq<real>>, rank: nat, multinode: bool)
    requires SameShape(xs, ys) && rank < |xs|
    ensures |Flatten(xs)| == |Flatten(ys)|
    ensures multinode ==> Dot(xs, ys, rank, multinode) == LocalDot(Flatten(xs), Flatten(ys))
    ensures !multinode ==> Dot(xs, ys, rank, multinode) == LocalDot(xs[rank], ys[rank])
  {
    SumOfDotPartials(xs, ys);
  }

  /** `Reduce` on every rank is the sum of the whole global vector (multinode), else the local sum. */
  lemma ReduceIsGlobal(xs: seq<seq<real>>, rank: nat, multinode: bool)
    requires rank < |xs|
    ensures multinode ==> Reduce(xs, rank, multinode) == Sum(Flatten(xs))
    ensures !multinode ==> Reduce(xs, rank, multinode) == Sum(xs[rank])
  {
    SumOfReducePartials(xs);
  }

  /** `Asum` on every rank is the absolute sum of the whole global vector (multinode), else the local one. */
  lemma AsumIsGlobal(xs: seq<seq<real>>, rank: nat, multinode: bool)
    requires rank < |xs|
    ensures multinode ==> Asum(xs, rank, multinode) == LocalAsum(Flatten(xs))
    ensures !multinode ==> Asum(xs, rank, multinode) == LocalAsum(xs[rank])
  {
    SumOfAsumPartials(xs);
  }

  /** A vector's dot product with itself is never negative, so `Norm` is defined. */
  lemma DotSelfNonNegative(xs: seq<seq<real>>, rank: nat, multinode: bool)
    requires rank < |xs|
    ensures 0.0 <= Dot(xs, xs, rank, multinode)
  {
    if multinode {
      DotIsGlobal(xs, xs, rank, multinode);
      LocalDotSelfNonNegative(Flatten(xs));
    } else {
      LocalDotSelfNonNegative(xs[rank]);
    }
  }

  /**
   * The global reductions do not depend on how the global vector is split
   * across ranks, nor on the rank that asks.
   */
  lemma ReductionsIgnorePartitioning(xs: seq<seq<real>>, ys: seq<seq<real>>, rank: nat,
                                     xs': seq<seq<real>>, ys': seq<seq<real>>, rank': nat)
    requires SameShape(xs, ys) && rank < |xs|
    requires SameShape(xs', ys') && rank' < |xs'|
    requires Flatten(xs) == Flatten(xs') && Flatten(ys) == Flatten(ys')
    ensures Dot(xs, ys, rank, true) == Dot(xs', ys', rank', true)
    ensures Reduce(xs, rank, true) == Reduce(xs', rank', true)
    ensures Asum(xs, rank, true) == Asum(xs', rank', true)
  {
    DotIsGlobal(xs, ys, rank, true);
    DotIsGlobal(xs', ys', rank', true);
    ReduceIsGlobal(xs, rank, true);
    ReduceIsGlobal(xs', rank', true);
    AsumIsGlobal(xs, rank, true);
    AsumIsGlobal(xs', rank', true);
  }
}
