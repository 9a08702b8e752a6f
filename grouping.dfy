/**
 * Bucketing of shapelets by their (length, dilation) pair, as done at the
 * start of every `*_apply_all_shapelets`: the distinct pairs in order of
 * first occurrence, an index array listing the shapelets of each pair one
 * bucket after the other, and the bucket offsets as a zero-prefixed
 * running total.
 */
module Grouping {
  import opened ArrayOps
  import opened Commons

  /** `(lengths == l) & (dilations == d)`. */
  function PairMask(lengths: seq<int>, dilations: seq<int>, p: (int, int)): (m: seq<bool>)
    requires |lengths| == |dilations|
    ensures |m| == |lengths|
  {
    seq(|lengths|, k requires 0 <= k < |lengths| => lengths[k] == p.0 && dilations[k] == p.1)
  }

  /** The shapelets having the pair p, ascending. */
  function Members(lengths: seq<int>, dilations: seq<int>, p: (int, int)): (r: seq<nat>)
    requires |lengths| == |dilations|
    ensures StrictlyIncreasing(r)
    ensures forall i: nat :: i in r <==> i < |lengths| && lengths[i] == p.0 && dilations[i] == p.1
  {
    Where(PairMask(lengths, dilations, p))
  }

  /** One bucket per pair of `params`. */
  function Buckets(lengths: seq<int>, dilations: seq<int>, params: seq<(int, int)>): (b: seq<seq<nat>>)
    requires |lengths| == |dilations|
    ensures |b| == |params|
  {
    seq(|params|, g requires 0 <= g < |params| => Members(lengths, dilations, params[g]))
  }

  lemma StrictlyIncreasingDistinct(s: seq<nat>)
    requires StrictlyIncreasing(s)
    ensures Distinct(s)
  {
    forall i, j | 0 <= i < j < |s|
      ensures s[i] != s[j]
    {
      assert s[i] < s[j];
    }
  }

  /** The first g buckets hold, once each, exactly the shapelets whose pair is among
      the first g (distinct) pairs. */
  lemma {:induction false} BucketsPrefix(lengths: seq<int>, dilations: seq<int>, params: seq<(int, int)>, g: nat)
    requires |lengths| == |dilations| && Distinct(params) && g <= |params|
    ensures var f := Flatten(Buckets(lengths, dilations, params)[..g]);
      Distinct(f) && forall x: int :: x in f <==> 0 <= x < |lengths| && (lengths[x], dilations[x]) in params[..g]
  {
    var b := Buckets(lengths, dilations, params);
    if g > 0 {
      BucketsPrefix(lengths, dilations, params, g - 1);
      var f0 := Flatten(b[..g - 1]);
      var m := b[g - 1];
      assert b[..g][..g - 1] == b[..g - 1];
      assert Flatten(b[..g]) == f0 + m;
      assert m == Members(lengths, dilations, params[g - 1]);
      StrictlyIncreasingDistinct(m);
      assert params[..g] == params[..g - 1] + [params[g - 1]];
      forall x | x in f0
        ensures x !in m
      {
        assert (lengths[x], dilations[x]) in params[..g - 1];
        assert params[g - 1] !in params[..g - 1];
      }
      DistinctConcat(f0, m);
    }
  }

  /** `idx_shp` is a permutation of 0..n-1: the buckets of all distinct pairs hold every
      shapelet exactly once. */
  lemma BucketsPartition(lengths: seq<int>, dilations: seq<int>)
    requires |lengths| == |dilations|
    ensures var f := Flatten(Buckets(lengths, dilations, FirstOccurrences(Zip(lengths, dilations))));
      Distinct(f) && |f| == |lengths| && forall x: int :: x in f <==> 0 <= x < |lengths|
  {
    var params := FirstOccurrences(Zip(lengths, dilations));
    var b := Buckets(lengths, dilations, params);
    BucketsPrefix(lengths, dilations, params, |params|);
    assert b[..|params|] == b;
    assert params[..|params|] == params;
    var f := Flatten(b);
    forall x | 0 <= x < |lengths|
      ensures (lengths[x], dilations[x]) in params
    {
      assert Zip(lengths, dilations)[x] == (lengths[x], dilations[x]);
    }
    PermutationLength(f, |lengths|);
  }

  /** Bucket g of the index array sits between offsets g and g+1. */
  lemma BucketSlice(lengths: seq<int>, dilations: seq<int>, params: seq<(int, int)>, g: nat)
    requires |lengths| == |dilations| && g < |params|
    ensures var b := Buckets(lengths, dilations, params); var p := PrefixSums(Lengths(b));
      0 <= p[g] <= p[g + 1] <= |Flatten(b)| && Flatten(b)[p[g]..p[g + 1]] == Members(lengths, dilations, params[g])
  {
    FlattenSlice(Buckets(lengths, dilations, params), g);
  }

  lemma BucketStep(lengths: seq<int>, dilations: seq<int>, params: seq<(int, int)>, i: nat)
    requires |lengths| == |dilations| && i < |params|
    ensures var b := Buckets(lengths, dilations, params);
      Flatten(b[..i + 1]) == Flatten(b[..i]) + Where(PairMask(lengths, dilations, params[i])) &&
      |Flatten(b[..i + 1])| <= |Flatten(b)|
  {
    var b := Buckets(lengths, dilations, params);
    FlattenPrefixStep(b, i);
    FlattenPrefixShorter(b, i + 1);
  }

  /** One pass of the bucketing loop: the bucket of pair i is written right after the
      buckets before it. */
  lemma GroupStep(lengths: seq<int>, dilations: seq<int>, params: seq<(int, int)>, i: nat, idxShp: seq<nat>, a: nat)
    requires |lengths| == |dilations| && i < |params|
    requires |idxShp| == |Flatten(Buckets(lengths, dilations, params))|
    requires a == |Flatten(Buckets(lengths, dilations, params)[..i])| <= |idxShp| && idxShp[..a] == Flatten(Buckets(lengths, dilations, params)[..i])
    ensures var b := Buckets(lengths, dilations, params); var ix := Where(PairMask(lengths, dilations, params[i]));
      ix == b[i] && a + |ix| == |Flatten(b[..i + 1])| <= |idxShp| &&
      |idxShp[..a] + ix + idxShp[a + |ix|..]| == |idxShp| &&
      (idxShp[..a] + ix + idxShp[a + |ix|..])[..a + |ix|] == Flatten(b[..i + 1])
  {
    var ix := Where(PairMask(lengths, dilations, params[i]));
    BucketStep(lengths, dilations, params, i);
    Splice(idxShp, a, ix, Flatten(Buckets(lengths, dilations, params)[..i]));
  }

  /** The bucketing step shared by the three `*_apply_all_shapelets`. */
  method GroupShapelets(lengths: seq<int>, dilations: seq<int>)
    returns (params: seq<(int, int)>, idxShp: seq<nat>, nShpParams: seq<int>)
    requires |lengths| == |dilations|
    ensures params == FirstOccurrences(Zip(lengths, dilations))
    ensures idxShp == Flatten(Buckets(lengths, dilations, params))
    ensures nShpParams == PrefixSums(Lengths(Buckets(lengths, dilations, params)))
    ensures Bucketed(lengths, dilations, params, idxShp, nShpParams)
  {
    params := Combinations1D(lengths, dilations);
    BucketsPartition(lengths, dilations);
    var counts;
    idxShp, counts := FillBuckets(lengths, dilations, params);
    nShpParams := CumSum(counts);
    CumSumZeroPrefixed(Lengths(Buckets(lengths, dilations, params)));
    FlattenedBuckets(lengths, dilations, params);
  }

  /** The loop over the pairs: `idx_shp` gets the buckets one after the other in an
      array of n entries, and `n_shp_params[i+1]` the size of bucket i. */
  method FillBuckets(lengths: seq<int>, dilations: seq<int>, params: seq<(int, int)>)
    returns (idxShp: seq<nat>, counts: seq<int>)
    requires |lengths| == |dilations| && |Flatten(Buckets(lengths, dilations, params))| == |lengths|
    ensures idxShp == Flatten(Buckets(lengths, dilations, params))
    ensures counts == [0] + Lengths(Buckets(lengths, dilations, params))
  {
    var n := |lengths|;
    ghost var b := Buckets(lengths, dilations, params);
    counts := seq(|params| + 1, _ => 0);
    idxShp := seq(n, _ => 0);
    var a := 0;
    assert Flatten(b[..0]) == [];
    assert idxShp[..0] == [];
    for i := 0 to |params|
      invariant |idxShp| == n && |counts| == |params| + 1 && counts[0] == 0
      invariant a == |Flatten(b[..i])| <= n && idxShp[..a] == Flatten(b[..i])
      invariant forall g :: 0 <= g < i ==> counts[g + 1] == |b[g]|
    {
      var ixShapelets := Where(PairMask(lengths, dilations, params[i]));
      GroupStep(lengths, dilations, params, i, idxShp, a);
      var c := a + |ixShapelets|;
      idxShp := idxShp[..a] + ixShapelets + idxShp[c..];
      counts := counts[i + 1 := |ixShapelets|];
      a := c;
    }
    BucketsFilled(b, idxShp, a, counts);
  }

  /** Once every bucket is written, the index array and the counts are complete. */
  lemma BucketsFilled(b: seq<seq<nat>>, idxShp: seq<nat>, a: nat, counts: seq<int>)
    requires |idxShp| == |Flatten(b)| && a == |Flatten(b[..|b|])| <= |idxShp| && idxShp[..a] == Flatten(b[..|b|])
    requires |counts| == |b| + 1 && counts[0] == 0 && forall g :: 0 <= g < |b| ==> counts[g + 1] == |b[g]|
    ensures idxShp == Flatten(b) && counts == [0] + Lengths(b)
  {
    assert b[..|b|] == b;
    assert idxShp[..a] == idxShp;
    assert counts == [0] + Lengths(b);
  }

  /** Bucket g of the index array sits between offsets g and g+1 and lists the
      shapelets of pair g, ascending. */
  predicate BucketAt(lengths: seq<int>, dilations: seq<int>, params: seq<(int, int)>, idxShp: seq<nat>, nShpParams: seq<int>,
                     g: nat)
    requires |lengths| == |dilations| && g < |params| && |nShpParams| == |params| + 1
  {
    0 <= nShpParams[g] <= nShpParams[g + 1] <= |idxShp| &&
    idxShp[nShpParams[g]..nShpParams[g + 1]] == Members(lengths, dilations, params[g])
  }

  /** Every bucket is in place. */
  predicate Bucketed(lengths: seq<int>, dilations: seq<int>, params: seq<(int, int)>, idxShp: seq<nat>, nShpParams: seq<int>)
    requires |lengths| == |dilations|
  {
    |nShpParams| == |params| + 1 &&
    forall g: nat :: g < |params| ==> BucketAt(lengths, dilations, params, idxShp, nShpParams, g)
  }

  /** The flattened buckets and their offsets are bucketed. */
  lemma FlattenedBuckets(lengths: seq<int>, dilations: seq<int>, params: seq<(int, int)>)
    requires |lengths| == |dilations|
    ensures var b := Buckets(lengths, dilations, params);
      Bucketed(lengths, dilations, params, Flatten(b), PrefixSums(Lengths(b)))
  {
    var b := Buckets(lengths, dilations, params);
    var p := PrefixSums(Lengths(b));
    forall g: nat | g < |params|
      ensures BucketAt(lengths, dilations, params, Flatten(b), p, g)
    {
      BucketSlice(lengths, dilations, params, g);
    }
  }

  /** Every shapelet's pair is one of the groups. */
  lemma PairsCovered(lengths: seq<int>, dilations: seq<int>)
    requires |lengths| == |dilations|
    ensures forall i :: 0 <= i < |lengths| ==> (lengths[i], dilations[i]) in FirstOccurrences(Zip(lengths, dilations))
  {
    forall i | 0 <= i < |lengths|
      ensures (lengths[i], dilations[i]) in FirstOccurrences(Zip(lengths, dilations))
    {
      assert Zip(lengths, dilations)[i] == (lengths[i], dilations[i]);
    }
  }

  /** Every group's pair is some shapelet's pair. */
  lemma PairOfSomeShapelet(lengths: seq<int>, dilations: seq<int>, g: nat) returns (k: nat)
    requires |lengths| == |dilations| && g < |FirstOccurrences(Zip(lengths, dilations))|
    ensures k < |lengths| && FirstOccurrences(Zip(lengths, dilations))[g] == (lengths[k], dilations[k])
  {
    var z := Zip(lengths, dilations);
    var p := FirstOccurrences(z)[g];
    assert p in z;
    var j :| 0 <= j < |z| && z[j] == p;
    k := j;
  }

  /** Output columns 3i, 3i+1, 3i+2 of sample s: shapelet i's three features. */
  function Features(xNew: array2<real>, s: nat, i: nat): (real, real, real)
    requires s < xNew.Length0 && 3 * i + 2 < xNew.Length1
    reads xNew
  {
    (xNew[s, 3 * i], xNew[s, 3 * i + 1], xNew[s, 3 * i + 2])
  }

  /** `X_new[s, 3i:3i+3] = f`; every other cell keeps its value. */
  method StoreFeatures(xNew: array2<real>, s: nat, i: nat, f: (real, real, real))
    requires s < xNew.Length0 && 3 * i + 2 < xNew.Length1
    modifies xNew
    ensures Features(xNew, s, i) == f
    ensures forall r, c :: 0 <= r < xNew.Length0 && 0 <= c < xNew.Length1 && !(r == s && 3 * i <= c < 3 * i + 3) ==>
      xNew[r, c] == old(xNew[r, c])
    ensures forall r, j :: 0 <= r < xNew.Length0 && 0 <= j && 3 * j + 2 < xNew.Length1 && (r != s || j != i) ==>
      Features(xNew, r, j) == old(Features(xNew, r, j))
  {
    xNew[s, 3 * i] := f.0;
    xNew[s, 3 * i + 1] := f.1;
    xNew[s, 3 * i + 2] := f.2;
  }
}
