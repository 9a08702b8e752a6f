/**
 * Applying multivariate shapelets (`M_SL_apply_all_shapelets`,
 * `M_VL_apply_all_shapelets`). Shapelet i's values are the run of the flat
 * `values` array between the 0-prefixed running totals of
 * `n_channels * lengths`, reshaped into `n_channels[i]` rows; its channels are
 * the run of `channel_ids` between the 0-prefixed running totals of
 * `n_channels`. Its features on a sample are the min, first argmin and match
 * count of the channel-summed distance profile. The two apply functions differ
 * only in the samples they stride: the whole series, or its first `X_len[s]`
 * points.
 */
module ChannelApply {
  import opened ArrayOps
  import opened Commons
  import opened Sampling
  import opened Grouping
  import opened Packing
  import opened ChannelGeneration

  /** The seven arrays returned by the multivariate generators. */
  datatype ChannelShapelets = ChannelShapelets(values: seq<real>, lengths: seq<int>, dilations: seq<int>,
                                               threshold: seq<real>, normalize: seq<bool>, nChannels: seq<int>,
                                               channelIds: seq<int>)

  /** The arrays agree in size, every length is positive, every dilation and channel
      count non-negative, and every channel id names one of nFt channels. */
  predicate Consistent(S: ChannelShapelets, nFt: nat) {
    var m := |S.lengths|;
    |S.dilations| == m && |S.threshold| == m && |S.normalize| == m && |S.nChannels| == m &&
    (forall i :: 0 <= i < m ==> S.lengths[i] >= 1 && S.dilations[i] >= 0 && S.nChannels[i] >= 0) &&
    |S.values| == Sum(BlockSizes(S.lengths, S.nChannels)) && |S.channelIds| == Sum(S.nChannels) &&
    forall k :: 0 <= k < |S.channelIds| ==> 0 <= S.channelIds[k] < nFt
  }

  /** Every shapelet's windows fit a series of n points. */
  predicate FitsSeries(S: ChannelShapelets, n: nat, usePhase: bool) {
    forall i :: 0 <= i < |S.lengths| ==>
      i < |S.dilations| && S.lengths[i] >= 1 && S.dilations[i] >= 0 &&
      WindowsFit(n, S.lengths[i], S.dilations[i], usePhase)
  }

  /** Every block size is non-negative. */
  lemma BlockSizesOfConsistent(S: ChannelShapelets, nFt: nat)
    requires Consistent(S, nFt)
    ensures forall i :: 0 <= i < |S.lengths| ==> BlockSizes(S.lengths, S.nChannels)[i] >= 0
  {
    forall i | 0 <= i < |S.lengths|
      ensures BlockSizes(S.lengths, S.nChannels)[i] >= 0
    {
      NonNegativeProduct(S.nChannels[i], S.lengths[i]);
    }
  }

  /** `channel_ids[a2[i]:a2[i+1]]`: shapelet i's channels. */
  function ShapeletChannels(S: ChannelShapelets, nFt: nat, i: nat): (chans: seq<int>)
    requires Consistent(S, nFt) && i < |S.lengths|
    ensures |chans| == S.nChannels[i] && forall k :: 0 <= k < |chans| ==> 0 <= chans[k] < nFt
  {
    var a2 := PrefixSums(S.nChannels);
    OffsetsWithin(S.nChannels, i);
    SliceWithin(S.channelIds, a2[i], a2[i + 1], 0, nFt);
    S.channelIds[a2[i]..a2[i + 1]]
  }

  /** `values[a1[i]:a1[i+1]].reshape(n_channels[i], lengths[i])`: shapelet i's rows. */
  function ShapeletRows(S: ChannelShapelets, nFt: nat, i: nat): (rows: seq<seq<real>>)
    requires Consistent(S, nFt) && i < |S.lengths|
    ensures |rows| == S.nChannels[i] && forall k :: 0 <= k < |rows| ==> |rows[k]| == S.lengths[i]
  {
    var a1 := PrefixSums(BlockSizes(S.lengths, S.nChannels));
    BlockSizesOfConsistent(S, nFt);
    OffsetsWithin(BlockSizes(S.lengths, S.nChannels), i);
    Reshape(S.values[a1[i]..a1[i + 1]], S.nChannels[i], S.lengths[i])
  }

  /** Shapelet i's features on a sample x of nFt channels of n points: min, first
      argmin and match count of its channel-summed distance profile. */
  function ChannelFeatures(x: seq<seq<real>>, n: nat, nFt: nat, S: ChannelShapelets, i: nat, usePhase: bool,
                           dist: Distance, zn: PointNorm): (real, real, real)
    requires Consistent(S, nFt) && FitsSeries(S, n, usePhase) && i < |S.lengths|
    requires |x| == nFt && Rectangular(x, n)
  {
    ExtractFeatures(MultiProfile(x, n, ShapeletChannels(S, nFt, i), ShapeletRows(S, nFt, i), S.lengths[i],
                                 S.dilations[i], S.normalize[i], usePhase, dist, zn),
                    MultivariateSentinel, S.threshold[i])
  }

  // ------------------------------------------------------------ the strides

  /** `strides[_channels]`: a copy of the stride matrices of the given channels. */
  method SelectChannels(strides: array3<real>, chans: seq<int>) returns (c: array3<real>)
    requires forall k :: 0 <= k < |chans| ==> 0 <= chans[k] < strides.Length0
    ensures fresh(c) && c.Length0 == |chans| && c.Length1 == strides.Length1 && c.Length2 == strides.Length2
    ensures forall k, i :: 0 <= k < |chans| && 0 <= i < strides.Length1 ==> Row3(c, k, i) == Row3(strides, chans[k], i)
  {
    c := new real[|chans|, strides.Length1, strides.Length2];
    for k := 0 to |chans|
      invariant forall k', i, j :: 0 <= k' < k && 0 <= i < c.Length1 && 0 <= j < c.Length2 ==>
        c[k', i, j] == strides[chans[k'], i, j]
    {
      for i := 0 to c.Length1
        invariant forall k', i', j :: 0 <= k' < k && 0 <= i' < c.Length1 && 0 <= j < c.Length2 ==>
          c[k', i', j] == strides[chans[k'], i', j]
        invariant forall i', j :: 0 <= i' < i && 0 <= j < c.Length2 ==> c[k, i', j] == strides[chans[k], i', j]
      {
        for j := 0 to c.Length2
          invariant forall k', i', j' :: 0 <= k' < k && 0 <= i' < c.Length1 && 0 <= j' < c.Length2 ==>
            c[k', i', j'] == strides[chans[k'], i', j']
          invariant forall i', j' :: 0 <= i' < i && 0 <= j' < c.Length2 ==> c[k, i', j'] == strides[chans[k], i', j']
          invariant forall j' :: 0 <= j' < j ==> c[k, i, j'] == strides[chans[k], i, j']
        {
          c[k, i, j] := strides[chans[k], i, j];
        }
      }
    }
  }

  /** z-normalises stride (f, i) in place; every other cell keeps its value. */
  method NormalizeStride(c: array3<real>, f: nat, i: nat, zn: PointNorm)
    requires f < c.Length0 && i < c.Length1
    modifies c
    ensures Row3(c, f, i) == ZNormalize(zn, old(Row3(c, f, i)))
    ensures forall f', i', j :: 0 <= f' < c.Length0 && 0 <= i' < c.Length1 && 0 <= j < c.Length2 && (f', i') != (f, i) ==>
      c[f', i', j] == old(c[f', i', j])
  {
    var z := ZNormalize(zn, Row3(c, f, i));
    for j := 0 to c.Length2
      invariant forall j' :: 0 <= j' < j ==> c[f, i, j'] == z[j']
      invariant forall j' :: j <= j' < c.Length2 ==> c[f, i, j'] == old(c[f, i, j'])
      invariant forall f', i', j' ::
        0 <= f' < c.Length0 && 0 <= i' < c.Length1 && 0 <= j' < c.Length2 && (f', i') != (f, i) ==>
        c[f', i', j'] == old(c[f', i', j'])
    {
      c[f, i, j] := z[j];
    }
  }

  /** The in-place z-normalisation of every stride of every channel. */
  method NormalizeStrides(c: array3<real>, zn: PointNorm)
    modifies c
    ensures forall f, i :: 0 <= f < c.Length0 && 0 <= i < c.Length1 ==> Row3(c, f, i) == ZNormalize(zn, old(Row3(c, f, i)))
  {
    for f := 0 to c.Length0
      invariant forall f', i :: 0 <= f' < f && 0 <= i < c.Length1 ==> Row3(c, f', i) == ZNormalize(zn, old(Row3(c, f', i)))
      invariant forall f', i :: f <= f' < c.Length0 && 0 <= i < c.Length1 ==> Row3(c, f', i) == old(Row3(c, f', i))
    {
      for i := 0 to c.Length1
        invariant forall f', i' :: 0 <= f' < f && 0 <= i' < c.Length1 ==>
          Row3(c, f', i') == ZNormalize(zn, old(Row3(c, f', i')))
        invariant forall f', i' :: f < f' < c.Length0 && 0 <= i' < c.Length1 ==> Row3(c, f', i') == old(Row3(c, f', i'))
        invariant forall i' :: 0 <= i' < i ==> Row3(c, f, i') == ZNormalize(zn, old(Row3(c, f, i')))
        invariant forall i' :: i <= i' < c.Length1 ==> Row3(c, f, i') == old(Row3(c, f, i'))
      {
        NormalizeStride(c, f, i, zn);
      }
    }
  }

  /** Summing channel by channel adds the profiles one after the other. */
  lemma {:induction false} ChannelSumIsSumProfiles(c: array3<real>, x: seq<seq<real>>, n: nat, chans: seq<int>,
                                                   rows: seq<seq<real>>, l: nat, d: nat, norm: bool, usePhase: bool,
                                                   dist: Distance, zn: PointNorm, i: nat, k: nat)
    requires Rectangular(x, n) && WindowsFit(n, l, d, usePhase) && |rows| == |chans| && |chans| == c.Length0
    requires forall k :: 0 <= k < |chans| ==> 0 <= chans[k] < |x|
    requires c.Length1 == NumWindows(n, l, d, usePhase) && i < c.Length1 && k <= |chans|
    requires forall f, t :: 0 <= f < c.Length0 && 0 <= t < c.Length1 ==>
      Row3(c, f, t) == Window(x[chans[f]], t, l, d, norm, usePhase, zn)
    ensures var ps := ChannelProfiles(x, n, chans, rows, l, d, norm, usePhase, dist, zn);
      ChannelSum(c, rows, i, k, dist) == SumProfiles(ps[..k], c.Length1)[i]
  {
    var ps := ChannelProfiles(x, n, chans, rows, l, d, norm, usePhase, dist, zn);
    if k > 0 {
      ChannelSumIsSumProfiles(c, x, n, chans, rows, l, d, norm, usePhase, dist, zn, i, k - 1);
      assert ps[..k][..k - 1] == ps[..k - 1];
      assert ps[..k][k - 1] == ps[k - 1];
    }
  }

  /** Once its rows are the windows of the chosen channels, the strides' summed
      distances are the channel-summed distance profile. */
  lemma SummedIsProfile(c: array3<real>, x: seq<seq<real>>, n: nat, chans: seq<int>, rows: seq<seq<real>>, l: nat,
                        d: nat, norm: bool, usePhase: bool, dist: Distance, zn: PointNorm)
    requires Rectangular(x, n) && WindowsFit(n, l, d, usePhase) && |rows| == |chans| && |chans| == c.Length0
    requires forall k :: 0 <= k < |chans| ==> 0 <= chans[k] < |x|
    requires c.Length1 == NumWindows(n, l, d, usePhase)
    requires forall f, t :: 0 <= f < c.Length0 && 0 <= t < c.Length1 ==>
      Row3(c, f, t) == Window(x[chans[f]], t, l, d, norm, usePhase, zn)
    ensures SummedDistances(c, rows, dist) == MultiProfile(x, n, chans, rows, l, d, norm, usePhase, dist, zn)
  {
    var ps := ChannelProfiles(x, n, chans, rows, l, d, norm, usePhase, dist, zn);
    assert ps[..|chans|] == ps;
    forall i | 0 <= i < c.Length1
      ensures SummedDistances(c, rows, dist)[i] == MultiProfile(x, n, chans, rows, l, d, norm, usePhase, dist, zn)[i]
    {
      ChannelSumIsSumProfiles(c, x, n, chans, rows, l, d, norm, usePhase, dist, zn, i, |chans|);
    }
  }

  // ---------------------------------------------------------------- apply

  /** `channel_ids[a2[i]:a2[i+1]]` and `values[a1[i]:a1[i+1]].reshape(n_channels[i],
      lengths[i])` read at the offsets computed by the apply functions. */
  method ShapeletArrays(S: ChannelShapelets, nFt: nat, a1: seq<int>, a2: seq<int>, i: nat)
    returns (chans: seq<int>, rows: seq<seq<real>>)
    requires Consistent(S, nFt) && i < |S.lengths|
    requires a1 == PrefixSums(BlockSizes(S.lengths, S.nChannels)) && a2 == PrefixSums(S.nChannels)
    ensures chans == ShapeletChannels(S, nFt, i) && rows == ShapeletRows(S, nFt, i)
  {
    BlockSizesOfConsistent(S, nFt);
    OffsetsWithin(S.nChannels, i);
    OffsetsWithin(BlockSizes(S.lengths, S.nChannels), i);
    chans := S.channelIds[a2[i]..a2[i + 1]];
    rows := Reshape(S.values[a1[i]..a1[i + 1]], S.nChannels[i], S.lengths[i]);
  }

  /** Shapelet i, of length l, dilation d and flag `norm`, on the strides of sample x
      (raw or normalised as `norm` says): its features are stored in row s, and no
      other output block changes. */
  method ApplyShapelet(x: seq<seq<real>>, n: nat, s: nat, i: nat, strides: array3<real>, l: nat, d: nat, norm: bool,
                       S: ChannelShapelets, a1: seq<int>, a2: seq<int>, xNew: array2<real>, dist: Distance,
                       zn: PointNorm, usePhase: bool)
    requires Consistent(S, |x|) && FitsSeries(S, n, usePhase) && Rectangular(x, n)
    requires a1 == PrefixSums(BlockSizes(S.lengths, S.nChannels)) && a2 == PrefixSums(S.nChannels)
    requires WindowsFit(n, l, d, usePhase) && strides.Length0 == |x| && strides.Length1 == NumWindows(n, l, d, usePhase)
    requires forall f, t :: 0 <= f < strides.Length0 && 0 <= t < strides.Length1 ==>
      Row3(strides, f, t) == Window(x[f], t, l, d, norm, usePhase, zn)
    requires s < xNew.Length0 && xNew.Length1 == 3 * |S.lengths|
    requires i < |S.lengths| && S.lengths[i] == l && S.dilations[i] == d && S.normalize[i] == norm
    modifies xNew
    ensures Features(xNew, s, i) == ChannelFeatures(x, n, |x|, S, i, usePhase, dist, zn)
    ensures forall r, j :: 0 <= r < xNew.Length0 && 0 <= j < |S.lengths| && (r != s || j != i) ==>
      Features(xNew, r, j) == old(Features(xNew, r, j))
  {
    var chans, rows := ShapeletArrays(S, |x|, a1, a2, i);
    var sub := SelectChannels(strides, chans);
    var mn, argmin, nMatch := ApplyOneShapeletOneSampleMultivariate(sub, rows, S.threshold[i], dist);
    SummedIsProfile(sub, x, n, chans, rows, l, d, norm, usePhase, dist, zn);
    StoreFeatures(xNew, s, i, (mn, argmin, nMatch));
  }

  /** Shapelets `ids` of length l, dilation d and flag `norm`, on the strides of sample
      x: only their features in row s change. */
  method ApplyShapelets(x: seq<seq<real>>, n: nat, s: nat, ids: seq<nat>, strides: array3<real>, l: nat, d: nat,
                        norm: bool, S: ChannelShapelets, a1: seq<int>, a2: seq<int>, xNew: array2<real>,
                        dist: Distance, zn: PointNorm, usePhase: bool)
    requires Consistent(S, |x|) && FitsSeries(S, n, usePhase) && Rectangular(x, n)
    requires a1 == PrefixSums(BlockSizes(S.lengths, S.nChannels)) && a2 == PrefixSums(S.nChannels)
    requires WindowsFit(n, l, d, usePhase) && strides.Length0 == |x| && strides.Length1 == NumWindows(n, l, d, usePhase)
    requires forall f, t :: 0 <= f < strides.Length0 && 0 <= t < strides.Length1 ==>
      Row3(strides, f, t) == Window(x[f], t, l, d, norm, usePhase, zn)
    requires s < xNew.Length0 && xNew.Length1 == 3 * |S.lengths|
    requires forall k :: 0 <= k < |ids| ==>
      ids[k] < |S.lengths| && S.lengths[ids[k]] == l && S.dilations[ids[k]] == d && S.normalize[ids[k]] == norm
    modifies xNew
    ensures forall r, j :: 0 <= r < xNew.Length0 && 0 <= j < |S.lengths| ==>
      Features(xNew, r, j) == if r == s && j in ids
        then ChannelFeatures(x, n, |x|, S, j, usePhase, dist, zn)
        else old(Features(xNew, r, j))
  {
    for k := 0 to |ids|
      invariant forall r, j :: 0 <= r < xNew.Length0 && 0 <= j < |S.lengths| ==>
        Features(xNew, r, j) == if r == s && j in ids[..k]
          then ChannelFeatures(x, n, |x|, S, j, usePhase, dist, zn)
          else old(Features(xNew, r, j))
    {
      ApplyShapelet(x, n, s, ids[k], strides, l, d, norm, S, a1, a2, xNew, dist, zn, usePhase);
      PrefixMembershipStep(ids, k);
    }
    assert ids[..|ids|] == ids;
  }

  /** `_idx_no_norm`: the group's shapelets without z-normalisation, on the raw
      strides. Only their features in row s change. */
  method ApplyRaw(x: seq<seq<real>>, n: nat, s: nat, group: seq<nat>, strides: array3<real>, l: nat, d: nat,
                  S: ChannelShapelets, a1: seq<int>, a2: seq<int>, xNew: array2<real>, dist: Distance, zn: PointNorm,
                  usePhase: bool)
    requires Consistent(S, |x|) && FitsSeries(S, n, usePhase) && Rectangular(x, n) && WindowsFit(n, l, d, usePhase)
    requires a1 == PrefixSums(BlockSizes(S.lengths, S.nChannels)) && a2 == PrefixSums(S.nChannels)
    requires strides.Length0 == |x| && strides.Length1 == NumWindows(n, l, d, usePhase)
    requires forall f, t :: 0 <= f < strides.Length0 && 0 <= t < strides.Length1 ==>
      Row3(strides, f, t) == RawWindow(x[f], t, l, d, usePhase)
    requires s < xNew.Length0 && xNew.Length1 == 3 * |S.lengths|
    requires forall k :: 0 <= k < |group| ==> group[k] < |S.lengths| && S.lengths[group[k]] == l && S.dilations[group[k]] == d
    modifies xNew
    ensures forall r, j :: 0 <= r < xNew.Length0 && 0 <= j < |S.lengths| ==>
      Features(xNew, r, j) == if r == s && j in group && !S.normalize[j]
        then ChannelFeatures(x, n, |x|, S, j, usePhase, dist, zn)
        else old(Features(xNew, r, j))
  {
    var plainMask := seq(|group|, k requires 0 <= k < |group| => !S.normalize[group[k]]);
    var plain := Compact(group, plainMask);
    CompactMembership(group, plainMask);
    ApplyShapelets(x, n, s, plain, strides, l, d, false, S, a1, a2, xNew, dist, zn, usePhase);
  }

  /** `_idx_norm`: when the group has z-normalised shapelets, every stride is
      normalised in place and those shapelets are applied. Only their features in
      row s change. */
  method ApplyNormalized(x: seq<seq<real>>, n: nat, s: nat, group: seq<nat>, strides: array3<real>, l: nat, d: nat,
                         S: ChannelShapelets, a1: seq<int>, a2: seq<int>, xNew: array2<real>, dist: Distance,
                         zn: PointNorm, usePhase: bool)
    requires Consistent(S, |x|) && FitsSeries(S, n, usePhase) && Rectangular(x, n) && WindowsFit(n, l, d, usePhase)
    requires a1 == PrefixSums(BlockSizes(S.lengths, S.nChannels)) && a2 == PrefixSums(S.nChannels)
    requires strides.Length0 == |x| && strides.Length1 == NumWindows(n, l, d, usePhase)
    requires forall f, t :: 0 <= f < strides.Length0 && 0 <= t < strides.Length1 ==>
      Row3(strides, f, t) == RawWindow(x[f], t, l, d, usePhase)
    requires s < xNew.Length0 && xNew.Length1 == 3 * |S.lengths|
    requires forall k :: 0 <= k < |group| ==> group[k] < |S.lengths| && S.lengths[group[k]] == l && S.dilations[group[k]] == d
    modifies strides, xNew
    ensures forall r, j :: 0 <= r < xNew.Length0 && 0 <= j < |S.lengths| ==>
      Features(xNew, r, j) == if r == s && j in group && S.normalize[j]
        then ChannelFeatures(x, n, |x|, S, j, usePhase, dist, zn)
        else old(Features(xNew, r, j))
  {
    var normMask := seq(|group|, k requires 0 <= k < |group| => S.normalize[group[k]]);
    var normed := Compact(group, normMask);
    CompactMembership(group, normMask);
    if |normed| > 0 {
      NormalizeStrides(strides, zn);
      ApplyShapelets(x, n, s, normed, strides, l, d, true, S, a1, a2, xNew, dist, zn, usePhase);
    }
  }

  /** The shapelets of one (length, dilation) group on sample s: the plain ones on the
      raw strides, then the normalised ones. Only their features in row s change. */
  method ApplyGroup(x: seq<seq<real>>, n: nat, s: nat, group: seq<nat>, l: nat, d: nat, S: ChannelShapelets,
                    a1: seq<int>, a2: seq<int>, xNew: array2<real>, dist: Distance, zn: PointNorm, usePhase: bool)
    requires Consistent(S, |x|) && FitsSeries(S, n, usePhase) && Rectangular(x, n) && WindowsFit(n, l, d, usePhase)
    requires a1 == PrefixSums(BlockSizes(S.lengths, S.nChannels)) && a2 == PrefixSums(S.nChannels)
    requires s < xNew.Length0 && xNew.Length1 == 3 * |S.lengths|
    requires forall k :: 0 <= k < |group| ==> group[k] < |S.lengths| && S.lengths[group[k]] == l && S.dilations[group[k]] == d
    modifies xNew
    ensures forall r, j :: 0 <= r < xNew.Length0 && 0 <= j < |S.lengths| ==>
      Features(xNew, r, j) == if r == s && j in group
        then ChannelFeatures(x, n, |x|, S, j, usePhase, dist, zn)
        else old(Features(xNew, r, j))
  {
    var strides := GenerateStrides2D(x, n, l, d, usePhase);
    ApplyRaw(x, n, s, group, strides, l, d, S, a1, a2, xNew, dist, zn, usePhase);
    ApplyNormalized(x, n, s, group, strides, l, d, S, a1, a2, xNew, dist, zn, usePhase);
  }

  /** Group g's pair is some shapelet's, so its windows fit. */
  lemma GroupFitsSeries(S: ChannelShapelets, n: nat, usePhase: bool, g: nat)
    requires FitsSeries(S, n, usePhase) && |S.dilations| == |S.lengths|
    requires g < |FirstOccurrences(Zip(S.lengths, S.dilations))|
    ensures var p := FirstOccurrences(Zip(S.lengths, S.dilations))[g];
      p.0 >= 1 && p.1 >= 0 && WindowsFit(n, p.0, p.1, usePhase)
  {
    var k := PairOfSomeShapelet(S.lengths, S.dilations, g);
  }

  /** Group g for sample s: exactly the shapelets whose pair is the group's pair receive
      their features in row s; every other block keeps its value. */
  method ApplyBucket(x: seq<seq<real>>, n: nat, s: nat, S: ChannelShapelets, a1: seq<int>, a2: seq<int>,
                     params: seq<(int, int)>, idxShp: seq<nat>, nShpParams: seq<int>, g: nat, xNew: array2<real>,
                     dist: Distance, zn: PointNorm, usePhase: bool)
    requires Consistent(S, |x|) && FitsSeries(S, n, usePhase) && Rectangular(x, n)
    requires a1 == PrefixSums(BlockSizes(S.lengths, S.nChannels)) && a2 == PrefixSums(S.nChannels)
    requires params == FirstOccurrences(Zip(S.lengths, S.dilations)) && g < |params|
    requires Bucketed(S.lengths, S.dilations, params, idxShp, nShpParams)
    requires s < xNew.Length0 && xNew.Length1 == 3 * |S.lengths|
    modifies xNew
    ensures forall r, i :: 0 <= r < xNew.Length0 && 0 <= i < |S.lengths| ==>
      Features(xNew, r, i) == if r == s && (S.lengths[i], S.dilations[i]) == params[g]
        then ChannelFeatures(x, n, |x|, S, i, usePhase, dist, zn)
        else old(Features(xNew, r, i))
  {
    var l, d := params[g].0, params[g].1;
    GroupFitsSeries(S, n, usePhase, g);
    assert BucketAt(S.lengths, S.dilations, params, idxShp, nShpParams, g);
    var group := idxShp[nShpParams[g]..nShpParams[g + 1]];
    ApplyGroup(x, n, s, group, l, d, S, a1, a2, xNew, dist, zn, usePhase);
    forall i | 0 <= i < |S.lengths|
      ensures i in group <==> (S.lengths[i], S.dilations[i]) == params[g]
    {
    }
  }

  /** The loop over the (length, dilation) groups for sample s: row s receives every
      shapelet's features, the other rows are untouched. */
  method ApplySample(x: seq<seq<real>>, n: nat, s: nat, S: ChannelShapelets, a1: seq<int>, a2: seq<int>,
                     params: seq<(int, int)>, idxShp: seq<nat>, nShpParams: seq<int>, xNew: array2<real>,
                     dist: Distance, zn: PointNorm, usePhase: bool)
    requires Consistent(S, |x|) && FitsSeries(S, n, usePhase) && Rectangular(x, n)
    requires Prepared(S, a1, a2, params, idxShp, nShpParams)
    requires s < xNew.Length0 && xNew.Length1 == 3 * |S.lengths|
    modifies xNew
    ensures forall r, i :: 0 <= r < xNew.Length0 && 0 <= i < |S.lengths| ==>
      Features(xNew, r, i) == if r == s then ChannelFeatures(x, n, |x|, S, i, usePhase, dist, zn)
        else old(Features(xNew, r, i))
  {
    var m := |S.lengths|;
    PairsCovered(S.lengths, S.dilations);
    for g := 0 to |params|
      invariant forall r, i :: 0 <= r < xNew.Length0 && 0 <= i < m ==>
        Features(xNew, r, i) == if r == s && (S.lengths[i], S.dilations[i]) in params[..g]
          then ChannelFeatures(x, n, |x|, S, i, usePhase, dist, zn)
          else old(Features(xNew, r, i))
    {
      ApplyBucket(x, n, s, S, a1, a2, params, idxShp, nShpParams, g, xNew, dist, zn, usePhase);
      PrefixMembershipStep(params, g);
    }
    assert params[..|params|] == params;
  }

  /** The offsets computed by the apply functions: `concatenate(([0],
      cumsum(n_channels * lengths)))` and `concatenate(([0], cumsum(n_channels)))`. */
  method Offsets(S: ChannelShapelets) returns (a1: seq<int>, a2: seq<int>)
    requires |S.nChannels| == |S.lengths|
    ensures a1 == PrefixSums(BlockSizes(S.lengths, S.nChannels)) && a2 == PrefixSums(S.nChannels)
  {
    a1 := [0] + CumSum(BlockSizes(S.lengths, S.nChannels));
    a2 := [0] + CumSum(S.nChannels);
    ZeroThenCumSum(BlockSizes(S.lengths, S.nChannels));
    ZeroThenCumSum(S.nChannels);
  }

  /** The index arrays both apply functions compute before their loop over the samples:
      the offsets of each shapelet's block and channel ids, the distinct (length,
      dilation) pairs, and the shapelets grouped by pair. */
  predicate Prepared(S: ChannelShapelets, a1: seq<int>, a2: seq<int>, params: seq<(int, int)>, idxShp: seq<nat>,
                     nShpParams: seq<int>)
  {
    |S.nChannels| == |S.lengths| && |S.dilations| == |S.lengths| &&
    a1 == PrefixSums(BlockSizes(S.lengths, S.nChannels)) && a2 == PrefixSums(S.nChannels) &&
    params == FirstOccurrences(Zip(S.lengths, S.dilations)) &&
    Bucketed(S.lengths, S.dilations, params, idxShp, nShpParams)
  }

  /** The setup shared by both apply functions: `_combinations_1d` with the grouping
      of the shapelets by pair, and the two offset arrays. */
  method Prepare(S: ChannelShapelets)
    returns (a1: seq<int>, a2: seq<int>, params: seq<(int, int)>, idxShp: seq<nat>, nShpParams: seq<int>)
    requires |S.nChannels| == |S.lengths| && |S.dilations| == |S.lengths|
    ensures Prepared(S, a1, a2, params, idxShp, nShpParams)
  {
    params, idxShp, nShpParams := GroupShapelets(S.lengths, S.dilations);
    a1, a2 := Offsets(S);
  }

  // -------------------------------------------------------------- read-back

  /** The arrays a generator returns when both buffers hold the kept shapelets' blocks
      in index order, the layout the apply functions read. */
  ghost function IndexOrdered(run: Run, draft: ChannelDraft): (S: ChannelShapelets)
    requires Sized(draft.params, |draft.status|) && |draft.threshold| == |draft.status|
  {
    var keep := KeptMask(draft.status);
    var P := draft.params;
    ChannelShapelets(IndexOrderLayout(ShapeletBlocks(run, P, draft.status), keep), Compact(P.lengths, keep),
                     Compact(P.dilations, keep), Compact(draft.threshold, keep), Compact(P.normalize, keep),
                     Compact(P.nChannels, keep), IndexOrderLayout(ShapeletChannelBlocks(draft.status), keep))
  }

  /** A kept shapelet's value block holds n_channels rows of its length. */
  lemma KeptBlockLength(run: Run, P: Params, status: seq<Status>, thr: seq<real>, i: nat)
    requires Drafted(run, P, status, thr, KeptMask(status)) && i < |status|
    ensures status[i].Kept? ==>
      |ShapeletBlocks(run, P, status)[i]| == P.nChannels[i] * P.lengths[i] &&
      |ShapeletChannelBlocks(status)[i]| == P.nChannels[i]
  {
    assert ShapeletStatus(run, i, status[i], thr[i], KeptMask(status)[i], P.lengths[i], P.dilations[i], P.normalize[i],
                          P.nChannels[i]);
    if status[i].Kept? {
      var a := status[i].anchor;
      FlattenUniformLength(Candidates(run, a, P.lengths[i], P.dilations[i], P.normalize[i]), P.lengths[i]);
    }
  }

  /** The kept blocks' sizes are the block sizes of the kept parameters. */
  lemma KeptLengths(run: Run, P: Params, status: seq<Status>, thr: seq<real>)
    requires Drafted(run, P, status, thr, KeptMask(status))
    ensures var keep := KeptMask(status);
      Lengths(Compact(ShapeletBlocks(run, P, status), keep)) ==
        BlockSizes(Compact(P.lengths, keep), Compact(P.nChannels, keep)) &&
      Lengths(Compact(ShapeletChannelBlocks(status), keep)) == Compact(P.nChannels, keep)
  {
    var keep := KeptMask(status);
    var w := Where(keep);
    forall j | 0 <= j < |w|
      ensures |ShapeletBlocks(run, P, status)[w[j]]| == P.nChannels[w[j]] * P.lengths[w[j]]
      ensures |ShapeletChannelBlocks(status)[w[j]]| == P.nChannels[w[j]]
    {
      KeptBlockLength(run, P, status, thr, w[j]);
    }
  }

  /** Kept shapelets' channels are channels of the input. */
  lemma KeptChannelsBelow(run: Run, P: Params, status: seq<Status>, thr: seq<real>)
    requires Drafted(run, P, status, thr, KeptMask(status))
    ensures var ids := IndexOrderLayout(ShapeletChannelBlocks(status), KeptMask(status));
      forall k :: 0 <= k < |ids| ==> 0 <= ids[k] < run.nFt
  {
    var blocks := Compact(ShapeletChannelBlocks(status), KeptMask(status));
    var w := Where(KeptMask(status));
    forall j, k | 0 <= j < |blocks| && 0 <= k < |blocks[j]|
      ensures 0 <= blocks[j][k] < run.nFt
    {
      var i := w[j];
      assert ShapeletStatus(run, i, status[i], thr[i], KeptMask(status)[i], P.lengths[i], P.dilations[i],
                            P.normalize[i], P.nChannels[i]);
    }
    FlattenWithin(blocks, 0, run.nFt);
  }

  /** The index-ordered arrays are consistent. */
  lemma IndexOrderedConsistent(run: Run, draft: ChannelDraft)
    requires Drafted(run, draft.params, draft.status, draft.threshold, KeptMask(draft.status))
    ensures Consistent(IndexOrdered(run, draft), run.nFt)
  {
    var P, status, keep := draft.params, draft.status, KeptMask(draft.status);
    var S := IndexOrdered(run, draft);
    var w := Where(keep);
    forall j | 0 <= j < |w|
      ensures S.lengths[j] >= 1 && S.dilations[j] >= 0 && S.nChannels[j] >= 0
    {
      var i := w[j];
      assert ShapeletStatus(run, i, status[i], draft.threshold[i], keep[i], P.lengths[i], P.dilations[i],
                            P.normalize[i], P.nChannels[i]);
    }
    KeptLengths(run, P, status, draft.threshold);
    FlattenLength(Compact(ShapeletBlocks(run, P, status), keep));
    FlattenLength(Compact(ShapeletChannelBlocks(status), keep));
    KeptChannelsBelow(run, P, status, draft.threshold);
  }

  /** The channel ids read at the j-th kept shapelet's offsets are its own channels. */
  lemma IndexOrderedChannelsAt(run: Run, draft: ChannelDraft, j: nat)
    requires Drafted(run, draft.params, draft.status, draft.threshold, KeptMask(draft.status))
    requires j < |Where(KeptMask(draft.status))|
    ensures var S := IndexOrdered(run, draft);
      var i := Where(KeptMask(draft.status))[j];
      Consistent(S, run.nFt) && j < |S.lengths| && draft.status[i].Kept? &&
      ShapeletChannels(S, run.nFt, j) == draft.status[i].anchor.channels
  {
    var P, status, keep := draft.params, draft.status, KeptMask(draft.status);
    var i := Where(keep)[j];
    IndexOrderedConsistent(run, draft);
    KeptLengths(run, P, status, draft.threshold);
    IndexOrderLayoutSlices(ShapeletChannelBlocks(status), keep, j);
  }

  /** The values read at the j-th kept shapelet's offsets, reshaped, are the rows it was
      cut from. */
  lemma IndexOrderedRowsAt(run: Run, draft: ChannelDraft, j: nat)
    requires Drafted(run, draft.params, draft.status, draft.threshold, KeptMask(draft.status))
    requires j < |Where(KeptMask(draft.status))|
    ensures var S := IndexOrdered(run, draft);
      var P, i := draft.params, Where(KeptMask(draft.status))[j];
      Consistent(S, run.nFt) && j < |S.lengths| && draft.status[i].Kept? &&
      ShapeletRows(S, run.nFt, j) == Candidates(run, draft.status[i].anchor, P.lengths[i], P.dilations[i], P.normalize[i])
  {
    var P, status, keep := draft.params, draft.status, KeptMask(draft.status);
    var i := Where(keep)[j];
    IndexOrderedConsistent(run, draft);
    assert ShapeletStatus(run, i, status[i], draft.threshold[i], keep[i], P.lengths[i], P.dilations[i], P.normalize[i],
                          P.nChannels[i]);
    KeptLengths(run, P, status, draft.threshold);
    IndexOrderLayoutSlices(ShapeletBlocks(run, P, status), keep, j);
    ReshapeFlatten(Candidates(run, status[i].anchor, P.lengths[i], P.dilations[i], P.normalize[i]), P.lengths[i]);
  }

  /** Reading the index-ordered arrays at the apply functions' offsets gives back the
      j-th kept shapelet's own channels and rows, the windows it was cut from. */
  lemma IndexOrderedReadBack(run: Run, draft: ChannelDraft, j: nat)
    requires Drafted(run, draft.params, draft.status, draft.threshold, KeptMask(draft.status))
    requires j < |Where(KeptMask(draft.status))|
    ensures var S := IndexOrdered(run, draft);
      var P, i := draft.params, Where(KeptMask(draft.status))[j];
      Consistent(S, run.nFt) && j < |S.lengths| && draft.status[i].Kept? &&
      ValidChannelAnchor(run, draft.status[i].anchor, i, P.lengths[i], P.dilations[i], P.nChannels[i]) &&
      ShapeletChannels(S, run.nFt, j) == draft.status[i].anchor.channels &&
      ShapeletRows(S, run.nFt, j) == Candidates(run, draft.status[i].anchor, P.lengths[i], P.dilations[i], P.normalize[i])
  {
    var P, status, keep := draft.params, draft.status, KeptMask(draft.status);
    var i := Where(keep)[j];
    assert ShapeletStatus(run, i, status[i], draft.threshold[i], keep[i], P.lengths[i], P.dilations[i], P.normalize[i],
                          P.nChannels[i]);
    IndexOrderedChannelsAt(run, draft, j);
    IndexOrderedRowsAt(run, draft, j);
  }

  /** When the dilations do not decrease with the index, the processing order is the
      index order and the buffers as written are the index-ordered ones. */
  lemma SortedDilationsReadBack(run: Run, draft: ChannelDraft)
    requires Drafted(run, draft.params, draft.status, draft.threshold, KeptMask(draft.status))
    requires Retained(draft.params, draft.status, draft.retained)
    requires forall i, i' :: 0 <= i < i' < |draft.params.dilations| ==> draft.params.dilations[i] <= draft.params.dilations[i']
    ensures forall j :: 0 <= j < |draft.retained| ==> draft.retained[j] < |draft.status|
    ensures ProcessingOrderLayout(ShapeletBlocks(run, draft.params, draft.status), draft.retained) ==
      IndexOrdered(run, draft).values
    ensures ProcessingOrderLayout(ShapeletChannelBlocks(draft.status), draft.retained) == IndexOrdered(run, draft).channelIds
  {
    var P, status, keep := draft.params, draft.status, KeptMask(draft.status);
    IndexOrderWhenSorted(P.dilations, draft.retained);
    forall i: nat
      ensures i in draft.retained <==> i < |keep| && keep[i]
    {
      if i in draft.retained {
        var j :| 0 <= j < |draft.retained| && draft.retained[j] == i;
      }
    }
    LayoutsAgreeInIndexOrder(ShapeletBlocks(run, P, status), keep, draft.retained);
    LayoutsAgreeInIndexOrder(ShapeletChannelBlocks(status), keep, draft.retained);
  }
}
