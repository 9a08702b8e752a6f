/**
 * Multivariate, same-length shapelets (`M_SL_*`): every sample has n_timestamps
 * points, an anchor may be any cell of the mask slice left of d_shape where the
 * chosen channels reach `n_channels * alpha`, and the anchor is drawn among
 * those cells as in the univariate generator.
 */
module MultivariateSameLength {
  import opened ArrayOps
  import opened Commons
  import opened Sampling
  import opened Grouping
  import opened Packing
  import opened ChannelGeneration
  import opened ChannelSampling
  import opened ChannelTracking
  import opened ChannelDrafting
  import opened ChannelApply
  import U = UnivariateSameLength

  // ------------------------------------------------------------- generation

  /** Every sample has n points: the same-length case. */
  predicate SameLength(run: Run, n: nat) {
    forall s :: 0 <= s < |run.len| ==> run.len[s] == n
  }

  /** The initialiser's lengths and dilations fit every sample, with or without phase. */
  lemma DrawnShapeletsFit(run: Run, P: Params, sizes: seq<int>, n: nat, primeScheme: bool)
    requires SameLength(run, n) && |P.lengths| == |P.dilations|
    requires forall i :: 0 <= i < |P.lengths| ==> ValidShapelet(sizes, P.lengths[i], P.dilations[i], n, primeScheme)
    ensures Suits(FixedLength(n), run, P)
    ensures forall i :: 0 <= i < |P.lengths| ==> FitsEvery(run.len, P.lengths[i], P.dilations[i], run.usePhase)
  {
    forall i | 0 <= i < |P.lengths|
      ensures WindowsFit(n, P.lengths[i], P.dilations[i], run.usePhase)
      ensures NumWindows(n, P.lengths[i], P.dilations[i], run.usePhase) >= 1
    {
      DilationFits(n, P.lengths[i], P.dilations[i]);
    }
  }

  /** `mask_sampling = ones((2, n_groups, n_samples, n_features, n_timestamps))`:
      with every sample n points long, a mask whose cells are all open tracks that
      nothing is cut yet. */
  method InitMask(run: Run, P: Params, uniqueDil: seq<int>, n: nat) returns (mask: array5<bool>)
    requires SameLength(run, n) && Sized(P, |P.lengths|)
    ensures fresh(mask) && mask.Length4 == n
    ensures MaskTracks(mask, run, P, AllPending(|P.lengths|), uniqueDil)
  {
    mask := new bool[2, |uniqueDil|, |run.len|, run.nFt, n]((_, _, _, _, _) => true);
    TracksAtStart(mask, run, P, uniqueDil);
  }

  /** The generation loops over a mask of all-open cells. */
  method DraftChannelShapelets(run: Run, P: Params, n: nat, values: array<real>, channelIds: array<int>,
                               threshold: array<real>, maskReturn: array<bool>)
    returns (ghost status: seq<Status>, ghost retained: seq<nat>, a1: nat, a2: nat)
    requires Generating(run, P, AllPending(|P.lengths|), [], threshold[..], maskReturn[..], values[..],
                        channelIds[..], 0, 0)
    requires Suits(FixedLength(n), run, P) && values != threshold
    modifies values, channelIds, threshold, maskReturn
    ensures Generating(run, P, status, retained, threshold[..], maskReturn[..], values[..], channelIds[..], a1, a2)
    ensures forall i :: 0 <= i < |status| ==> !status[i].Pending?
    ensures DrawnSoFar(FixedLength(n), run, P, status)
  {
    var uniqueDil := UniqueAscending(P.dilations);
    var mask := InitMask(run, P, uniqueDil, n);
    status, retained, a1, a2 := DraftGroups(FixedLength(n), run, P, mask, values, channelIds, threshold, maskReturn,
                                            uniqueDil);
  }

  /** `M_SL_generate_shapelet`: draw the parameters, run the generation loops, then
      keep the first a1 values and a2 channel ids and filter the per-shapelet arrays
      by `mask_return`, in original order. Every shapelet's status is the draw from the
      slice it saw, and with alpha <= 0 every shapelet is kept. */
  method GenerateShapelet(run: Run, n: nat, nShapelets: nat, sizes: seq<int>, pNorm: real, maxChannels: nat,
                          primeScheme: bool)
    returns (values: seq<real>, lengths: seq<int>, dilations: seq<int>, threshold: seq<real>, normalize: seq<bool>,
             nChannels: seq<int>, channelIds: seq<int>, ghost draft: ChannelDraft)
    requires WellFormed(run) && SameLength(run, n)
    requires |sizes| > 0 && forall k :: 0 <= k < |sizes| ==> 2 <= sizes[k] <= n
    requires primeScheme ==> nShapelets > 0
    requires 1 <= maxChannels <= run.nFt
    ensures Sized(draft.params, nShapelets) && |draft.status| == nShapelets && |draft.threshold| == nShapelets
    ensures forall i :: 0 <= i < nShapelets ==>
      ValidShapelet(sizes, draft.params.lengths[i], draft.params.dilations[i], n, primeScheme) &&
      (draft.params.normalize[i] <==> Random(run.rng, NormalizeDraw(i)) < pNorm) &&
      1 <= draft.params.nChannels[i] <= maxChannels
    ensures forall i :: 0 <= i < nShapelets ==> !draft.status[i].Pending?
    ensures var keep := KeptMask(draft.status);
      lengths == Compact(draft.params.lengths, keep) && dilations == Compact(draft.params.dilations, keep) &&
      threshold == Compact(draft.threshold, keep) && normalize == Compact(draft.params.normalize, keep) &&
      nChannels == Compact(draft.params.nChannels, keep)
    ensures forall j :: 0 <= j < |draft.retained| ==> draft.retained[j] < nShapelets
    ensures values == ProcessingOrderLayout(ShapeletBlocks(run, draft.params, draft.status), draft.retained)
    ensures channelIds == ProcessingOrderLayout(ShapeletChannelBlocks(draft.status), draft.retained)
    ensures |values| == Sum(BlockSizes(lengths, nChannels)) && |channelIds| == Sum(nChannels)
    ensures Drafted(run, draft.params, draft.status, draft.threshold, KeptMask(draft.status))
    ensures DrawnSoFar(FixedLength(n), run, draft.params, draft.status)
    ensures run.alpha <= 0.0 && |run.X| > 0 ==> forall i :: 0 <= i < nShapelets ==> draft.status[i].Kept?
    ensures Retained(draft.params, draft.status, draft.retained)
  {
    var vals, lens, dils, thr, nrm, nch, ids := InitMultivariateParams(nShapelets, sizes, n, pNorm, maxChannels,
                                                                       primeScheme, run.rng);
    var P := Params(lens, dils, nrm, nch);
    DrawnShapeletsFit(run, P, sizes, n, primeScheme);
    var maskReturn := new bool[nShapelets](_ => true);
    Started(run, P, thr[..], maskReturn[..], vals[..], ids[..]);
    ghost var status, retained;
    var a1, a2;
    status, retained, a1, a2 := DraftChannelShapelets(run, P, n, vals, ids, thr, maskReturn);
    if run.alpha <= 0.0 && |run.X| > 0 {
      KeptWhenAlphaNonPositive(FixedLength(n), run, P, status);
    }
    Finished(run, P, status, retained, thr[..], maskReturn[..], vals[..], ids[..], a1, a2);
    var keep := maskReturn[..];
    draft := ChannelDraft(P, thr[..], status, retained);
    values, channelIds := vals[..a1], ids[..a2];
    lengths, dilations, threshold := Compact(lens, keep), Compact(dils, keep), Compact(thr[..], keep);
    normalize, nChannels := Compact(nrm, keep), Compact(nch, keep);
  }

  // ------------------------------------------------------------------ apply

  /** `M_SL_apply_all_shapelets`: for every sample and every (length, dilation) group,
      columns 3i..3i+2 of the output receive shapelet i's features on the whole sample. */
  method ApplyAllShapelets(X: seq<seq<seq<real>>>, nFt: nat, n: nat, S: ChannelShapelets, dist: Distance, zn: PointNorm,
                           usePhase: bool)
    returns (xNew: array2<real>)
    requires forall s :: 0 <= s < |X| ==> |X[s]| == nFt && Rectangular(X[s], n)
    requires Consistent(S, nFt) && FitsSeries(S, n, usePhase)
    ensures fresh(xNew) && xNew.Length0 == |X| && xNew.Length1 == 3 * |S.lengths|
    ensures forall s, i :: 0 <= s < |X| && 0 <= i < |S.lengths| ==>
      Features(xNew, s, i) == ChannelFeatures(X[s], n, nFt, S, i, usePhase, dist, zn)
  {
    var a1, a2, params, idxShp, nShpParams := Prepare(S);
    xNew := new real[|X|, 3 * |S.lengths|]((_, _) => 0.0);
    for s := 0 to |X|
      invariant forall s', i :: 0 <= s' < s && 0 <= i < |S.lengths| ==>
        Features(xNew, s', i) == ChannelFeatures(X[s'], n, nFt, S, i, usePhase, dist, zn)
    {
      ApplySample(X[s], n, s, S, a1, a2, params, idxShp, nShpParams, xNew, dist, zn, usePhase);
    }
  }
}
