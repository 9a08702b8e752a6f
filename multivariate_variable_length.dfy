/**
 * Multivariate, variable-length shapelets (`M_VL_*`): sample s has `X_len[s]`
 * points. Lengths and dilations are drawn against the shortest length `min_len`,
 * so every shapelet fits every sample. The mask is as wide as the longest sample,
 * and its cells past a sample's length start false and stay false. A sample is
 * eligible when some position below its own bound reaches `n_channels * alpha`.
 * The anchor sample is drawn among the eligible samples, each counted once, and
 * the position among that sample's eligible positions. Clearing wraps modulo the
 * anchor sample's length.
 */
module MultivariateVariableLength {
  import opened ArrayOps
  import opened Commons
  import opened Sampling
  import opened Grouping
  import opened Packing
  import opened ChannelGeneration
  import opened ChannelSampling
  import opened ChannelTracking
  import opened ChannelDrafting
  import opened ChannelApply
  import U = UnivariateSameLength

  // ------------------------------------------------------------------ mask

  /** `mask_sampling[:, :, s, :, X_len[s]:] = 0` for every sample s. */
  method ClearBeyondLengths(mask: array5<bool>, len: seq<nat>)
    requires mask.Length2 == |len|
    modifies mask
    ensures forall a, b, c, f, t :: 0 <= a < mask.Length0 && 0 <= b < mask.Length1 && 0 <= c < mask.Length2 &&
                                    0 <= f < mask.Length3 && 0 <= t < mask.Length4 ==>
      mask[a, b, c, f, t] == (old(mask[a, b, c, f, t]) && t < len[c])
  {
    for s := 0 to |len|
      invariant forall a, b, c, f, t :: 0 <= a < mask.Length0 && 0 <= b < mask.Length1 && 0 <= c < mask.Length2 &&
                                        0 <= f < mask.Length3 && 0 <= t < mask.Length4 ==>
        mask[a, b, c, f, t] == (old(mask[a, b, c, f, t]) && (s <= c || t < len[c]))
    {
      forall a, b, f, t | 0 <= a < mask.Length0 && 0 <= b < mask.Length1 && 0 <= f < mask.Length3 &&
                          len[s] <= t < mask.Length4
      {
        mask[a, b, s, f, t] := false;
      }
    }
  }

  /** `mask_sampling = ones((2, n_groups, n_samples, n_features, max(X_len)))`, then
      the cells past each sample's length cleared: a cell is true exactly when it lies
      within its sample. */
  method InitMask(nGroups: nat, nFt: nat, len: seq<nat>) returns (mask: array5<bool>)
    requires |len| > 0
    ensures fresh(mask)
    ensures mask.Length0 == 2 && mask.Length1 == nGroups && mask.Length2 == |len| && mask.Length3 == nFt
    ensures mask.Length4 == MaxOf(len) && forall s :: 0 <= s < |len| ==> len[s] <= mask.Length4
    ensures forall a, b, c, f, t :: 0 <= a < mask.Length0 && 0 <= b < mask.Length1 && 0 <= c < mask.Length2 &&
                                    0 <= f < mask.Length3 && 0 <= t < mask.Length4 ==>
      (mask[a, b, c, f, t] <==> t < len[c])
  {
    var maxLen := MaxOf(len);
    mask := new bool[2, nGroups, |len|, nFt, maxLen]((_, _, _, _, _) => true);
    ClearBeyondLengths(mask, len);
  }

  // ------------------------------------------------------------- generation

  /** Lengths and dilations drawn against `min_len` fit every sample, with or without
      phase. */
  lemma DrawnShapeletsFit(run: Run, P: Params, sizes: seq<int>, minLen: nat, primeScheme: bool)
    requires |P.lengths| == |P.dilations| && forall s :: 0 <= s < |run.len| ==> minLen <= run.len[s]
    requires forall i :: 0 <= i < |P.lengths| ==> ValidShapelet(sizes, P.lengths[i], P.dilations[i], minLen, primeScheme)
    ensures forall i :: 0 <= i < |P.lengths| ==> FitsEvery(run.len, P.lengths[i], P.dilations[i], run.usePhase)
  {
    forall i | 0 <= i < |P.lengths|
      ensures FitsEvery(run.len, P.lengths[i], P.dilations[i], run.usePhase)
    {
      var l, d := P.lengths[i], P.dilations[i];
      DilationFits(minLen, l, d);
      forall s | 0 <= s < |run.len|
        ensures WindowsFit(run.len[s], l, d, run.usePhase) && NumWindows(run.len[s], l, d, run.usePhase) >= 1
      {
        assert minLen <= run.len[s];
      }
    }
  }

  /** The generation loops over a mask as wide as the longest sample, whose cells past
      each sample's length are cleared first. */
  method DraftChannelShapelets(run: Run, P: Params, values: array<real>, channelIds: array<int>,
                               threshold: array<real>, maskReturn: array<bool>)
    returns (ghost status: seq<Status>, ghost retained: seq<nat>, a1: nat, a2: nat)
    requires Generating(run, P, AllPending(|P.lengths|), [], threshold[..], maskReturn[..], values[..],
                        channelIds[..], 0, 0)
    requires |run.len| > 0 && values != threshold
    modifies values, channelIds, threshold, maskReturn
    ensures Generating(run, P, status, retained, threshold[..], maskReturn[..], values[..], channelIds[..], a1, a2)
    ensures forall i :: 0 <= i < |status| ==> !status[i].Pending?
    ensures DrawnSoFar(VariableLength, run, P, status)
  {
    var uniqueDil := UniqueAscending(P.dilations);
    var mask := InitMask(|uniqueDil|, run.nFt, run.len);
    TracksAtStart(mask, run, P, uniqueDil);
    status, retained, a1, a2 := DraftGroups(VariableLength, run, P, mask, values, channelIds, threshold, maskReturn,
                                            uniqueDil);
  }

  /** `M_VL_generate_shapelet`: draw the parameters against `min_len`, run the
      generation loops, then keep the first a1 values and a2 channel ids and filter
      the per-shapelet arrays by `mask_return`, in original order. Every shapelet's
      status is the draw from the slice it saw, and with alpha <= 0 every shapelet is
      kept. */
  method GenerateShapelet(run: Run, minLen: nat, nShapelets: nat, sizes: seq<int>, pNorm: real, maxChannels: nat,
                          primeScheme: bool)
    returns (values: seq<real>, lengths: seq<int>, dilations: seq<int>, threshold: seq<real>, normalize: seq<bool>,
             nChannels: seq<int>, channelIds: seq<int>, ghost draft: ChannelDraft)
    requires WellFormed(run) && |run.len| > 0 && forall s :: 0 <= s < |run.len| ==> minLen <= run.len[s]
    requires |sizes| > 0 && forall k :: 0 <= k < |sizes| ==> 2 <= sizes[k] <= minLen
    requires primeScheme ==> nShapelets > 0
    requires 1 <= maxChannels <= run.nFt
    ensures Sized(draft.params, nShapelets) && |draft.status| == nShapelets && |draft.threshold| == nShapelets
    ensures forall i :: 0 <= i < nShapelets ==>
      ValidShapelet(sizes, draft.params.lengths[i], draft.params.dilations[i], minLen, primeScheme) &&
      (draft.params.normalize[i] <==> Random(run.rng, NormalizeDraw(i)) < pNorm) &&
      1 <= draft.params.nChannels[i] <= maxChannels
    ensures forall i :: 0 <= i < nShapelets ==> !draft.status[i].Pending?
    ensures var keep := KeptMask(draft.status);
      lengths == Compact(draft.params.lengths, keep) && dilations == Compact(draft.params.dilations, keep) &&
      threshold == Compact(draft.threshold, keep) && normalize == Compact(draft.params.normalize, keep) &&
      nChannels == Compact(draft.params.nChannels, keep)
    ensures forall j :: 0 <= j < |draft.retained| ==> draft.retained[j] < nShapelets
    ensures values == ProcessingOrderLayout(ShapeletBlocks(run, draft.params, draft.status), draft.retained)
    ensures channelIds == ProcessingOrderLayout(ShapeletChannelBlocks(draft.status), draft.retained)
    ensures |values| == Sum(BlockSizes(lengths, nChannels)) && |channelIds| == Sum(nChannels)
    ensures Drafted(run, draft.params, draft.status, draft.threshold, KeptMask(draft.status))
    ensures DrawnSoFar(VariableLength, run, draft.params, draft.status)
    ensures run.alpha <= 0.0 ==> forall i :: 0 <= i < nShapelets ==> draft.status[i].Kept?
    ensures Retained(draft.params, draft.status, draft.retained)
  {
    var vals, lens, dils, thr, nrm, nch, ids := InitMultivariateParams(nShapelets, sizes, minLen, pNorm, maxChannels,
                                                                       primeScheme, run.rng);
    var P := Params(lens, dils, nrm, nch);
    DrawnShapeletsFit(run, P, sizes, minLen, primeScheme);
    var maskReturn := new bool[nShapelets](_ => true);
    Started(run, P, thr[..], maskReturn[..], vals[..], ids[..]);
    ghost var status, retained;
    var a1, a2;
    status, retained, a1, a2 := DraftChannelShapelets(run, P, vals, ids, thr, maskReturn);
    if run.alpha <= 0.0 {
      KeptWhenAlphaNonPositive(VariableLength, run, P, status);
    }
    Finished(run, P, status, retained, thr[..], maskReturn[..], vals[..], ids[..], a1, a2);
    var keep := maskReturn[..];
    draft := ChannelDraft(P, thr[..], status, retained);
    values, channelIds := vals[..a1], ids[..a2];
    lengths, dilations, threshold := Compact(lens, keep), Compact(dils, keep), Compact(thr[..], keep);
    normalize, nChannels := Compact(nrm, keep), Compact(nch, keep);
  }

  // ------------------------------------------------------------------ apply

  /** `X[s, :, :X_len[s]]`: the first len points of every channel. */
  function Truncated(x: seq<seq<real>>, len: nat): (r: seq<seq<real>>)
    requires forall f :: 0 <= f < |x| ==> len <= |x[f]|
    ensures |r| == |x| && Rectangular(r, len)
    ensures forall f :: 0 <= f < |x| ==> r[f] == x[f][..len]
  {
    seq(|x|, f requires 0 <= f < |x| => x[f][..len])
  }

  /** `M_VL_apply_all_shapelets`: for every sample s and every (length, dilation)
      group, columns 3i..3i+2 of the output receive shapelet i's features on the
      first `X_len[s]` points of sample s. */
  method ApplyAllShapelets(X: seq<seq<seq<real>>>, nFt: nat, len: seq<nat>, S: ChannelShapelets,
                           dist: Distance, zn: PointNorm, usePhase: bool)
    returns (xNew: array2<real>)
    requires |len| == |X| && forall s :: 0 <= s < |X| ==> |X[s]| == nFt && forall f :: 0 <= f < nFt ==> len[s] <= |X[s][f]|
    requires Consistent(S, nFt) && forall s :: 0 <= s < |X| ==> FitsSeries(S, len[s], usePhase)
    ensures fresh(xNew) && xNew.Length0 == |X| && xNew.Length1 == 3 * |S.lengths|
    ensures forall s, i :: 0 <= s < |X| && 0 <= i < |S.lengths| ==>
      Features(xNew, s, i) == ChannelFeatures(Truncated(X[s], len[s]), len[s], nFt, S, i, usePhase, dist, zn)
  {
    var a1, a2, params, idxShp, nShpParams := Prepare(S);
    xNew := new real[|X|, 3 * |S.lengths|]((_, _) => 0.0);
    for s := 0 to |X|
      invariant forall s', i :: 0 <= s' < s && 0 <= i < |S.lengths| ==>
        Features(xNew, s', i) == ChannelFeatures(Truncated(X[s'], len[s']), len[s'], nFt, S, i, usePhase, dist, zn)
    {
      var x := Truncated(X[s], len[s]);
      ApplySample(x, len[s], s, S, a1, a2, params, idxShp, nShpParams, xNew, dist, zn, usePhase);
    }
  }
}
