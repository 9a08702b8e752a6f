/**
 * Generation machinery shared by the multivariate generators (`M_SL_*` and
 * `M_VL_*`).
 *
 * A multivariate shapelet has `n_channels` distinct channels and one row of
 * `length` values per channel. Sample s is a list of n_features channels of
 * `len[s]` points. For each shapelet, generation draws its channels, then an
 * anchor (sample, position) where the mask, summed over the chosen channels,
 * reaches `n_channels * alpha`. It then clears the mask around the anchor in each
 * chosen channel, cuts the channel rows, and calibrates the threshold on the
 * channel-summed distance profile of a comparison sample. The rows and the
 * channel ids are appended to two flat buffers at running offsets a1 and a2.
 * The generators differ only in where an anchor may lie and how it is drawn.
 */
module ChannelGeneration {
  import opened ArrayOps
  import opened Commons
  import opened Sampling
  import opened Packing
  import U = UnivariateSameLength

  // ------------------------------------------------------------------ data

  /** Sample s has nFt channels of len[s] points. */
  predicate Panel(X: seq<seq<seq<real>>>, nFt: nat, len: seq<nat>) {
    |X| == |len| && forall s :: 0 <= s < |X| ==> |X[s]| == nFt && Rectangular(X[s], len[s])
  }

  /** The fixed inputs of a generation run. */
  datatype Run = Run(X: seq<seq<seq<real>>>, y: seq<int>, nFt: nat, len: seq<nat>, pMin: real, pMax: real,
                     alpha: real, seams: Seams, usePhase: bool, rng: Rng)

  predicate WellFormed(run: Run) {
    Panel(run.X, run.nFt, run.len) && |run.y| == |run.X|
  }

  /** The per-shapelet parameters drawn by the initialiser. */
  datatype Params = Params(lengths: seq<int>, dilations: seq<int>, normalize: seq<bool>, nChannels: seq<int>)

  predicate Sized(P: Params, m: nat) {
    |P.lengths| == m && |P.dilations| == m && |P.normalize| == m && |P.nChannels| == m
  }

  /** Windows of length l and dilation d fit every sample, each sample holding at
      least one. */
  predicate FitsEvery(len: seq<nat>, l: int, d: int, usePhase: bool) {
    l >= 1 && d >= 0 &&
    forall s :: 0 <= s < |len| ==> WindowsFit(len[s], l, d, usePhase) && NumWindows(len[s], l, d, usePhase) >= 1
  }

  /** Where a shapelet was cut: the sample, the start position, the comparison
      sample of the threshold and the channels. */
  datatype ChannelAnchor = ChannelAnchor(sample: nat, index: nat, test: nat, channels: seq<nat>)

  /** The anchor's samples and channels exist and its position starts a window. */
  predicate AnchorFits(run: Run, a: ChannelAnchor, l: nat, d: nat) {
    a.sample < |run.X| && a.test < |run.X| && |run.len| == |run.X| &&
    (forall k :: 0 <= k < |a.channels| ==> a.channels[k] < run.nFt) &&
    WindowsFit(run.len[a.sample], l, d, run.usePhase) && WindowsFit(run.len[a.test], l, d, run.usePhase) &&
    a.index < NumWindows(run.len[a.sample], l, d, run.usePhase)
  }

  /** The shapelet's rows: the anchor's window in each of its channels. */
  function Candidates(run: Run, a: ChannelAnchor, l: nat, d: nat, norm: bool): (rows: seq<seq<real>>)
    requires Panel(run.X, run.nFt, run.len) && AnchorFits(run, a, l, d)
    ensures |rows| == |a.channels| && forall k :: 0 <= k < |rows| ==> |rows[k]| == l
  {
    var x := run.X[a.sample];
    seq(|a.channels|, k requires 0 <= k < |a.channels| =>
      Window(x[a.channels[k]], a.index, l, d, norm, run.usePhase, run.seams.zn))
  }

  /** The distance profiles of the rows on the given channels of a sample x whose
      channels have nx points. */
  function ChannelProfiles(x: seq<seq<real>>, nx: nat, chans: seq<int>, rows: seq<seq<real>>, l: nat, d: nat, norm: bool,
                           usePhase: bool, dist: Distance, zn: PointNorm): (ps: seq<seq<real>>)
    requires Rectangular(x, nx) && WindowsFit(nx, l, d, usePhase) && |rows| == |chans|
    requires forall k :: 0 <= k < |chans| ==> 0 <= chans[k] < |x|
    ensures |ps| == |chans| && forall k :: 0 <= k < |ps| ==> |ps[k]| == NumWindows(nx, l, d, usePhase)
  {
    seq(|chans|, k requires 0 <= k < |chans| => DistProfile(x[chans[k]], rows[k], l, d, norm, usePhase, dist, zn))
  }

  /** Pointwise sum of profiles of w entries (w zeros when there is none). */
  function SumProfiles(ps: seq<seq<real>>, w: nat): (r: seq<real>)
    requires forall k :: 0 <= k < |ps| ==> |ps[k]| == w
    ensures |r| == w
  {
    if |ps| == 0 then seq(w, _ => 0.0)
    else
      var p := SumProfiles(ps[..|ps| - 1], w);
      seq(w, t requires 0 <= t < w => p[t] + ps[|ps| - 1][t])
  }

  /** The channel-summed distance profile of a shapelet on sample x. */
  function MultiProfile(x: seq<seq<real>>, nx: nat, chans: seq<int>, rows: seq<seq<real>>, l: nat, d: nat, norm: bool,
                        usePhase: bool, dist: Distance, zn: PointNorm): (r: seq<real>)
    requires Rectangular(x, nx) && WindowsFit(nx, l, d, usePhase) && |rows| == |chans|
    requires forall k :: 0 <= k < |chans| ==> 0 <= chans[k] < |x|
    ensures |r| == NumWindows(nx, l, d, usePhase)
  {
    SumProfiles(ChannelProfiles(x, nx, chans, rows, l, d, norm, usePhase, dist, zn), NumWindows(nx, l, d, usePhase))
  }

  /** The threshold: a uniform draw between the p_min and p_max percentiles of the
      candidate's channel-summed distance profile on the comparison sample. */
  function ChannelThreshold(run: Run, a: ChannelAnchor, i: nat, l: nat, d: nat, norm: bool): real
    requires Panel(run.X, run.nFt, run.len) && AnchorFits(run, a, l, d)
  {
    var xDist := MultiProfile(run.X[a.test], run.len[a.test], a.channels, Candidates(run, a, l, d, norm), l, d, norm,
                              run.usePhase, run.seams.dist, run.seams.zn);
    Uniform(run.rng, ThresholdDraw(i), run.seams.percentile(xDist, run.pMin), run.seams.percentile(xDist, run.pMax))
  }

  /** `arange(n_features)`. */
  function AllChannels(nFt: nat): (r: seq<nat>)
    ensures |r| == nFt && Distinct(r) && forall k :: 0 <= k < nFt ==> r[k] == k
  {
    seq(nFt, k requires 0 <= k < nFt => k)
  }

  /** `choice(arange(n_features), n_channels, replace=False)`: nCh distinct channels. */
  function DrawChannels(rng: Rng, i: nat, nFt: nat, nCh: nat): (chans: seq<nat>)
    requires nCh <= nFt
    ensures |chans| == nCh && Distinct(chans) && forall k :: 0 <= k < nCh ==> chans[k] < nFt
  {
    var pool := AllChannels(nFt);
    var r := ChooseDistinct(rng, i, pool, nCh, 0);
    assert forall k :: 0 <= k < nCh ==> r[k] in pool;
    r
  }

  /** The anchor fits, its channels and comparison sample are the ones drawn. */
  predicate ValidChannelAnchor(run: Run, a: ChannelAnchor, i: nat, l: nat, d: nat, nCh: nat) {
    AnchorFits(run, a, l, d) && nCh <= run.nFt && a.channels == DrawChannels(run.rng, i, run.nFt, nCh) &&
    a.sample < |run.y| && a.test == ComparisonSample(run.rng, i, run.y, a.sample)
  }

  // ------------------------------------------------------- generation state

  /** A shapelet not processed yet, one processed without an eligible anchor, or one
      cut at an anchor. */
  datatype Status = Pending | Dropped | Kept(anchor: ChannelAnchor)

  /** What generation leaves for shapelet i: its `mask_return` entry is false exactly
      when it was dropped; when kept, its anchor is valid and its threshold calibrated. */
  ghost predicate ShapeletStatus(run: Run, i: nat, st: Status, thr: real, ret: bool, l: int, d: int, norm: bool, nCh: int)
    requires WellFormed(run)
  {
    FitsEvery(run.len, l, d, run.usePhase) && 1 <= nCh <= run.nFt &&
    (ret <==> !st.Dropped?) &&
    (st.Kept? ==> ValidChannelAnchor(run, st.anchor, i, l, d, nCh) && thr == ChannelThreshold(run, st.anchor, i, l, d, norm))
  }

  /** Every shapelet's status, threshold and `mask_return` entry agree. */
  ghost predicate Drafted(run: Run, P: Params, status: seq<Status>, thr: seq<real>, ret: seq<bool>) {
    WellFormed(run) && Sized(P, |status|) && |thr| == |status| && |ret| == |status| &&
    forall i :: 0 <= i < |status| ==>
      ShapeletStatus(run, i, status[i], thr[i], ret[i], P.lengths[i], P.dilations[i], P.normalize[i], P.nChannels[i])
  }

  function KeptMask(status: seq<Status>): (keep: seq<bool>)
    ensures |keep| == |status| && forall i :: 0 <= i < |status| ==> (keep[i] <==> status[i].Kept?)
  {
    seq(|status|, i requires 0 <= i < |status| => status[i].Kept?)
  }

  /** `retained` lists the kept shapelets, each once, in processing order. */
  ghost predicate Retained(P: Params, status: seq<Status>, retained: seq<nat>)
    requires |P.dilations| == |status|
  {
    InProcessingOrder(P.dilations, retained) &&
    (forall j :: 0 <= j < |retained| ==> status[retained[j]].Kept?) &&
    (forall i :: 0 <= i < |status| && status[i].Kept? ==> i in retained)
  }

  /** A kept shapelet's block of values: its rows, one after the other. */
  ghost function KeptBlock(run: Run, P: Params, status: seq<Status>, i: nat): seq<real> {
    if Panel(run.X, run.nFt, run.len) && i < |status| && Sized(P, |status|) && status[i].Kept? &&
       P.lengths[i] >= 0 && P.dilations[i] >= 0 && AnchorFits(run, status[i].anchor, P.lengths[i], P.dilations[i])
    then Flatten(Candidates(run, status[i].anchor, P.lengths[i], P.dilations[i], P.normalize[i]))
    else []
  }

  ghost function KeptBlocks(run: Run, P: Params, status: seq<Status>, retained: seq<nat>): (blocks: seq<seq<real>>)
    ensures |blocks| == |retained|
  {
    seq(|retained|, j requires 0 <= j < |retained| => KeptBlock(run, P, status, retained[j]))
  }

  /** A kept shapelet's block of channel ids. */
  function KeptChannels(status: seq<Status>, retained: seq<nat>): (blocks: seq<seq<int>>)
    ensures |blocks| == |retained|
  {
    seq(|retained|, j requires 0 <= j < |retained| =>
      if retained[j] < |status| && status[retained[j]].Kept? then status[retained[j]].anchor.channels else [])
  }

  /** The first a entries of buf are the blocks, one after the other. */
  predicate Packed<T(==)>(buf: seq<T>, a: int, blocks: seq<seq<T>>) {
    0 <= a == |Flatten(blocks)| <= |buf| && buf[..a] == Flatten(blocks)
  }

  /** The invariant of the generation loops. */
  ghost predicate Generating(run: Run, P: Params, status: seq<Status>, retained: seq<nat>, thr: seq<real>, ret: seq<bool>,
                             vals: seq<real>, ids: seq<int>, a1: int, a2: int)
  {
    Drafted(run, P, status, thr, ret) && Retained(P, status, retained) &&
    |vals| == Sum(BlockSizes(P.lengths, P.nChannels)) && |ids| == Sum(P.nChannels) &&
    a1 == Sum(Masked(BlockSizes(P.lengths, P.nChannels), KeptMask(status))) &&
    a2 == Sum(Masked(P.nChannels, KeptMask(status))) &&
    Packed(vals, a1, KeptBlocks(run, P, status, retained)) &&
    Packed(ids, a2, KeptChannels(status, retained))
  }

  /** Before the generation loops: nothing processed. */
  function AllPending(m: nat): (status: seq<Status>)
    ensures |status| == m && forall i :: 0 <= i < m ==> status[i].Pending?
  {
    seq(m, _ => Pending)
  }

  /** Every shapelet's block of values, in index order (empty unless kept). */
  ghost function ShapeletBlocks(run: Run, P: Params, status: seq<Status>): (blocks: seq<seq<real>>)
    ensures |blocks| == |status|
  {
    seq(|status|, i requires 0 <= i < |status| => KeptBlock(run, P, status, i))
  }

  /** Every shapelet's block of channel ids, in index order (empty unless kept). */
  function ShapeletChannelBlocks(status: seq<Status>): (blocks: seq<seq<int>>)
    ensures |blocks| == |status|
  {
    seq(|status|, i requires 0 <= i < |status| => if status[i].Kept? then status[i].anchor.channels else [])
  }

  /** The outcome of the generation loops before compaction: the drawn parameters,
      the thresholds, each shapelet's status and the kept shapelets in processing order. */
  datatype ChannelDraft = ChannelDraft(params: Params, threshold: seq<real>, status: seq<Status>, retained: seq<nat>)

  // ------------------------------------------------------- generation steps

  /** Before the loops the invariant holds with nothing kept and nothing written,
      every `mask_return` entry true. */
  lemma Started(run: Run, P: Params, thr: seq<real>, ret: seq<bool>, vals: seq<real>, ids: seq<int>)
    requires WellFormed(run) && Sized(P, |thr|) && |ret| == |thr| && forall i :: 0 <= i < |ret| ==> ret[i]
    requires forall i :: 0 <= i < |thr| ==>
      FitsEvery(run.len, P.lengths[i], P.dilations[i], run.usePhase) && 1 <= P.nChannels[i] <= run.nFt
    requires |vals| == Sum(BlockSizes(P.lengths, P.nChannels)) && |ids| == Sum(P.nChannels)
    ensures Generating(run, P, AllPending(|P.lengths|), [], thr, ret, vals, ids, 0, 0)
  {
    var none := AllPending(|thr|);
    SumMaskedNone(BlockSizes(P.lengths, P.nChannels), KeptMask(none));
    SumMaskedNone(P.nChannels, KeptMask(none));
    assert KeptBlocks(run, P, none, []) == [];
    assert KeptChannels(none, []) == [];
  }

  /** The packed blocks are the selection, in processing order, of every shapelet's blocks. */
  lemma KeptBlocksSelect(run: Run, P: Params, status: seq<Status>, retained: seq<nat>)
    requires forall j :: 0 <= j < |retained| ==> retained[j] < |status|
    ensures KeptBlocks(run, P, status, retained) == Select(ShapeletBlocks(run, P, status), retained)
    ensures KeptChannels(status, retained) == Select(ShapeletChannelBlocks(status), retained)
  {
  }

  /** Once nothing is pending, `mask_return` is the kept mask, the first a1 values are
      the kept shapelets' blocks in processing order, the first a2 channel ids their
      channels, and a1 and a2 are the total sizes of the kept shapelets' blocks. */
  lemma Finished(run: Run, P: Params, status: seq<Status>, retained: seq<nat>, thr: seq<real>, ret: seq<bool>,
                 vals: seq<real>, ids: seq<int>, a1: int, a2: int)
    requires Generating(run, P, status, retained, thr, ret, vals, ids, a1, a2)
    requires forall i :: 0 <= i < |status| ==> !status[i].Pending?
    ensures ret == KeptMask(status)
    ensures forall j :: 0 <= j < |retained| ==> retained[j] < |status|
    ensures 0 <= a1 <= |vals| && vals[..a1] == ProcessingOrderLayout(ShapeletBlocks(run, P, status), retained)
    ensures 0 <= a2 <= |ids| && ids[..a2] == ProcessingOrderLayout(ShapeletChannelBlocks(status), retained)
    ensures a1 == Sum(BlockSizes(Compact(P.lengths, ret), Compact(P.nChannels, ret)))
    ensures a2 == Sum(Compact(P.nChannels, ret))
  {
    forall i | 0 <= i < |status|
      ensures ret[i] == KeptMask(status)[i]
    {
      assert ShapeletStatus(run, i, status[i], thr[i], ret[i], P.lengths[i], P.dilations[i], P.normalize[i],
                            P.nChannels[i]);
    }
    KeptBlocksSelect(run, P, status, retained);
    SumCompact(BlockSizes(P.lengths, P.nChannels), ret);
    BlockSizesCompact(P.lengths, P.nChannels, ret);
    SumCompact(P.nChannels, ret);
  }

  /** Writing one more block at the end of the packed prefix. */
  lemma PackedSnoc<T>(buf: seq<T>, a: int, blocks: seq<seq<T>>, b: seq<T>)
    requires Packed(buf, a, blocks) && a + |b| <= |buf|
    ensures Packed(buf[..a] + b + buf[a + |b|..], a + |b|, blocks + [b])
  {
    Splice(buf, a, b, Flatten(blocks));
    assert (blocks + [b])[..|blocks|] == blocks;
  }

  /** Every shapelet's block size is positive. */
  lemma BlockSizesPositive(run: Run, P: Params, status: seq<Status>, thr: seq<real>, ret: seq<bool>)
    requires Drafted(run, P, status, thr, ret)
    ensures forall i :: 0 <= i < |status| ==> BlockSizes(P.lengths, P.nChannels)[i] >= 0 && P.nChannels[i] >= 0
  {
    forall i | 0 <= i < |status|
      ensures BlockSizes(P.lengths, P.nChannels)[i] >= 0
    {
      assert ShapeletStatus(run, i, status[i], thr[i], ret[i], P.lengths[i], P.dilations[i], P.normalize[i], P.nChannels[i]);
      NonNegativeProduct(P.nChannels[i], P.lengths[i]);
    }
  }

  /** A pending shapelet's block fits after the packed prefix of each buffer. */
  lemma RoomFor(run: Run, P: Params, status: seq<Status>, retained: seq<nat>, thr: seq<real>, ret: seq<bool>,
                vals: seq<real>, ids: seq<int>, a1: int, a2: int, i: nat)
    requires Generating(run, P, status, retained, thr, ret, vals, ids, a1, a2)
    requires i < |status| && status[i].Pending?
    ensures a1 + P.nChannels[i] * P.lengths[i] <= |vals| && a2 + P.nChannels[i] <= |ids|
  {
    var keep := KeptMask(status);
    BlockSizesPositive(run, P, status, thr, ret);
    var w := BlockSizes(P.lengths, P.nChannels);
    SumMaskedStep(w, keep, i);
    SumMaskedBound(w, keep[i := true]);
    SumMaskedStep(P.nChannels, keep, i);
    SumMaskedBound(P.nChannels, keep[i := true]);
  }

  /** Recording a kept shapelet keeps every status described. */
  lemma DraftedKeep(run: Run, P: Params, status: seq<Status>, thr: seq<real>, ret: seq<bool>, i: nat, a: ChannelAnchor)
    requires Drafted(run, P, status, thr, ret) && i < |status| && status[i].Pending?
    requires ValidChannelAnchor(run, a, i, P.lengths[i], P.dilations[i], P.nChannels[i])
    ensures Drafted(run, P, status[i := Kept(a)],
                    thr[i := ChannelThreshold(run, a, i, P.lengths[i], P.dilations[i], P.normalize[i])], ret)
  {
    var st, th := status[i := Kept(a)], thr[i := ChannelThreshold(run, a, i, P.lengths[i], P.dilations[i], P.normalize[i])];
    forall k | 0 <= k < |status|
      ensures ShapeletStatus(run, k, st[k], th[k], ret[k], P.lengths[k], P.dilations[k], P.normalize[k], P.nChannels[k])
    {
      assert ShapeletStatus(run, k, status[k], thr[k], ret[k], P.lengths[k], P.dilations[k], P.normalize[k], P.nChannels[k]);
    }
  }

  /** Recording a dropped shapelet keeps every status described. */
  lemma DraftedDrop(run: Run, P: Params, status: seq<Status>, thr: seq<real>, ret: seq<bool>, i: nat)
    requires Drafted(run, P, status, thr, ret) && i < |status| && status[i].Pending?
    ensures Drafted(run, P, status[i := Dropped], thr, ret[i := false])
  {
    var st, rt := status[i := Dropped], ret[i := false];
    forall k | 0 <= k < |status|
      ensures ShapeletStatus(run, k, st[k], thr[k], rt[k], P.lengths[k], P.dilations[k], P.normalize[k], P.nChannels[k])
    {
      assert ShapeletStatus(run, k, status[k], thr[k], ret[k], P.lengths[k], P.dilations[k], P.normalize[k], P.nChannels[k]);
    }
  }

  /** The retained list grows by the kept shapelet, which comes after every listed one. */
  lemma RetainedKeep(P: Params, status: seq<Status>, retained: seq<nat>, i: nat, a: ChannelAnchor)
    requires |P.dilations| == |status| && Retained(P, status, retained) && i < |status| && status[i].Pending?
    requires forall j :: 0 <= j < |retained| ==> Before(P.dilations, retained[j], i)
    ensures Retained(P, status[i := Kept(a)], retained + [i])
  {
    ProcessingOrderSnoc(P.dilations, retained, i);
    var st, r := status[i := Kept(a)], retained + [i];
    forall j | 0 <= j < |r|
      ensures st[r[j]].Kept?
    {
      if j < |retained| {
        assert r[j] == retained[j] && status[retained[j]].Kept?;
      }
    }
  }

  /** The blocks of the retained shapelets grow by the kept shapelet's blocks. */
  lemma KeptBlocksKeep(run: Run, P: Params, status: seq<Status>, retained: seq<nat>, i: nat, a: ChannelAnchor)
    requires WellFormed(run) && Sized(P, |status|) && Retained(P, status, retained) && i < |status| && status[i].Pending?
    requires P.lengths[i] >= 0 && P.dilations[i] >= 0 && AnchorFits(run, a, P.lengths[i], P.dilations[i])
    ensures KeptBlocks(run, P, status[i := Kept(a)], retained + [i]) ==
      KeptBlocks(run, P, status, retained) + [Flatten(Candidates(run, a, P.lengths[i], P.dilations[i], P.normalize[i]))]
    ensures KeptChannels(status[i := Kept(a)], retained + [i]) == KeptChannels(status, retained) + [a.channels]
  {
    var st := status[i := Kept(a)];
    forall j | 0 <= j < |retained|
      ensures st[retained[j]] == status[retained[j]]
    {
      assert status[retained[j]].Kept?;
    }
  }

  /** Dropping a pending shapelet changes neither the retained list's blocks nor the kept mask. */
  lemma KeptBlocksDrop(run: Run, P: Params, status: seq<Status>, retained: seq<nat>, i: nat)
    requires Sized(P, |status|) && Retained(P, status, retained) && i < |status| && status[i].Pending?
    ensures Retained(P, status[i := Dropped], retained)
    ensures KeptBlocks(run, P, status[i := Dropped], retained) == KeptBlocks(run, P, status, retained)
    ensures KeptChannels(status[i := Dropped], retained) == KeptChannels(status, retained)
    ensures KeptMask(status[i := Dropped]) == KeptMask(status)
  {
    var st := status[i := Dropped];
    forall j | 0 <= j < |retained|
      ensures st[retained[j]] == status[retained[j]]
    {
      assert status[retained[j]].Kept?;
    }
  }

  /** The running offsets grow by the kept shapelet's block sizes. */
  lemma KeepSums(P: Params, status: seq<Status>, i: nat, a: ChannelAnchor, a1: int, a2: int)
    requires Sized(P, |status|) && i < |status| && status[i].Pending?
    requires a1 == Sum(Masked(BlockSizes(P.lengths, P.nChannels), KeptMask(status)))
    requires a2 == Sum(Masked(P.nChannels, KeptMask(status)))
    ensures a1 + P.nChannels[i] * P.lengths[i] == Sum(Masked(BlockSizes(P.lengths, P.nChannels), KeptMask(status[i := Kept(a)])))
    ensures a2 + P.nChannels[i] == Sum(Masked(P.nChannels, KeptMask(status[i := Kept(a)])))
  {
    var keep := KeptMask(status);
    assert KeptMask(status[i := Kept(a)]) == keep[i := true];
    SumMaskedStep(BlockSizes(P.lengths, P.nChannels), keep, i);
    SumMaskedStep(P.nChannels, keep, i);
  }

  /** Both buffers stay packed once the kept shapelet's blocks are written after them. */
  lemma KeepPacked(run: Run, P: Params, status: seq<Status>, retained: seq<nat>, vals: seq<real>, ids: seq<int>,
                   a1: int, a2: int, i: nat, a: ChannelAnchor)
    requires WellFormed(run) && Sized(P, |status|) && Retained(P, status, retained) && i < |status| && status[i].Pending?
    requires P.lengths[i] >= 0 && P.dilations[i] >= 0 && AnchorFits(run, a, P.lengths[i], P.dilations[i])
    requires Packed(vals, a1, KeptBlocks(run, P, status, retained)) && Packed(ids, a2, KeptChannels(status, retained))
    requires a1 + |Flatten(Candidates(run, a, P.lengths[i], P.dilations[i], P.normalize[i]))| <= |vals|
    requires a2 + |a.channels| <= |ids|
    ensures var block := Flatten(Candidates(run, a, P.lengths[i], P.dilations[i], P.normalize[i]));
      Packed(vals[..a1] + block + vals[a1 + |block|..], a1 + |block|, KeptBlocks(run, P, status[i := Kept(a)], retained + [i])) &&
      Packed(ids[..a2] + a.channels + ids[a2 + |a.channels|..], a2 + |a.channels|, KeptChannels(status[i := Kept(a)], retained + [i]))
  {
    KeptBlocksKeep(run, P, status, retained, i, a);
    PackedSnoc(vals, a1, KeptBlocks(run, P, status, retained), Flatten(Candidates(run, a, P.lengths[i], P.dilations[i], P.normalize[i])));
    PackedSnoc(ids, a2, KeptChannels(status, retained), a.channels);
  }

  /** Recording a kept shapelet i, whose block and channel ids were written at a1 and a2. */
  lemma KeepStep(run: Run, P: Params, status: seq<Status>, retained: seq<nat>, thr: seq<real>, ret: seq<bool>,
                 vals: seq<real>, ids: seq<int>, a1: int, a2: int, i: nat, a: ChannelAnchor)
    requires Generating(run, P, status, retained, thr, ret, vals, ids, a1, a2)
    requires i < |status| && status[i].Pending? && forall j :: 0 <= j < |retained| ==> Before(P.dilations, retained[j], i)
    requires ValidChannelAnchor(run, a, i, P.lengths[i], P.dilations[i], P.nChannels[i])
    ensures var l, d, norm := P.lengths[i], P.dilations[i], P.normalize[i];
      var block := Flatten(Candidates(run, a, l, d, norm));
      |block| == P.nChannels[i] * l && a1 + |block| <= |vals| && a2 + |a.channels| <= |ids| &&
      Generating(run, P, status[i := Kept(a)], retained + [i], thr[i := ChannelThreshold(run, a, i, l, d, norm)], ret,
                 vals[..a1] + block + vals[a1 + |block|..], ids[..a2] + a.channels + ids[a2 + |a.channels|..],
                 a1 + |block|, a2 + |a.channels|)
  {
    var l, d, norm := P.lengths[i], P.dilations[i], P.normalize[i];
    var block := Flatten(Candidates(run, a, l, d, norm));
    FlattenUniformLength(Candidates(run, a, l, d, norm), l);
    assert |block| == P.nChannels[i] * l;
    RoomFor(run, P, status, retained, thr, ret, vals, ids, a1, a2, i);
    DraftedKeep(run, P, status, thr, ret, i, a);
    RetainedKeep(P, status, retained, i, a);
    KeepSums(P, status, i, a, a1, a2);
    KeepPacked(run, P, status, retained, vals, ids, a1, a2, i, a);
  }

  /** Recording a dropped shapelet i. */
  lemma DropStep(run: Run, P: Params, status: seq<Status>, retained: seq<nat>, thr: seq<real>, ret: seq<bool>,
                 vals: seq<real>, ids: seq<int>, a1: int, a2: int, i: nat)
    requires Generating(run, P, status, retained, thr, ret, vals, ids, a1, a2)
    requires i < |status| && status[i].Pending?
    ensures Generating(run, P, status[i := Dropped], retained, thr, ret[i := false], vals, ids, a1, a2)
  {
    DraftedDrop(run, P, status, thr, ret, i);
    KeptBlocksDrop(run, P, status, retained, i);
  }

  // ------------------------------------------------------------------ mask

  /** Relative to the previous state, exactly the positions `Cleared(index, d, m, k)`
      of the given channels of sample s in slice (norm, g) have been set to false. */
  twostate predicate ChannelsCleared(mask: array5<bool>, norm: nat, g: nat, s: nat, chans: seq<nat>, index: int, d: int,
                                     m: nat, k: nat)
    requires m > 0
    reads mask
  {
    forall a, b, c, f, t :: 0 <= a < mask.Length0 && 0 <= b < mask.Length1 && 0 <= c < mask.Length2 &&
                            0 <= f < mask.Length3 && 0 <= t < mask.Length4 ==>
      mask[a, b, c, f, t] ==
        (old(mask[a, b, c, f, t]) && !(a == norm && b == g && c == s && f in chans && t in Cleared(index, d, m, k)))
  }

  /** Clears `(index -/+ j*d) % m` for j < k in channel f of sample s, slice (norm, g). */
  method ClearChannel(mask: array5<bool>, norm: nat, g: nat, s: nat, f: nat, index: int, d: int, m: nat, k: int)
    requires norm < mask.Length0 && g < mask.Length1 && s < mask.Length2 && f < mask.Length3 && 0 < m <= mask.Length4
    modifies mask
    ensures ChannelsCleared(mask, norm, g, s, [f], index, d, m, Steps(k))
  {
    for j := 0 to Steps(k)
      invariant ChannelsCleared(mask, norm, g, s, [f], index, d, m, j)
    {
      mask[norm, g, s, f, Back(index, d, m, j)] := false;
      mask[norm, g, s, f, Forth(index, d, m, j)] := false;
    }
  }

  // ------------------------------------------------------------ extraction

  /** `buf[a:a+|block|] = block`. */
  method WriteSlice<T>(buf: array<T>, a: nat, block: seq<T>)
    requires a + |block| <= buf.Length
    modifies buf
    ensures buf[..] == old(buf[..])[..a] + block + old(buf[..])[a + |block|..]
  {
    for j := 0 to |block|
      invariant forall r :: 0 <= r < buf.Length ==> buf[r] == if a <= r < a + j then block[r - a] else old(buf[r])
    {
      buf[a + j] := block[j];
    }
    ghost var expected := old(buf[..])[..a] + block + old(buf[..])[a + |block|..];
    assert forall r :: 0 <= r < buf.Length ==> buf[r] == expected[r];
  }

  /** The clearing part of the channel loop: for each chosen channel, clear the mask
      around the anchor. */
  method ClearChannels(mask: array5<bool>, norm: nat, g: nat, s: nat, chans: seq<nat>, index: int, d: int, m: nat, k: int)
    requires norm < mask.Length0 && g < mask.Length1 && s < mask.Length2 && 0 < m <= mask.Length4
    requires forall j :: 0 <= j < |chans| ==> chans[j] < mask.Length3
    modifies mask
    ensures ChannelsCleared(mask, norm, g, s, chans, index, d, m, Steps(k))
  {
    for j := 0 to |chans|
      invariant ChannelsCleared(mask, norm, g, s, chans[..j], index, d, m, Steps(k))
    {
      label before:
      ClearChannel(mask, norm, g, s, chans[j], index, d, m, k);
      PrefixMembershipStep(chans, j);
    }
    assert chans[..|chans|] == chans;
  }

  /** One more channel's profile added pointwise. */
  lemma SumProfilesStep(ps: seq<seq<real>>, w: nat, k: nat)
    requires k < |ps| && forall j :: 0 <= j < |ps| ==> |ps[j]| == w
    ensures SumProfiles(ps[..k + 1], w) == seq(w, t requires 0 <= t < w => SumProfiles(ps[..k], w)[t] + ps[k][t])
  {
    assert ps[..k + 1][..k] == ps[..k];
  }

  /** The value part of the channel loop: cut the window in each chosen channel and
      add its distance profile on the comparison sample. */
  method ExtractChannels(run: Run, a: ChannelAnchor, l: nat, d: nat, norm: bool) returns (vals: seq<real>, xDist: seq<real>)
    requires WellFormed(run) && AnchorFits(run, a, l, d)
    ensures var rows := Candidates(run, a, l, d, norm);
      vals == Flatten(rows) &&
      xDist == MultiProfile(run.X[a.test], run.len[a.test], a.channels, rows, l, d, norm, run.usePhase,
                            run.seams.dist, run.seams.zn)
  {
    ghost var rows := Candidates(run, a, l, d, norm);
    var x, xt := run.X[a.sample], run.X[a.test];
    ghost var ps := ChannelProfiles(xt, run.len[a.test], a.channels, rows, l, d, norm, run.usePhase, run.seams.dist,
                                    run.seams.zn);
    var w := NumWindows(run.len[a.test], l, d, run.usePhase);
    vals := [];
    xDist := seq(w, _ => 0.0);
    for k := 0 to |a.channels|
      invariant vals == Flatten(rows[..k])
      invariant xDist == SumProfiles(ps[..k], w)
    {
      var f := a.channels[k];
      var v := GetSubsequence(x[f], a.index, l, d, norm, run.usePhase, run.seams.zn);
      assert v == rows[k];
      var p := ComputeShapeletDistVector(xt[f], v, l, d, run.seams.dist, norm, run.usePhase, run.seams.zn);
      assert p == ps[k];
      SumProfilesStep(ps, w, k);
      xDist := seq(w, t requires 0 <= t < w => xDist[t] + p[t]);
      FlattenPrefixStep(rows, k);
      vals := vals + v;
    }
    assert rows[..|a.channels|] == rows;
    assert ps[..|a.channels|] == ps;
  }

  /** The work done once shapelet i has its channels and an anchor (s, index): pick the
      comparison sample, clear the mask and cut the rows channel by channel, write the
      rows at a1 and the channel ids at a2, and draw the threshold. Clearing is done in
      a loop of its own: the mask plays no part in the values cut. */
  method CutChannelShapelet(run: Run, mask: array5<bool>, values: array<real>, channelIds: array<int>,
                            threshold: array<real>, g: nat, i: nat, l: nat, d: nat, norm: bool, minL: int,
                            s: nat, index: nat, chans: seq<nat>, a1: nat, a2: nat)
    returns (anchor: ChannelAnchor)
    requires WellFormed(run) && FitsEvery(run.len, l, d, run.usePhase) && s < |run.X|
    requires index < NumWindows(run.len[s], l, d, run.usePhase) && forall k :: 0 <= k < |chans| ==> chans[k] < run.nFt
    requires mask.Length0 == 2 && g < mask.Length1 && mask.Length2 == |run.X| && mask.Length3 == run.nFt
    requires run.len[s] <= mask.Length4
    requires i < threshold.Length && a1 + |chans| * l <= values.Length && a2 + |chans| <= channelIds.Length
    requires values != threshold
    modifies mask, values, channelIds, threshold
    ensures anchor == ChannelAnchor(s, index, ComparisonSample(run.rng, i, run.y, s), chans) && AnchorFits(run, anchor, l, d)
    ensures run.len[s] > 0 &&
      ChannelsCleared(mask, U.NormIndex(norm), g, s, chans, index, d, run.len[s], Steps(AlphaSize(l, run.alpha, minL)))
    ensures var block := Flatten(Candidates(run, anchor, l, d, norm));
      |block| == |chans| * l &&
      values[..] == old(values[..])[..a1] + block + old(values[..])[a1 + |block|..] &&
      channelIds[..] == old(channelIds[..])[..a2] + chans + old(channelIds[..])[a2 + |chans|..] &&
      threshold[..] == old(threshold[..])[i := ChannelThreshold(run, anchor, i, l, d, norm)]
  {
    var test := ComparisonSample(run.rng, i, run.y, s);
    anchor := ChannelAnchor(s, index, test, chans);
    NonNegativeProduct(l - 1, d);
    ClearChannels(mask, U.NormIndex(norm), g, s, chans, index, d, run.len[s], AlphaSize(l, run.alpha, minL));
    WriteCut(run, anchor, values, channelIds, threshold, i, l, d, norm, a1, a2);
  }

  /** The rows of a cut written at a1, its channel ids at a2, its threshold at i. */
  method WriteCut(run: Run, anchor: ChannelAnchor, values: array<real>, channelIds: array<int>, threshold: array<real>,
                  i: nat, l: nat, d: nat, norm: bool, a1: nat, a2: nat)
    requires WellFormed(run) && AnchorFits(run, anchor, l, d)
    requires i < threshold.Length && a1 + |anchor.channels| * l <= values.Length
    requires a2 + |anchor.channels| <= channelIds.Length && values != threshold
    modifies values, channelIds, threshold
    ensures var block := Flatten(Candidates(run, anchor, l, d, norm));
      |block| == |anchor.channels| * l &&
      values[..] == old(values[..])[..a1] + block + old(values[..])[a1 + |block|..] &&
      channelIds[..] == old(channelIds[..])[..a2] + anchor.channels + old(channelIds[..])[a2 + |anchor.channels|..] &&
      threshold[..] == old(threshold[..])[i := ChannelThreshold(run, anchor, i, l, d, norm)]
  {
    var vals, xDist := ExtractChannels(run, anchor, l, d, norm);
    FlattenUniformLength(Candidates(run, anchor, l, d, norm), l);
    WriteSlice(values, a1, vals);
    WriteSlice(channelIds, a2, anchor.channels);
    threshold[i] := Uniform(run.rng, ThresholdDraw(i), run.seams.percentile(xDist, run.pMin),
                            run.seams.percentile(xDist, run.pMax));
  }

  // ------------------------------------------------------------ recording

  /** `mask_return[i] = False` for a shapelet without an eligible cell. */
  method RecordDrop(run: Run, P: Params, values: array<real>, channelIds: array<int>, threshold: array<real>,
                    maskReturn: array<bool>, ghost status: seq<Status>, ghost retained: seq<nat>, i: nat, a1: nat, a2: nat)
    requires Generating(run, P, status, retained, threshold[..], maskReturn[..], values[..], channelIds[..], a1, a2)
    requires i < |status| && status[i].Pending?
    modifies maskReturn
    ensures Generating(run, P, status[i := Dropped], retained, threshold[..], maskReturn[..], values[..], channelIds[..],
                       a1, a2)
  {
    DropStep(run, P, status, retained, threshold[..], maskReturn[..], values[..], channelIds[..], a1, a2, i);
    maskReturn[i] := false;
    assert maskReturn[..] == old(maskReturn[..])[i := false];
  }

  /** Cutting shapelet i at (s, index) on its drawn channels appends its blocks and
      records it as kept. */
  method RecordCut(run: Run, P: Params, mask: array5<bool>, values: array<real>, channelIds: array<int>,
                   threshold: array<real>, maskReturn: array<bool>, ghost status: seq<Status>,
                   ghost retained: seq<nat>, g: nat, i: nat, minL: int, a1: nat, a2: nat, s: nat, index: nat)
    returns (ghost anchor: ChannelAnchor, b1: nat, b2: nat)
    requires Generating(run, P, status, retained, threshold[..], maskReturn[..], values[..], channelIds[..], a1, a2)
    requires i < |status| && status[i].Pending? && forall j :: 0 <= j < |retained| ==> Before(P.dilations, retained[j], i)
    requires forall s' :: 0 <= s' < |run.len| ==> run.len[s'] <= mask.Length4
    requires FitsEvery(run.len, P.lengths[i], P.dilations[i], run.usePhase)
    requires s < |run.X| && index < NumWindows(run.len[s], P.lengths[i], P.dilations[i], run.usePhase)
    requires mask.Length0 == 2 && g < mask.Length1 && mask.Length2 == |run.X| && mask.Length3 == run.nFt
    requires values != threshold
    modifies mask, values, channelIds, threshold
    ensures anchor.sample == s && anchor.index == index && anchor.channels == DrawChannels(run.rng, i, run.nFt, P.nChannels[i])
    ensures run.len[s] > 0 &&
      ChannelsCleared(mask, U.NormIndex(P.normalize[i]), g, s, anchor.channels, index, P.dilations[i], run.len[s],
                      Steps(AlphaSize(P.lengths[i], run.alpha, minL)))
    ensures Generating(run, P, status[i := Kept(anchor)], retained + [i], threshold[..], maskReturn[..], values[..],
                       channelIds[..], b1, b2)
  {
    var l, d, norm, nCh := P.lengths[i], P.dilations[i], P.normalize[i], P.nChannels[i];
    assert ShapeletStatus(run, i, status[i], threshold[i], maskReturn[i], l, d, norm, nCh);
    var chans := DrawChannels(run.rng, i, run.nFt, nCh);
    ghost var thr, ret, vals, ids := threshold[..], maskReturn[..], values[..], channelIds[..];
    RoomFor(run, P, status, retained, thr, ret, vals, ids, a1, a2, i);
    anchor := CutChannelShapelet(run, mask, values, channelIds, threshold, g, i, l, d, norm, minL, s, index, chans, a1, a2);
    KeepStep(run, P, status, retained, thr, ret, vals, ids, a1, a2, i, anchor);
    b1, b2 := a1 + |chans| * l, a2 + |chans|;
  }

  // ------------------------------------------------------------- loop order

  /** The loops have processed the shapelets whose dilation is in `unique_dil[..g]`
      and the first k of `id_shps`, and no other. */
  predicate Progress(P: Params, status: seq<Status>, uniqueDil: seq<int>, g: nat, idShps: seq<nat>, k: nat)
    requires |P.dilations| == |status| && g <= |uniqueDil| && k <= |idShps|
  {
    forall j :: 0 <= j < |status| ==> (status[j].Pending? <==> P.dilations[j] !in uniqueDil[..g] && j !in idShps[..k])
  }

  /** The next shapelet the loops reach, `id_shps[k]` of dilation `unique_dil[g]`, is
      still pending and comes after every retained one. */
  lemma NextInOrder(P: Params, status: seq<Status>, retained: seq<nat>, uniqueDil: seq<int>, g: nat,
                    idShps: seq<nat>, k: nat)
    requires |P.dilations| == |status| && Retained(P, status, retained)
    requires StrictlyIncreasing(uniqueDil) && g < |uniqueDil|
    requires idShps == Where(DilationMask(P.dilations, uniqueDil[g]))
    requires k < |idShps|
    requires Progress(P, status, uniqueDil, g, idShps, k)
    ensures idShps[k] < |status| && status[idShps[k]].Pending?
    ensures forall j :: 0 <= j < |retained| ==> Before(P.dilations, retained[j], idShps[k])
  {
    var i := idShps[k];
    assert P.dilations[i] == uniqueDil[g];
    assert forall q :: 0 <= q < g ==> uniqueDil[..g][q] < uniqueDil[g];
    assert forall q :: 0 <= q < k ==> idShps[..k][q] < i;
    forall j | 0 <= j < |retained|
      ensures Before(P.dilations, retained[j], i)
    {
      assert status[retained[j]].Kept?;
    }
  }

  /** `id_shps = where(dilations == dil)[0]` and `min_l = min(lengths[id_shps])`. */
  method ShapeletsOfDilation(P: Params, dil: int) returns (idShps: seq<nat>, minL: int)
    requires |P.lengths| == |P.dilations| && dil in P.dilations
    ensures idShps == Where(DilationMask(P.dilations, dil))
    ensures |idShps| > 0 && minL == MinOf(Select(P.lengths, idShps)) == GroupMinLength(P.lengths, P.dilations, dil)
  {
    var m := |P.dilations|;
    idShps := Where(DilationMask(P.dilations, dil));
    var k0 :| 0 <= k0 < m && P.dilations[k0] == dil;
    assert k0 in idShps;
    minL := MinOf(Select(P.lengths, idShps));
  }

  /** Processing shapelet `id_shps[k]` removes exactly it from the pending ones. */
  lemma PendingStep(P: Params, status: seq<Status>, status': seq<Status>, uniqueDil: seq<int>, g: nat,
                    idShps: seq<nat>, k: nat)
    requires |P.dilations| == |status| && k < |idShps| && idShps[k] < |status|
    requires g <= |uniqueDil| && |status'| == |status|
    requires status' == status[idShps[k] := status'[idShps[k]]] && !status'[idShps[k]].Pending?
    requires Progress(P, status, uniqueDil, g, idShps, k) && status[idShps[k]].Pending?
    ensures Progress(P, status', uniqueDil, g, idShps, k + 1)
  {
    PrefixMembershipStep(idShps, k);
  }

  /** Once every shapelet of dilation `unique_dil[g]` is processed, the pending ones
      are those whose dilation comes later. */
  lemma GroupDone(P: Params, status: seq<Status>, uniqueDil: seq<int>, g: nat, idShps: seq<nat>)
    requires |P.dilations| == |status| && g < |uniqueDil|
    requires idShps == Where(DilationMask(P.dilations, uniqueDil[g]))
    requires Progress(P, status, uniqueDil, g, idShps, |idShps|)
    ensures Progress(P, status, uniqueDil, g + 1, [], 0)
  {
    var sel := DilationMask(P.dilations, uniqueDil[g]);
    PrefixMembershipStep(uniqueDil, g);
    assert idShps[..|idShps|] == idShps;
    forall j | 0 <= j < |status|
      ensures status[j].Pending? <==> P.dilations[j] !in uniqueDil[..g + 1]
    {
      if j in idShps {
        var q :| 0 <= q < |idShps| && idShps[q] == j;
        assert sel[idShps[q]];
      }
    }
  }

  /** Before the loops every shapelet is pending. */
  lemma NothingProcessed(P: Params, uniqueDil: seq<int>)
    ensures Progress(P, AllPending(|P.dilations|), uniqueDil, 0, [], 0)
  {
  }

  /** After the loops over every unique dilation, no shapelet is pending. */
  lemma EverythingProcessed(P: Params, status: seq<Status>, uniqueDil: seq<int>)
    requires |P.dilations| == |status| && forall j :: 0 <= j < |P.dilations| ==> P.dilations[j] in uniqueDil
    requires Progress(P, status, uniqueDil, |uniqueDil|, [], 0)
    ensures forall i :: 0 <= i < |status| ==> !status[i].Pending?
  {
    assert uniqueDil[..|uniqueDil|] == uniqueDil;
    var none: seq<nat> := [];
    assert none[..0] == [];
    forall i | 0 <= i < |status|
      ensures !status[i].Pending?
    {
      assert P.dilations[i] in uniqueDil[..|uniqueDil|];
    }
  }
}
