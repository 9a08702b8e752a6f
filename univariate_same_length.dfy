/**
 * Univariate, same-length shapelets (`U_SL_*`): generation from a labelled
 * dataset and application to a dataset. Only channel 0 of every series is used.
 *
 * The self-similarity mask has one boolean per (normalisation flag, dilation
 * group, sample, time); a shapelet is cut from a cell that is still true, and
 * cutting clears the cells around it so that later shapelets of the same group
 * and flag are not cut from nearly the same place.
 */
module UnivariateSameLength {
  import opened ArrayOps
  import opened Commons
  import opened Sampling
  import opened Grouping

  /** Every series has a channel 0 of n points. */
  predicate Series(X: seq<seq<seq<real>>>, n: nat) {
    forall s :: 0 <= s < |X| ==> |X[s]| > 0 && |X[s][0]| == n
  }

  /** `int64(normalize[i])`, the first mask coordinate. */
  function NormIndex(b: bool): nat {
    if b then 1 else 0
  }

  /** The (flag, group) slice of the mask, one row per sample. */
  function MaskRows(mask: array4<bool>, norm: nat, g: nat): (rows: seq<seq<bool>>)
    requires norm < mask.Length0 && g < mask.Length1
    reads mask
    ensures |rows| == mask.Length2 && forall s :: 0 <= s < |rows| ==> |rows[s]| == mask.Length3
  {
    seq(mask.Length2, s requires 0 <= s < mask.Length2 reads mask =>
      seq(mask.Length3, t requires 0 <= t < mask.Length3 reads mask => mask[norm, g, s, t]))
  }

  /** Relative to the previous state, exactly the positions `Cleared(index, d, n, k)` of
      row s of slice (norm, g) have been set to false. */
  twostate predicate MaskCleared(mask: array4<bool>, norm: nat, g: nat, s: nat, index: int, d: int, k: nat)
    requires mask.Length3 > 0
    reads mask
  {
    forall a, b, c, t :: 0 <= a < mask.Length0 && 0 <= b < mask.Length1 && 0 <= c < mask.Length2 && 0 <= t < mask.Length3 ==>
      mask[a, b, c, t] == (old(mask[a, b, c, t]) && !(a == norm && b == g && c == s && t in Cleared(index, d, mask.Length3, k)))
  }

  /** Clears `(index -/+ j*d) % n` for j < k in row s of slice (norm, g); nothing else changes. */
  method ClearAround(mask: array4<bool>, norm: nat, g: nat, s: nat, index: int, d: int, k: int)
    requires norm < mask.Length0 && g < mask.Length1 && s < mask.Length2 && mask.Length3 > 0
    modifies mask
    ensures MaskCleared(mask, norm, g, s, index, d, Steps(k))
  {
    var n := mask.Length3;
    for j := 0 to Steps(k)
      invariant MaskCleared(mask, norm, g, s, index, d, j)
    {
      mask[norm, g, s, Back(index, d, n, j)] := false;
      mask[norm, g, s, Forth(index, d, n, j)] := false;
    }
  }

  /** Relative to the previous state, row i starts with v and nothing else changed. */
  twostate predicate RowWritten(values: array2<real>, i: nat, v: seq<real>)
    reads values
  {
    forall r, c :: 0 <= r < values.Length0 && 0 <= c < values.Length1 ==>
      values[r, c] == if r == i && c < |v| then v[c] else old(values[r, c])
  }

  /** `values[i, :|v|] = v`. */
  method WriteRow(values: array2<real>, i: nat, v: seq<real>)
    requires i < values.Length0 && |v| <= values.Length1
    modifies values
    ensures RowWritten(values, i, v)
  {
    for j := 0 to |v|
      invariant forall r, c :: 0 <= r < values.Length0 && 0 <= c < values.Length1 ==>
        values[r, c] == if r == i && c < j then v[c] else old(values[r, c])
    {
      values[i, j] := v[j];
    }
  }

  /** Relative to the previous state, only entry i changed, to x. */
  twostate predicate EntryWritten(a: array<real>, i: nat, x: real)
    reads a
  {
    forall r :: 0 <= r < a.Length ==> a[r] == if r == i then x else old(a[r])
  }

  /** The anchor lies inside the data and its comparison sample is the one drawn. */
  predicate ValidAnchor(X: seq<seq<seq<real>>>, y: seq<int>, n: nat, a: Anchor, i: nat, l: nat, d: nat, usePhase: bool, rng: Rng)
    requires WindowsFit(n, l, d, usePhase)
  {
    a.sample < |X| && a.sample < |y| && a.index < NumWindows(n, l, d, usePhase) && a.test < |X| &&
    a.test == ComparisonSample(rng, i, y, a.sample)
  }

  /** The shapelet's values: the anchor's window of channel 0. */
  function Candidate(X: seq<seq<seq<real>>>, n: nat, a: Anchor, l: nat, d: nat, norm: bool, usePhase: bool, zn: PointNorm): (v: seq<real>)
    requires Series(X, n) && WindowsFit(n, l, d, usePhase) && a.sample < |X| && a.index < NumWindows(n, l, d, usePhase)
    ensures |v| == l
  {
    Window(X[a.sample][0], a.index, l, d, norm, usePhase, zn)
  }

  /** The threshold: a uniform draw between the p_min and p_max percentiles of the
      candidate's distance profile on the comparison sample. */
  function CalibratedThreshold(X: seq<seq<seq<real>>>, n: nat, a: Anchor, i: nat, v: seq<real>, l: nat, d: nat, norm: bool,
                               usePhase: bool, pMin: real, pMax: real, seams: Seams, rng: Rng): real
    requires Series(X, n) && WindowsFit(n, l, d, usePhase) && a.test < |X|
  {
    var profile := DistProfile(X[a.test][0], v, l, d, norm, usePhase, seams.dist, seams.zn);
    Uniform(rng, ThresholdDraw(i), seams.percentile(profile, pMin), seams.percentile(profile, pMax))
  }

  /** The work done once an anchor (s, index) is drawn for shapelet i: clear the mask
      around it, cut the candidate, pick the comparison sample and draw the threshold
      between two percentiles of the candidate's distance profile on it. */
  method CutShapelet(X: seq<seq<seq<real>>>, y: seq<int>, n: nat, mask: array4<bool>, values: array2<real>,
                     threshold: array<real>, g: nat, i: nat, l: nat, d: nat, norm: bool, minL: int, alpha: real,
                     pMin: real, pMax: real, seams: Seams, usePhase: bool, rng: Rng, s: nat, index: nat)
    returns (anchor: Anchor)
    requires Series(X, n) && |y| == |X| && n > 0 && WindowsFit(n, l, d, usePhase)
    requires s < |X| && index < NumWindows(n, l, d, usePhase)
    requires mask.Length0 == 2 && g < mask.Length1 && mask.Length2 == |X| && mask.Length3 == n
    requires i < values.Length0 && i < threshold.Length && l <= values.Length1
    modifies mask, values, threshold
    ensures anchor.sample == s && anchor.index == index && ValidAnchor(X, y, n, anchor, i, l, d, usePhase, rng)
    ensures MaskCleared(mask, NormIndex(norm), g, s, index, d, Steps(AlphaSize(l, alpha, minL)))
    ensures var v := Candidate(X, n, anchor, l, d, norm, usePhase, seams.zn);
      RowWritten(values, i, v) &&
      EntryWritten(threshold, i, CalibratedThreshold(X, n, anchor, i, v, l, d, norm, usePhase, pMin, pMax, seams, rng))
  {
    ClearAround(mask, NormIndex(norm), g, s, index, d, AlphaSize(l, alpha, minL));
    var v := GetSubsequence(X[s][0], index, l, d, norm, usePhase, seams.zn);
    var test := ComparisonSample(rng, i, y, s);
    var xDist := ComputeShapeletDistVector(X[test][0], v, l, d, seams.dist, norm, usePhase, seams.zn);
    threshold[i] := Uniform(rng, ThresholdDraw(i), seams.percentile(xDist, pMin), seams.percentile(xDist, pMax));
    WriteRow(values, i, v);
    anchor := Anchor(s, index, test);
  }

  /** What generation leaves in a shapelet's value row: its candidate padded with
      zeros, or zeros when it has no anchor. */
  function DraftRow(X: seq<seq<seq<real>>>, n: nat, width: nat, a: Option<Anchor>, l: nat, d: nat, norm: bool,
                    usePhase: bool, zn: PointNorm): (row: seq<real>)
    requires Series(X, n)
    ensures |row| == width
  {
    if a.Some? && l <= width && WindowsFit(n, l, d, usePhase) && a.value.sample < |X| && a.value.index < NumWindows(n, l, d, usePhase)
    then Pad(Candidate(X, n, a.value, l, d, norm, usePhase, zn), width)
    else seq(width, _ => 0.0)
  }

  /** The pre-compaction state of a generation run. */
  datatype Draft = Draft(rows: seq<seq<real>>, lengths: seq<int>, dilations: seq<int>, threshold: seq<real>,
                         normalize: seq<bool>, anchors: seq<Option<Anchor>>)

  /** `mask_values`: a shapelet is kept when its value row is not all zero. */
  function KeepMask(rows: seq<seq<real>>): (keep: seq<bool>)
    ensures |keep| == |rows| && forall i :: 0 <= i < |rows| ==> (keep[i] <==> !AllZero(rows[i]))
  {
    seq(|rows|, i requires 0 <= i < |rows| => !AllZero(rows[i]))
  }

  /** Shapelet i's row and threshold are as its anchor (if any) dictates. */
  ghost predicate ShapeletDrafted(X: seq<seq<seq<real>>>, y: seq<int>, n: nat, values: array2<real>, threshold: array<real>,
                                  i: nat, a: Option<Anchor>, l: int, d: int, norm: bool,
                                  pMin: real, pMax: real, seams: Seams, usePhase: bool, rng: Rng)
    requires Series(X, n) && i < values.Length0 && i < threshold.Length
    reads values, threshold
  {
    1 <= l <= values.Length1 && d >= 0 && WindowsFit(n, l, d, usePhase) &&
    (var row := DraftRow(X, n, values.Length1, a, l, d, norm, usePhase, seams.zn);
     forall j :: 0 <= j < values.Length1 ==> values[i, j] == row[j]) &&
    (a.Some? ==>
       ValidAnchor(X, y, n, a.value, i, l, d, usePhase, rng) &&
       threshold[i] == CalibratedThreshold(X, n, a.value, i, Candidate(X, n, a.value, l, d, norm, usePhase, seams.zn),
                                           l, d, norm, usePhase, pMin, pMax, seams, rng))
  }

  /** The invariant of the generation loops: every shapelet is drafted. */
  ghost predicate Drafted(X: seq<seq<seq<real>>>, y: seq<int>, n: nat, values: array2<real>, threshold: array<real>,
                          lengths: seq<int>, dilations: seq<int>, normalize: seq<bool>, anchors: seq<Option<Anchor>>,
                          pMin: real, pMax: real, seams: Seams, usePhase: bool, rng: Rng)
    reads values, threshold
  {
    var m := |anchors|;
    Series(X, n) && |lengths| == m && |dilations| == m && |normalize| == m &&
    values.Length0 == m && threshold.Length == m &&
    forall i :: 0 <= i < m ==>
      ShapeletDrafted(X, y, n, values, threshold, i, anchors[i], lengths[i], dilations[i], normalize[i],
                      pMin, pMax, seams, usePhase, rng)
  }

  /** One pass of the inner generation loop for shapelet i: draw an anchor among the
      true cells of its mask slice left of d_shape and cut the shapelet there, or leave
      everything as it is when the slice has no true cell left. The drafted state
      then records the anchor. */
  method SampleAndRecord(X: seq<seq<seq<real>>>, y: seq<int>, n: nat, mask: array4<bool>, values: array2<real>,
                         threshold: array<real>, lengths: seq<int>, dilations: seq<int>, normalize: seq<bool>,
                         ghost anchors: seq<Option<Anchor>>, g: nat, i: nat, minL: int, alpha: real, pMin: real, pMax: real,
                         seams: Seams, usePhase: bool, rng: Rng)
    returns (a: Option<Anchor>)
    requires Drafted(X, y, n, values, threshold, lengths, dilations, normalize, anchors, pMin, pMax, seams, usePhase, rng)
    requires |y| == |X| && n > 0 && i < |anchors|
    requires mask.Length0 == 2 && g < mask.Length1 && mask.Length2 == |X| && mask.Length3 == n
    modifies mask, values, threshold
    ensures 1 <= lengths[i] && 0 <= dilations[i] && WindowsFit(n, lengths[i], dilations[i], usePhase) &&
      var open := TrueCells(old(MaskRows(mask, NormIndex(normalize[i]), g)), NumWindows(n, lengths[i], dilations[i], usePhase));
      (a.None? <==> open == []) &&
      (a.Some? ==> (a.value.sample, a.value.index) == PickCell(rng, i, open))
    ensures a.None? ==> unchanged(mask) && unchanged(values) && unchanged(threshold)
    ensures a.Some? ==> MaskCleared(mask, NormIndex(normalize[i]), g, a.value.sample, a.value.index, dilations[i],
                                    Steps(AlphaSize(lengths[i], alpha, minL)))
    ensures Drafted(X, y, n, values, threshold, lengths, dilations, normalize, if a.Some? then anchors[i := a] else anchors,
                    pMin, pMax, seams, usePhase, rng)
  {
    var l, d := lengths[i], dilations[i];
    assert ShapeletDrafted(X, y, n, values, threshold, i, anchors[i], l, d, normalize[i], pMin, pMax, seams, usePhase, rng);
    var dShape := if usePhase then n else n - (l - 1) * d;
    var cells := TrueCells(MaskRows(mask, NormIndex(normalize[i]), g), dShape);
    if |cells| == 0 {
      return None;
    }
    var cell := PickCell(rng, i, cells);
    var anchor := CutAndRecord(X, y, n, mask, values, threshold, lengths, dilations, normalize, anchors, g, i, minL, alpha,
                               pMin, pMax, seams, usePhase, rng, cell.0, cell.1);
    a := Some(anchor);
  }

  /** Cutting shapelet i at (s, index) leaves every other shapelet drafted and drafts
      shapelet i at its anchor. */
  method CutAndRecord(X: seq<seq<seq<real>>>, y: seq<int>, n: nat, mask: array4<bool>, values: array2<real>,
                      threshold: array<real>, lengths: seq<int>, dilations: seq<int>, normalize: seq<bool>,
                      ghost anchors: seq<Option<Anchor>>, g: nat, i: nat, minL: int, alpha: real, pMin: real, pMax: real,
                      seams: Seams, usePhase: bool, rng: Rng, s: nat, index: nat)
    returns (anchor: Anchor)
    requires Drafted(X, y, n, values, threshold, lengths, dilations, normalize, anchors, pMin, pMax, seams, usePhase, rng)
    requires |y| == |X| && n > 0 && i < |anchors|
    requires 1 <= lengths[i] && 0 <= dilations[i] && WindowsFit(n, lengths[i], dilations[i], usePhase)
    requires s < |X| && index < NumWindows(n, lengths[i], dilations[i], usePhase)
    requires mask.Length0 == 2 && g < mask.Length1 && mask.Length2 == |X| && mask.Length3 == n
    modifies mask, values, threshold
    ensures anchor.sample == s && anchor.index == index
    ensures MaskCleared(mask, NormIndex(normalize[i]), g, s, index, dilations[i], Steps(AlphaSize(lengths[i], alpha, minL)))
    ensures Drafted(X, y, n, values, threshold, lengths, dilations, normalize, anchors[i := Some(anchor)],
                    pMin, pMax, seams, usePhase, rng)
  {
    var l, d := lengths[i], dilations[i];
    assert ShapeletDrafted(X, y, n, values, threshold, i, anchors[i], l, d, normalize[i], pMin, pMax, seams, usePhase, rng);
    anchor := CutShapelet(X, y, n, mask, values, threshold, g, i, l, d, normalize[i], minL, alpha, pMin, pMax, seams,
                          usePhase, rng, s, index);
    var w := values.Length1;
    forall k | 0 <= k < |anchors| && k != i
      ensures ShapeletDrafted(X, y, n, values, threshold, k, anchors[k], lengths[k], dilations[k], normalize[k],
                              pMin, pMax, seams, usePhase, rng)
    {
      assert old(ShapeletDrafted(X, y, n, values, threshold, k, anchors[k], lengths[k], dilations[k], normalize[k],
                                 pMin, pMax, seams, usePhase, rng));
      assert forall j :: 0 <= j < w ==> values[k, j] == old(values[k, j]);
    }
    assert old(ShapeletDrafted(X, y, n, values, threshold, i, anchors[i], l, d, normalize[i], pMin, pMax, seams, usePhase, rng));
    var row := DraftRow(X, n, w, Some(anchor), l, d, normalize[i], usePhase, seams.zn);
    forall c | 0 <= c < w
      ensures values[i, c] == row[c]
    {
      if l <= c {
        assert old(values[i, c]) == 0.0;
      }
    }
    assert ShapeletDrafted(X, y, n, values, threshold, i, Some(anchor), l, d, normalize[i], pMin, pMax, seams, usePhase, rng);
  }

  /** What generation leaves for shapelet i before compaction: its row as its anchor
      (if any) dictates and, with an anchor, the calibrated threshold. */
  ghost predicate ShapeletOutcome(X: seq<seq<seq<real>>>, y: seq<int>, n: nat, width: nat, i: nat, row: seq<real>,
                                  thr: real, a: Option<Anchor>, l: int, d: int, norm: bool,
                                  pMin: real, pMax: real, seams: Seams, usePhase: bool, rng: Rng)
    requires Series(X, n)
  {
    1 <= l && d >= 0 && WindowsFit(n, l, d, usePhase) &&
    row == DraftRow(X, n, width, a, l, d, norm, usePhase, seams.zn) &&
    (a.Some? ==>
       ValidAnchor(X, y, n, a.value, i, l, d, usePhase, rng) &&
       thr == CalibratedThreshold(X, n, a.value, i, Candidate(X, n, a.value, l, d, norm, usePhase, seams.zn),
                                  l, d, norm, usePhase, pMin, pMax, seams, rng))
  }

  /** A drafted state, read back as per-shapelet outcomes. */
  lemma DraftedOutcomes(X: seq<seq<seq<real>>>, y: seq<int>, n: nat, values: array2<real>, threshold: array<real>,
                        lengths: seq<int>, dilations: seq<int>, normalize: seq<bool>, anchors: seq<Option<Anchor>>,
                        pMin: real, pMax: real, seams: Seams, usePhase: bool, rng: Rng)
    requires Drafted(X, y, n, values, threshold, lengths, dilations, normalize, anchors, pMin, pMax, seams, usePhase, rng)
    ensures forall i :: 0 <= i < |anchors| ==>
      ShapeletOutcome(X, y, n, values.Length1, i, Row(values, i), threshold[i], anchors[i], lengths[i], dilations[i],
                      normalize[i], pMin, pMax, seams, usePhase, rng)
  {
    forall i | 0 <= i < |anchors|
      ensures ShapeletOutcome(X, y, n, values.Length1, i, Row(values, i), threshold[i], anchors[i], lengths[i], dilations[i],
                              normalize[i], pMin, pMax, seams, usePhase, rng)
    {
      assert ShapeletDrafted(X, y, n, values, threshold, i, anchors[i], lengths[i], dilations[i], normalize[i],
                             pMin, pMax, seams, usePhase, rng);
    }
  }

  // --------------------------------------------------------- the seen mask

  /** Every shapelet's windows fit a series of n points. */
  predicate Fits(n: nat, lengths: seq<int>, dilations: seq<int>, usePhase: bool) {
    |lengths| == |dilations| &&
    forall j :: 0 <= j < |lengths| ==> 1 <= lengths[j] && 0 <= dilations[j] && WindowsFit(n, lengths[j], dilations[j], usePhase)
  }

  /** Position t of sample s lies in the span shapelet j cleared when it was cut: j has
      an anchor in sample s and t is one of `Cleared(index, d, n, k)` for its dilation
      d and the clearing size k of its group. */
  predicate ClearedBy(n: nat, lengths: seq<int>, dilations: seq<int>, alpha: real, anchors: seq<Option<Anchor>>,
                      j: nat, s: nat, t: nat)
    requires |lengths| == |dilations| == |anchors| && j < |anchors| && n > 0
  {
    anchors[j].Some? && anchors[j].value.sample == s &&
    t in Cleared(anchors[j].value.index, dilations[j], n,
                 Steps(AlphaSize(lengths[j], alpha, GroupMinLength(lengths, dilations, dilations[j]))))
  }

  /** Cell (s, t) is still open for shapelet i: no shapelet j < i of the same dilation
      and flag has cleared it. */
  predicate OpenFor(n: nat, lengths: seq<int>, dilations: seq<int>, normalize: seq<bool>, alpha: real,
                    anchors: seq<Option<Anchor>>, i: nat, s: nat, t: nat)
    requires |lengths| == |dilations| == |normalize| == |anchors| && i < |anchors| && n > 0
  {
    forall j :: 0 <= j < i && dilations[j] == dilations[i] && normalize[j] == normalize[i] ==>
      !ClearedBy(n, lengths, dilations, alpha, anchors, j, s, t)
  }

  /** Slice (flag, group) of the mask as shapelet i finds it: one row of n cells per
      sample, a cell true when it is open for i. Within a group the shapelets are
      processed in index order, so the shapelets j < i of i's dilation and flag are
      the ones cut from this slice before i. */
  function SeenRows(nSamples: nat, n: nat, lengths: seq<int>, dilations: seq<int>, normalize: seq<bool>, alpha: real,
                    anchors: seq<Option<Anchor>>, i: nat): (rows: seq<seq<bool>>)
    requires |lengths| == |dilations| == |normalize| == |anchors| && i < |anchors| && n > 0
    ensures |rows| == nSamples && forall s :: 0 <= s < nSamples ==> |rows[s]| == n
  {
    seq(nSamples, s requires 0 <= s < nSamples =>
      seq(n, t requires 0 <= t < n => OpenFor(n, lengths, dilations, normalize, alpha, anchors, i, s, t)))
  }

  /** The cells shapelet i finds open left of d_shape, row by row. */
  function OpenCells(nSamples: nat, n: nat, lengths: seq<int>, dilations: seq<int>, normalize: seq<bool>, alpha: real,
                     usePhase: bool, anchors: seq<Option<Anchor>>, i: nat): (cells: seq<(nat, nat)>)
    requires Fits(n, lengths, dilations, usePhase) && |normalize| == |anchors| == |lengths| && i < |anchors| && n > 0
  {
    TrueCells(SeenRows(nSamples, n, lengths, dilations, normalize, alpha, anchors, i),
              NumWindows(n, lengths[i], dilations[i], usePhase))
  }

  /** Anchor a is shapelet i's draw from the cells `open`: none when there is none. */
  predicate DrawnFrom(open: seq<(nat, nat)>, rng: Rng, i: nat, a: Option<Anchor>) {
    (a.None? <==> open == []) && (a.Some? ==> (a.value.sample, a.value.index) == PickCell(rng, i, open))
  }

  /** Shapelet i has no anchor exactly when it finds no open cell left of d_shape, and
      otherwise its anchor is the cell drawn among those. */
  predicate AnchorDrawn(nSamples: nat, n: nat, lengths: seq<int>, dilations: seq<int>, normalize: seq<bool>, alpha: real,
                        usePhase: bool, rng: Rng, anchors: seq<Option<Anchor>>, i: nat)
    requires Fits(n, lengths, dilations, usePhase) && |normalize| == |anchors| == |lengths| && i < |anchors| && n > 0
  {
    DrawnFrom(OpenCells(nSamples, n, lengths, dilations, normalize, alpha, usePhase, anchors, i), rng, i, anchors[i])
  }

  /** An anchored shapelet was cut from a cell no earlier shapelet of its dilation and
      flag had cleared: shapelets of one slice are not cut from nearly the same place. */
  lemma AnchorOutsideEarlierCuts(nSamples: nat, n: nat, lengths: seq<int>, dilations: seq<int>, normalize: seq<bool>,
                                 alpha: real, usePhase: bool, rng: Rng, anchors: seq<Option<Anchor>>, i: nat, j: nat)
    requires Fits(n, lengths, dilations, usePhase) && |normalize| == |anchors| == |lengths| && n > 0 && i < |anchors|
    requires AnchorDrawn(nSamples, n, lengths, dilations, normalize, alpha, usePhase, rng, anchors, i) && anchors[i].Some?
    requires j < i && dilations[j] == dilations[i] && normalize[j] == normalize[i]
    ensures anchors[i].value.sample < nSamples && anchors[i].value.index < NumWindows(n, lengths[i], dilations[i], usePhase)
    ensures !ClearedBy(n, lengths, dilations, alpha, anchors, j, anchors[i].value.sample, anchors[i].value.index)
  {
    var rows := SeenRows(nSamples, n, lengths, dilations, normalize, alpha, anchors, i);
    var c := PickCell(rng, i, OpenCells(nSamples, n, lengths, dilations, normalize, alpha, usePhase, anchors, i));
    assert rows[c.0][c.1];
  }

  /** Without an anchor, shapelet i found every cell of its slice left of d_shape closed. */
  lemma UnanchoredFindsSliceCleared(nSamples: nat, n: nat, lengths: seq<int>, dilations: seq<int>,
                                    normalize: seq<bool>, alpha: real, usePhase: bool, rng: Rng,
                                    anchors: seq<Option<Anchor>>, i: nat)
    requires Fits(n, lengths, dilations, usePhase) && |normalize| == |anchors| == |lengths| && n > 0 && i < |anchors|
    requires AnchorDrawn(nSamples, n, lengths, dilations, normalize, alpha, usePhase, rng, anchors, i)
    requires anchors[i].None?
    ensures forall s, t :: 0 <= s < nSamples && 0 <= t < NumWindows(n, lengths[i], dilations[i], usePhase) ==>
              !OpenFor(n, lengths, dilations, normalize, alpha, anchors, i, s, t)
  {
    var w := NumWindows(n, lengths[i], dilations[i], usePhase);
    NonNegativeProduct(lengths[i] - 1, dilations[i]);
    assert w <= n;
    SliceClosedWithoutCells(nSamples, n, lengths, dilations, normalize, alpha, anchors, i, w);
  }

  /** When the seen slice has no true cell left of w, every cell there is closed. */
  lemma SliceClosedWithoutCells(nSamples: nat, n: nat, lengths: seq<int>, dilations: seq<int>, normalize: seq<bool>,
                                alpha: real, anchors: seq<Option<Anchor>>, i: nat, w: nat)
    requires |lengths| == |dilations| == |normalize| == |anchors| && i < |anchors| && 0 < n && w <= n
    requires TrueCells(SeenRows(nSamples, n, lengths, dilations, normalize, alpha, anchors, i), w) == []
    ensures forall s, t :: 0 <= s < nSamples && 0 <= t < w ==>
              !OpenFor(n, lengths, dilations, normalize, alpha, anchors, i, s, t)
  {
    var rows := SeenRows(nSamples, n, lengths, dilations, normalize, alpha, anchors, i);
    forall s, t | 0 <= s < nSamples && 0 <= t < w
      ensures !OpenFor(n, lengths, dilations, normalize, alpha, anchors, i, s, t)
    {
      assert (s, t) !in TrueCells(rows, w);
      assert rows[s][t] == OpenFor(n, lengths, dilations, normalize, alpha, anchors, i, s, t);
    }
  }

  /** With an anchor, the anchor's own cell was open for shapelet i. */
  lemma AnchoredFindsCellOpen(nSamples: nat, n: nat, lengths: seq<int>, dilations: seq<int>,
                              normalize: seq<bool>, alpha: real, usePhase: bool, rng: Rng,
                              anchors: seq<Option<Anchor>>, i: nat)
    requires Fits(n, lengths, dilations, usePhase) && |normalize| == |anchors| == |lengths| && n > 0 && i < |anchors|
    requires AnchorDrawn(nSamples, n, lengths, dilations, normalize, alpha, usePhase, rng, anchors, i)
    requires anchors[i].Some?
    ensures anchors[i].value.sample < nSamples && anchors[i].value.index < NumWindows(n, lengths[i], dilations[i], usePhase)
    ensures OpenFor(n, lengths, dilations, normalize, alpha, anchors, i, anchors[i].value.sample, anchors[i].value.index)
  {
    var rows := SeenRows(nSamples, n, lengths, dilations, normalize, alpha, anchors, i);
    var c := PickCell(rng, i, OpenCells(nSamples, n, lengths, dilations, normalize, alpha, usePhase, anchors, i));
    assert rows[c.0][c.1];
  }

  /** A shapelet is left without an anchor exactly when every cell of its slice left of
      d_shape has been cleared by an earlier shapelet of its dilation and flag. */
  lemma UnanchoredExactlyWhenSliceCleared(nSamples: nat, n: nat, lengths: seq<int>, dilations: seq<int>,
                                          normalize: seq<bool>, alpha: real, usePhase: bool, rng: Rng,
                                          anchors: seq<Option<Anchor>>, i: nat)
    requires Fits(n, lengths, dilations, usePhase) && |normalize| == |anchors| == |lengths| && n > 0 && i < |anchors|
    requires AnchorDrawn(nSamples, n, lengths, dilations, normalize, alpha, usePhase, rng, anchors, i)
    ensures anchors[i].None? <==>
      forall s, t :: 0 <= s < nSamples && 0 <= t < NumWindows(n, lengths[i], dilations[i], usePhase) ==>
        !OpenFor(n, lengths, dilations, normalize, alpha, anchors, i, s, t)
  {
    if anchors[i].None? {
      UnanchoredFindsSliceCleared(nSamples, n, lengths, dilations, normalize, alpha, usePhase, rng, anchors, i);
    } else {
      AnchoredFindsCellOpen(nSamples, n, lengths, dilations, normalize, alpha, usePhase, rng, anchors, i);
    }
  }

  /** Cell (flag a, group b, s, t) is open: no shapelet of flag a and of dilation
      `unique_dil[b]` has cleared it. */
  predicate Untouched(n: nat, uniqueDil: seq<int>, lengths: seq<int>, dilations: seq<int>, normalize: seq<bool>,
                      alpha: real, anchors: seq<Option<Anchor>>, a: nat, b: nat, c: nat, t: nat)
    requires |lengths| == |dilations| == |normalize| == |anchors| && b < |uniqueDil| && n > 0
  {
    forall j :: 0 <= j < |anchors| && dilations[j] == uniqueDil[b] && NormIndex(normalize[j]) == a ==>
      !ClearedBy(n, lengths, dilations, alpha, anchors, j, c, t)
  }

  /** Every cell of the mask is true exactly when it is untouched by the cuts. */
  predicate MaskTracks(mask: array4<bool>, uniqueDil: seq<int>, lengths: seq<int>, dilations: seq<int>,
                       normalize: seq<bool>, alpha: real, anchors: seq<Option<Anchor>>)
    requires |lengths| == |dilations| == |normalize| == |anchors| && mask.Length1 == |uniqueDil| && mask.Length3 > 0
    reads mask
  {
    forall a, b, c, t :: 0 <= a < mask.Length0 && 0 <= b < mask.Length1 && 0 <= c < mask.Length2 && 0 <= t < mask.Length3 ==>
      mask[a, b, c, t] == Untouched(mask.Length3, uniqueDil, lengths, dilations, normalize, alpha, anchors, a, b, c, t)
  }

  /** Cutting shapelet i of dilation `unique_dil[g]` at an anchor touches exactly the
      cells it clears in slice (flag of i, g). */
  lemma UntouchedStep(n: nat, uniqueDil: seq<int>, lengths: seq<int>, dilations: seq<int>, normalize: seq<bool>,
                      alpha: real, anchors: seq<Option<Anchor>>, g: nat, i: nat, anchor: Anchor)
    requires |lengths| == |dilations| == |normalize| == |anchors| && n > 0
    requires StrictlyIncreasing(uniqueDil) && g < |uniqueDil| && i < |anchors| && dilations[i] == uniqueDil[g]
    requires anchors[i].None?
    ensures forall a: nat, b: nat, c: nat, t: nat :: b < |uniqueDil| ==>
      (Untouched(n, uniqueDil, lengths, dilations, normalize, alpha, anchors[i := Some(anchor)], a, b, c, t) <==>
       Untouched(n, uniqueDil, lengths, dilations, normalize, alpha, anchors, a, b, c, t) &&
       !(a == NormIndex(normalize[i]) && b == g && c == anchor.sample &&
         t in Cleared(anchor.index, dilations[i], n, Steps(AlphaSize(lengths[i], alpha, GroupMinLength(lengths, dilations, dilations[i]))))))
  {
    var after := anchors[i := Some(anchor)];
    forall a: nat, b: nat, c: nat, t: nat | b < |uniqueDil|
      ensures Untouched(n, uniqueDil, lengths, dilations, normalize, alpha, after, a, b, c, t) <==>
       Untouched(n, uniqueDil, lengths, dilations, normalize, alpha, anchors, a, b, c, t) &&
       !(a == NormIndex(normalize[i]) && b == g && c == anchor.sample &&
         t in Cleared(anchor.index, dilations[i], n, Steps(AlphaSize(lengths[i], alpha, GroupMinLength(lengths, dilations, dilations[i])))))
    {
      assert b == g <==> uniqueDil[b] == uniqueDil[g];
      assert !ClearedBy(n, lengths, dilations, alpha, anchors, i, c, t);
      forall j | 0 <= j < |after| && j != i
        ensures ClearedBy(n, lengths, dilations, alpha, after, j, c, t) == ClearedBy(n, lengths, dilations, alpha, anchors, j, c, t)
      {
        assert after[j] == anchors[j];
      }
    }
  }

  /** The loops have processed shapelet j: its dilation is in `unique_dil[..g]`, or it
      is among the first k of `id_shps`. */
  predicate Processed(dilations: seq<int>, uniqueDil: seq<int>, g: nat, idShps: seq<nat>, k: nat, j: nat)
    requires g <= |uniqueDil| && k <= |idShps| && j < |dilations|
  {
    dilations[j] in uniqueDil[..g] || j in idShps[..k]
  }

  /** The loops have drawn every processed shapelet's anchor from the cells it found
      open, and only processed shapelets have an anchor. */
  predicate DrawnSoFar(nSamples: nat, n: nat, uniqueDil: seq<int>, g: nat, idShps: seq<nat>, k: nat, lengths: seq<int>,
                       dilations: seq<int>, normalize: seq<bool>, alpha: real, usePhase: bool, rng: Rng,
                       anchors: seq<Option<Anchor>>)
  {
    n > 0 && Fits(n, lengths, dilations, usePhase) && |normalize| == |anchors| == |lengths| &&
    g <= |uniqueDil| && k <= |idShps| &&
    (forall j :: 0 <= j < |anchors| && anchors[j].Some? ==> Processed(dilations, uniqueDil, g, idShps, k, j)) &&
    (forall j :: 0 <= j < |anchors| && Processed(dilations, uniqueDil, g, idShps, k, j) ==>
       AnchorDrawn(nSamples, n, lengths, dilations, normalize, alpha, usePhase, rng, anchors, j))
  }

  /** The invariant of the generation loops over the mask: the anchors drawn so far
      are as `DrawnSoFar` says, and the mask tracks their cuts. */
  predicate Sampled(mask: array4<bool>, uniqueDil: seq<int>, g: nat, idShps: seq<nat>, k: nat, lengths: seq<int>,
                    dilations: seq<int>, normalize: seq<bool>, alpha: real, usePhase: bool, rng: Rng,
                    anchors: seq<Option<Anchor>>)
    reads mask
  {
    mask.Length0 == 2 && mask.Length1 == |uniqueDil| &&
    DrawnSoFar(mask.Length2, mask.Length3, uniqueDil, g, idShps, k, lengths, dilations, normalize, alpha, usePhase, rng,
               anchors) &&
    MaskTracks(mask, uniqueDil, lengths, dilations, normalize, alpha, anchors)
  }

  /** Giving shapelet i0 an anchor changes nothing shapelet i finds open when i0 is of
      another dilation or does not come before i. */
  lemma SeenRowsUnchanged(nSamples: nat, n: nat, lengths: seq<int>, dilations: seq<int>, normalize: seq<bool>, alpha: real,
                          anchors: seq<Option<Anchor>>, i: nat, i0: nat, a: Option<Anchor>)
    requires |lengths| == |dilations| == |normalize| == |anchors| && i < |anchors| && i0 < |anchors| && n > 0
    requires dilations[i0] != dilations[i] || i <= i0
    ensures SeenRows(nSamples, n, lengths, dilations, normalize, alpha, anchors[i0 := a], i) ==
            SeenRows(nSamples, n, lengths, dilations, normalize, alpha, anchors, i)
  {
    var after := anchors[i0 := a];
    var rows := SeenRows(nSamples, n, lengths, dilations, normalize, alpha, after, i);
    var rows0 := SeenRows(nSamples, n, lengths, dilations, normalize, alpha, anchors, i);
    forall s | 0 <= s < nSamples
      ensures rows[s] == rows0[s]
    {
      forall t | 0 <= t < n
        ensures rows[s][t] == rows0[s][t]
      {
        forall j | 0 <= j < i && dilations[j] == dilations[i]
          ensures ClearedBy(n, lengths, dilations, alpha, after, j, s, t) == ClearedBy(n, lengths, dilations, alpha, anchors, j, s, t)
        {
          assert after[j] == anchors[j];
        }
      }
    }
  }

  /** When the mask tracks the cuts and every anchored shapelet of i's dilation comes
      before i, slice (flag of i, g) of the mask is what shapelet i finds open. */
  lemma MaskIsSeen(mask: array4<bool>, uniqueDil: seq<int>, lengths: seq<int>, dilations: seq<int>, normalize: seq<bool>,
                   alpha: real, anchors: seq<Option<Anchor>>, g: nat, i: nat)
    requires |lengths| == |dilations| == |normalize| == |anchors| && mask.Length0 == 2 && mask.Length1 == |uniqueDil|
    requires mask.Length3 > 0 && MaskTracks(mask, uniqueDil, lengths, dilations, normalize, alpha, anchors)
    requires g < |uniqueDil| && i < |anchors| && dilations[i] == uniqueDil[g]
    requires forall j :: 0 <= j < |anchors| && anchors[j].Some? && dilations[j] == dilations[i] ==> j < i
    ensures MaskRows(mask, NormIndex(normalize[i]), g) ==
            SeenRows(mask.Length2, mask.Length3, lengths, dilations, normalize, alpha, anchors, i)
  {
    var n, norm := mask.Length3, NormIndex(normalize[i]);
    var rows := MaskRows(mask, norm, g);
    var seen := SeenRows(mask.Length2, n, lengths, dilations, normalize, alpha, anchors, i);
    forall s | 0 <= s < mask.Length2
      ensures rows[s] == seen[s]
    {
      forall t | 0 <= t < n
        ensures rows[s][t] == seen[s][t]
      {
        assert rows[s][t] == mask[norm, g, s, t] == Untouched(n, uniqueDil, lengths, dilations, normalize, alpha, anchors, norm, g, s, t);
        assert seen[s][t] == OpenFor(n, lengths, dilations, normalize, alpha, anchors, i, s, t);
      }
    }
  }

  /** Shapelet `id_shps[k]` has dilation `unique_dil[g]`, is not processed yet, and every
      processed shapelet has another dilation or comes before it. */
  lemma NextUnprocessed(dilations: seq<int>, uniqueDil: seq<int>, g: nat, idShps: seq<nat>, k: nat)
    requires StrictlyIncreasing(uniqueDil) && g < |uniqueDil|
    requires idShps == Where(DilationMask(dilations, uniqueDil[g])) && k < |idShps|
    ensures idShps[k] < |dilations| && dilations[idShps[k]] == uniqueDil[g]
    ensures !Processed(dilations, uniqueDil, g, idShps, k, idShps[k])
    ensures forall j :: 0 <= j < |dilations| && Processed(dilations, uniqueDil, g, idShps, k, j) ==>
      dilations[j] != uniqueDil[g] || j < idShps[k]
  {
    assert forall q :: 0 <= q < g ==> uniqueDil[..g][q] < uniqueDil[g];
    assert forall q :: 0 <= q < k ==> idShps[..k][q] < idShps[k];
  }

  /** The next shapelet has no anchor yet, and every anchored shapelet of its dilation
      comes before it. */
  lemma NextShapelet(nSamples: nat, n: nat, uniqueDil: seq<int>, g: nat, idShps: seq<nat>, k: nat, lengths: seq<int>,
                     dilations: seq<int>, normalize: seq<bool>, alpha: real, usePhase: bool, rng: Rng,
                     anchors: seq<Option<Anchor>>)
    requires DrawnSoFar(nSamples, n, uniqueDil, g, idShps, k, lengths, dilations, normalize, alpha, usePhase, rng, anchors)
    requires StrictlyIncreasing(uniqueDil) && g < |uniqueDil|
    requires idShps == Where(DilationMask(dilations, uniqueDil[g])) && k < |idShps|
    ensures idShps[k] < |anchors| && dilations[idShps[k]] == uniqueDil[g] && anchors[idShps[k]].None?
    ensures forall j :: 0 <= j < |anchors| && anchors[j].Some? && dilations[j] == dilations[idShps[k]] ==> j < idShps[k]
  {
    NextUnprocessed(dilations, uniqueDil, g, idShps, k);
  }

  /** Giving shapelet i0 an anchor keeps shapelet i's anchor drawn from the cells it
      finds open when i0 is of another dilation or comes after i. */
  lemma DrawnKept(nSamples: nat, n: nat, lengths: seq<int>, dilations: seq<int>, normalize: seq<bool>, alpha: real,
                  usePhase: bool, rng: Rng, anchors: seq<Option<Anchor>>, i: nat, i0: nat, a: Option<Anchor>)
    requires Fits(n, lengths, dilations, usePhase) && |normalize| == |anchors| == |lengths| && n > 0
    requires i < |anchors| && i0 < |anchors| && i != i0 && (dilations[i0] != dilations[i] || i < i0)
    requires AnchorDrawn(nSamples, n, lengths, dilations, normalize, alpha, usePhase, rng, anchors, i)
    ensures AnchorDrawn(nSamples, n, lengths, dilations, normalize, alpha, usePhase, rng, anchors[i0 := a], i)
  {
    SeenRowsUnchanged(nSamples, n, lengths, dilations, normalize, alpha, anchors, i, i0, a);
    assert OpenCells(nSamples, n, lengths, dilations, normalize, alpha, usePhase, anchors[i0 := a], i) ==
           OpenCells(nSamples, n, lengths, dilations, normalize, alpha, usePhase, anchors, i);
  }

  /** Recording shapelet i's draw from the cells it finds open makes its anchor drawn. */
  lemma DrawnNew(nSamples: nat, n: nat, lengths: seq<int>, dilations: seq<int>, normalize: seq<bool>, alpha: real,
                 usePhase: bool, rng: Rng, anchors: seq<Option<Anchor>>, i: nat, a: Option<Anchor>)
    requires Fits(n, lengths, dilations, usePhase) && |normalize| == |anchors| == |lengths| && n > 0 && i < |anchors|
    requires DrawnFrom(OpenCells(nSamples, n, lengths, dilations, normalize, alpha, usePhase, anchors, i), rng, i, a)
    ensures AnchorDrawn(nSamples, n, lengths, dilations, normalize, alpha, usePhase, rng, anchors[i := a], i)
  {
    SeenRowsUnchanged(nSamples, n, lengths, dilations, normalize, alpha, anchors, i, i, a);
    assert OpenCells(nSamples, n, lengths, dilations, normalize, alpha, usePhase, anchors[i := a], i) ==
           OpenCells(nSamples, n, lengths, dilations, normalize, alpha, usePhase, anchors, i);
  }

  /** Recording the draw of the next shapelet, made from the cells it finds open, keeps
      `DrawnSoFar` with one more shapelet processed. */
  lemma DrawnStep(nSamples: nat, n: nat, uniqueDil: seq<int>, g: nat, idShps: seq<nat>, k: nat, lengths: seq<int>,
                  dilations: seq<int>, normalize: seq<bool>, alpha: real, usePhase: bool, rng: Rng,
                  anchors: seq<Option<Anchor>>, a: Option<Anchor>)
    requires DrawnSoFar(nSamples, n, uniqueDil, g, idShps, k, lengths, dilations, normalize, alpha, usePhase, rng, anchors)
    requires StrictlyIncreasing(uniqueDil) && g < |uniqueDil|
    requires idShps == Where(DilationMask(dilations, uniqueDil[g])) && k < |idShps| && idShps[k] < |anchors|
    requires DrawnFrom(OpenCells(nSamples, n, lengths, dilations, normalize, alpha, usePhase, anchors, idShps[k]), rng,
                       idShps[k], a)
    ensures DrawnSoFar(nSamples, n, uniqueDil, g, idShps, k + 1, lengths, dilations, normalize, alpha, usePhase, rng,
                       anchors[idShps[k] := a])
  {
    var i := idShps[k];
    var after := anchors[i := a];
    NextUnprocessed(dilations, uniqueDil, g, idShps, k);
    PrefixMembershipStep(idShps, k);
    StepDrawsProcessed(nSamples, n, uniqueDil, g, idShps, k, k + 1, lengths, dilations, normalize, alpha, usePhase, rng,
                       anchors, a, after);
    forall j | 0 <= j < |after| && after[j].Some?
      ensures Processed(dilations, uniqueDil, g, idShps, k + 1, j)
    {
      if j != i {
        assert after[j] == anchors[j];
      }
    }
  }

  /** The first half of `DrawnStep`: every shapelet processed after the step has its
      anchor drawn from the cells it found open. */
  lemma StepDrawsProcessed(nSamples: nat, n: nat, uniqueDil: seq<int>, g: nat, idShps: seq<nat>, k: nat, k1: nat,
                           lengths: seq<int>, dilations: seq<int>, normalize: seq<bool>, alpha: real, usePhase: bool,
                           rng: Rng, anchors: seq<Option<Anchor>>, a: Option<Anchor>, after: seq<Option<Anchor>>)
    requires DrawnSoFar(nSamples, n, uniqueDil, g, idShps, k, lengths, dilations, normalize, alpha, usePhase, rng, anchors)
    requires StrictlyIncreasing(uniqueDil) && g < |uniqueDil|
    requires idShps == Where(DilationMask(dilations, uniqueDil[g])) && k < |idShps| && idShps[k] < |anchors|
    requires DrawnFrom(OpenCells(nSamples, n, lengths, dilations, normalize, alpha, usePhase, anchors, idShps[k]), rng,
                       idShps[k], a)
    requires k1 == k + 1 && after == anchors[idShps[k] := a]
    ensures forall j :: 0 <= j < |after| && Processed(dilations, uniqueDil, g, idShps, k1, j) ==>
      AnchorDrawn(nSamples, n, lengths, dilations, normalize, alpha, usePhase, rng, after, j)
  {
    var i := idShps[k];
    NextUnprocessed(dilations, uniqueDil, g, idShps, k);
    PrefixMembershipStep(idShps, k);
    forall j | 0 <= j < |after| && Processed(dilations, uniqueDil, g, idShps, k + 1, j)
      ensures AnchorDrawn(nSamples, n, lengths, dilations, normalize, alpha, usePhase, rng, after, j)
    {
      if j == i {
        DrawnNew(nSamples, n, lengths, dilations, normalize, alpha, usePhase, rng, anchors, i, a);
      } else {
        DrawnKept(nSamples, n, lengths, dilations, normalize, alpha, usePhase, rng, anchors, j, i, a);
      }
    }
  }

  /** Once every shapelet of dilation `unique_dil[g]` is processed, the processed ones
      are those whose dilation is in `unique_dil[..g + 1]`. */
  lemma GroupProcessed(dilations: seq<int>, uniqueDil: seq<int>, g: nat, idShps: seq<nat>)
    requires g < |uniqueDil| && idShps == Where(DilationMask(dilations, uniqueDil[g]))
    ensures forall j :: 0 <= j < |dilations| ==>
      (Processed(dilations, uniqueDil, g, idShps, |idShps|, j) <==> Processed(dilations, uniqueDil, g + 1, [], 0, j))
  {
    PrefixMembershipStep(uniqueDil, g);
    assert idShps[..|idShps|] == idShps;
    var none: seq<nat> := [];
    assert none[..0] == [];
  }

  /** `SampleAndRecord` for shapelet i of dilation `unique_dil[g]`, which has no anchor
      yet: a mask that tracks the cuts goes on tracking them, i's draw recorded. */
  method SampleAndTrack(X: seq<seq<seq<real>>>, y: seq<int>, n: nat, mask: array4<bool>, values: array2<real>,
                        threshold: array<real>, lengths: seq<int>, dilations: seq<int>, normalize: seq<bool>,
                        ghost anchors: seq<Option<Anchor>>, uniqueDil: seq<int>, g: nat, i: nat, minL: int, alpha: real,
                        pMin: real, pMax: real, seams: Seams, usePhase: bool, rng: Rng)
    returns (a: Option<Anchor>)
    requires Drafted(X, y, n, values, threshold, lengths, dilations, normalize, anchors, pMin, pMax, seams, usePhase, rng)
    requires |y| == |X| && n > 0 && i < |anchors| && anchors[i].None?
    requires mask.Length0 == 2 && mask.Length1 == |uniqueDil| && mask.Length2 == |X| && mask.Length3 == n
    requires StrictlyIncreasing(uniqueDil) && g < |uniqueDil| && dilations[i] == uniqueDil[g]
    requires minL == GroupMinLength(lengths, dilations, uniqueDil[g])
    requires MaskTracks(mask, uniqueDil, lengths, dilations, normalize, alpha, anchors)
    modifies mask, values, threshold
    ensures 1 <= lengths[i] && 0 <= dilations[i] && WindowsFit(n, lengths[i], dilations[i], usePhase) &&
      DrawnFrom(TrueCells(old(MaskRows(mask, NormIndex(normalize[i]), g)), NumWindows(n, lengths[i], dilations[i], usePhase)),
                rng, i, a)
    ensures Drafted(X, y, n, values, threshold, lengths, dilations, normalize, anchors[i := a], pMin, pMax, seams, usePhase, rng)
    ensures MaskTracks(mask, uniqueDil, lengths, dilations, normalize, alpha, anchors[i := a])
  {
    a := SampleAndRecord(X, y, n, mask, values, threshold, lengths, dilations, normalize, anchors, g, i, minL, alpha,
                         pMin, pMax, seams, usePhase, rng);
    if a.None? {
      assert anchors[i := a] == anchors;
    } else {
      UntouchedStep(n, uniqueDil, lengths, dilations, normalize, alpha, anchors, g, i, a.value);
    }
  }

  /** The k-th pass of the inner generation loop: shapelet `id_shps[k]` is sampled from
      the mask as it stands, and the mask goes on tracking the cuts. */
  method DraftNext(X: seq<seq<seq<real>>>, y: seq<int>, n: nat, mask: array4<bool>, values: array2<real>,
                   threshold: array<real>, lengths: seq<int>, dilations: seq<int>, normalize: seq<bool>,
                   ghost anchors: seq<Option<Anchor>>, uniqueDil: seq<int>, g: nat, idShps: seq<nat>, k: nat, minL: int,
                   alpha: real, pMin: real, pMax: real, seams: Seams, usePhase: bool, rng: Rng)
    returns (ghost anchors': seq<Option<Anchor>>)
    requires Drafted(X, y, n, values, threshold, lengths, dilations, normalize, anchors, pMin, pMax, seams, usePhase, rng)
    requires |y| == |X| && mask.Length2 == |X| && mask.Length3 == n
    requires StrictlyIncreasing(uniqueDil) && g < |uniqueDil|
    requires idShps == Where(DilationMask(dilations, uniqueDil[g])) && k < |idShps|
    requires minL == GroupMinLength(lengths, dilations, uniqueDil[g])
    requires Sampled(mask, uniqueDil, g, idShps, k, lengths, dilations, normalize, alpha, usePhase, rng, anchors)
    modifies mask, values, threshold
    ensures Drafted(X, y, n, values, threshold, lengths, dilations, normalize, anchors', pMin, pMax, seams, usePhase, rng)
    ensures Sampled(mask, uniqueDil, g, idShps, k + 1, lengths, dilations, normalize, alpha, usePhase, rng, anchors')
  {
    var i := idShps[k];
    NextShapelet(|X|, n, uniqueDil, g, idShps, k, lengths, dilations, normalize, alpha, usePhase, rng, anchors);
    MaskIsSeen(mask, uniqueDil, lengths, dilations, normalize, alpha, anchors, g, i);
    var a := SampleAndTrack(X, y, n, mask, values, threshold, lengths, dilations, normalize, anchors, uniqueDil, g, i,
                            minL, alpha, pMin, pMax, seams, usePhase, rng);
    anchors' := anchors[i := a];
    DrawnStep(|X|, n, uniqueDil, g, idShps, k, lengths, dilations, normalize, alpha, usePhase, rng, anchors, a);
  }

  /** The inner generation loop for the shapelets of dilation `unique_dil[g]`, in index
      order, each sampled with `min_l` the shortest length of the group. */
  method DraftGroup(X: seq<seq<seq<real>>>, y: seq<int>, n: nat, mask: array4<bool>, values: array2<real>,
                    threshold: array<real>, lengths: seq<int>, dilations: seq<int>, normalize: seq<bool>,
                    ghost anchors: seq<Option<Anchor>>, uniqueDil: seq<int>, g: nat, alpha: real, pMin: real, pMax: real,
                    seams: Seams, usePhase: bool, rng: Rng)
    returns (ghost anchors': seq<Option<Anchor>>)
    requires Drafted(X, y, n, values, threshold, lengths, dilations, normalize, anchors, pMin, pMax, seams, usePhase, rng)
    requires |y| == |X| && mask.Length2 == |X| && mask.Length3 == n
    requires StrictlyIncreasing(uniqueDil) && g < |uniqueDil| && uniqueDil[g] in dilations
    requires Sampled(mask, uniqueDil, g, [], 0, lengths, dilations, normalize, alpha, usePhase, rng, anchors)
    modifies mask, values, threshold
    ensures Drafted(X, y, n, values, threshold, lengths, dilations, normalize, anchors', pMin, pMax, seams, usePhase, rng)
    ensures Sampled(mask, uniqueDil, g + 1, [], 0, lengths, dilations, normalize, alpha, usePhase, rng, anchors')
  {
    var m := |lengths|;
    anchors' := anchors;
    var idShps := Where(DilationMask(dilations, uniqueDil[g]));
    var k0 :| 0 <= k0 < m && dilations[k0] == uniqueDil[g];
    assert k0 in idShps;
    var minL := MinOf(Select(lengths, idShps));
    assert idShps[..0] == [];
    for k := 0 to |idShps|
      invariant Drafted(X, y, n, values, threshold, lengths, dilations, normalize, anchors', pMin, pMax, seams, usePhase, rng)
      invariant Sampled(mask, uniqueDil, g, idShps, k, lengths, dilations, normalize, alpha, usePhase, rng, anchors')
    {
      anchors' := DraftNext(X, y, n, mask, values, threshold, lengths, dilations, normalize, anchors', uniqueDil, g, idShps,
                            k, minL, alpha, pMin, pMax, seams, usePhase, rng);
    }
    GroupProcessed(dilations, uniqueDil, g, idShps);
  }

  /** Before the loops: a mask of true cells tracks the cuts of shapelets without
      anchors, none of which is processed. */
  lemma SampledAtStart(mask: array4<bool>, uniqueDil: seq<int>, lengths: seq<int>, dilations: seq<int>,
                       normalize: seq<bool>, alpha: real, usePhase: bool, rng: Rng)
    requires mask.Length0 == 2 && mask.Length1 == |uniqueDil| && mask.Length3 > 0
    requires Fits(mask.Length3, lengths, dilations, usePhase) && |normalize| == |lengths|
    requires forall a, b, c, t :: 0 <= a < 2 && 0 <= b < mask.Length1 && 0 <= c < mask.Length2 && 0 <= t < mask.Length3 ==>
      mask[a, b, c, t]
    ensures Sampled(mask, uniqueDil, 0, [], 0, lengths, dilations, normalize, alpha, usePhase, rng,
                    seq(|lengths|, _ => None))
  {
  }

  /** After the loops over every unique dilation, every shapelet is processed. */
  lemma DrawnAtEnd(nSamples: nat, n: nat, uniqueDil: seq<int>, lengths: seq<int>, dilations: seq<int>, normalize: seq<bool>,
                   alpha: real, usePhase: bool, rng: Rng, anchors: seq<Option<Anchor>>)
    requires DrawnSoFar(nSamples, n, uniqueDil, |uniqueDil|, [], 0, lengths, dilations, normalize, alpha, usePhase, rng, anchors)
    requires forall z :: z in dilations ==> z in uniqueDil
    ensures forall i :: 0 <= i < |lengths| ==>
      AnchorDrawn(nSamples, n, lengths, dilations, normalize, alpha, usePhase, rng, anchors, i)
  {
    forall i | 0 <= i < |lengths|
      ensures Processed(dilations, uniqueDil, |uniqueDil|, [], 0, i)
    {
      assert dilations[i] in dilations;
      assert uniqueDil[..|uniqueDil|] == uniqueDil;
    }
  }

  /** The generation loops: for each unique dilation in ascending order, each of its
      shapelets in index order is sampled from the mask slice of its flag and group.
      Every shapelet's anchor is then the draw from the cells it found open, and it has
      none exactly when it found none. */
  method DraftShapelets(X: seq<seq<seq<real>>>, y: seq<int>, n: nat, values: array2<real>, threshold: array<real>,
                        lengths: seq<int>, dilations: seq<int>, normalize: seq<bool>, alpha: real,
                        pMin: real, pMax: real, seams: Seams, usePhase: bool, rng: Rng)
    returns (ghost anchors: seq<Option<Anchor>>)
    requires Drafted(X, y, n, values, threshold, lengths, dilations, normalize, seq(|lengths|, _ => None),
                     pMin, pMax, seams, usePhase, rng)
    requires |y| == |X| && n > 0 && Fits(n, lengths, dilations, usePhase) && |normalize| == |lengths|
    modifies values, threshold
    ensures Drafted(X, y, n, values, threshold, lengths, dilations, normalize, anchors, pMin, pMax, seams, usePhase, rng)
    ensures forall i :: 0 <= i < |lengths| ==>
      AnchorDrawn(|X|, n, lengths, dilations, normalize, alpha, usePhase, rng, anchors, i)
  {
    anchors := seq(|lengths|, _ => None);
    var uniqueDil := UniqueAscending(dilations);
    var mask := new bool[2, |uniqueDil|, |X|, n]((_, _, _, _) => true);
    SampledAtStart(mask, uniqueDil, lengths, dilations, normalize, alpha, usePhase, rng);
    for g := 0 to |uniqueDil|
      invariant Drafted(X, y, n, values, threshold, lengths, dilations, normalize, anchors, pMin, pMax, seams, usePhase, rng)
      invariant Sampled(mask, uniqueDil, g, [], 0, lengths, dilations, normalize, alpha, usePhase, rng, anchors)
    {
      anchors := DraftGroup(X, y, n, mask, values, threshold, lengths, dilations, normalize, anchors, uniqueDil, g, alpha,
                            pMin, pMax, seams, usePhase, rng);
    }
    DrawnAtEnd(|X|, n, uniqueDil, lengths, dilations, normalize, alpha, usePhase, rng, anchors);
  }

  /** `U_SL_generate_shapelet`: draw the parameters, sample the shapelets, and keep
      those whose value row is not all zero, every array filtered by the same mask in
      original order. */
  method GenerateShapelet(X: seq<seq<seq<real>>>, y: seq<int>, n: nat, nShapelets: nat, sizes: seq<int>, pNorm: real,
                          pMin: real, pMax: real, alpha: real, seams: Seams, usePhase: bool, primeScheme: bool, rng: Rng)
    returns (values: seq<seq<real>>, lengths: seq<int>, dilations: seq<int>, threshold: seq<real>, normalize: seq<bool>,
             ghost draft: Draft)
    requires Series(X, n) && |y| == |X|
    requires |sizes| > 0 && forall k :: 0 <= k < |sizes| ==> 2 <= sizes[k] <= n
    requires primeScheme ==> nShapelets > 0
    ensures |draft.rows| == nShapelets && |draft.lengths| == nShapelets && |draft.dilations| == nShapelets
    ensures |draft.threshold| == nShapelets && |draft.normalize| == nShapelets && |draft.anchors| == nShapelets
    ensures forall i :: 0 <= i < nShapelets ==>
      ValidShapelet(sizes, draft.lengths[i], draft.dilations[i], n, primeScheme) &&
      (draft.normalize[i] <==> Random(rng, NormalizeDraw(i)) < pNorm) &&
      ShapeletOutcome(X, y, n, MaxOf(sizes), i, draft.rows[i], draft.threshold[i], draft.anchors[i], draft.lengths[i],
                      draft.dilations[i], draft.normalize[i], pMin, pMax, seams, usePhase, rng)
    ensures n > 0 && Fits(n, draft.lengths, draft.dilations, usePhase) &&
      forall i :: 0 <= i < nShapelets ==>
        AnchorDrawn(|X|, n, draft.lengths, draft.dilations, draft.normalize, alpha, usePhase, rng, draft.anchors, i)
    ensures var keep := KeepMask(draft.rows);
      values == Compact(draft.rows, keep) && lengths == Compact(draft.lengths, keep) &&
      dilations == Compact(draft.dilations, keep) && threshold == Compact(draft.threshold, keep) &&
      normalize == Compact(draft.normalize, keep)
  {
    var vals, lens, dils, thr, nrm := InitRandomShapeletParams(nShapelets, sizes, n, pNorm, primeScheme, rng);
    forall i | 0 <= i < nShapelets
      ensures WindowsFit(n, lens[i], dils[i], usePhase)
    {
      DilationFits(n, lens[i], dils[i]);
    }
    assert Drafted(X, y, n, vals, thr, lens, dils, nrm, seq(nShapelets, _ => None), pMin, pMax, seams, usePhase, rng);
    ghost var anchors := DraftShapelets(X, y, n, vals, thr, lens, dils, nrm, alpha, pMin, pMax, seams, usePhase, rng);
    var maskValues := new bool[nShapelets](_ => true);
    for i := 0 to nShapelets
      modifies maskValues
      invariant forall k :: 0 <= k < i ==> maskValues[k] == !AllZero(Row(vals, k))
      invariant forall k :: i <= k < nShapelets ==> maskValues[k]
    {
      if AllZero(Row(vals, i)) {
        maskValues[i] := false;
      }
    }
    var rows := seq(nShapelets, i requires 0 <= i < nShapelets reads vals => Row(vals, i));
    var keep := maskValues[..];
    assert keep == KeepMask(rows);
    var thresholds := thr[..];
    DraftedOutcomes(X, y, n, vals, thr, lens, dils, nrm, anchors, pMin, pMax, seams, usePhase, rng);
    draft := Draft(rows, lens, dils, thresholds, nrm, anchors);
    values, lengths, dilations := Compact(rows, keep), Compact(lens, keep), Compact(dils, keep);
    threshold, normalize := Compact(thresholds, keep), Compact(nrm, keep);
  }

  /** By definition of the drafted row, a shapelet without an anchor keeps an all-zero
      row, so the generator drops it. When a shapelet is left without an anchor is
      `UnanchoredExactlyWhenSliceCleared`. */
  lemma UnanchoredShapeletsAreDropped(X: seq<seq<seq<real>>>, n: nat, width: nat, a: Option<Anchor>, l: nat, d: nat,
                                      norm: bool, usePhase: bool, zn: PointNorm)
    requires Series(X, n)
    ensures a.None? ==> !KeepMask([DraftRow(X, n, width, a, l, d, norm, usePhase, zn)])[0]
  {
  }

  // ------------------------------------------------------------------ apply

  /** Shapelet features on series x: min, first argmin and match count of the
      distance profile of `v`. */
  function ShapeletFeatures(x: seq<real>, v: seq<real>, l: nat, d: nat, normalize: bool, threshold: real, usePhase: bool,
                            dist: Distance, zn: PointNorm): (real, real, real)
    requires WindowsFit(|x|, l, d, usePhase)
  {
    ExtractFeatures(DistProfile(x, v, l, d, normalize, usePhase, dist, zn), UnivariateSentinel, threshold)
  }

  /** In-place z-normalisation of every stride. */
  method NormalizeRows(c: array2<real>, zn: PointNorm)
    modifies c
    ensures forall i :: 0 <= i < c.Length0 ==> Row(c, i) == ZNormalize(zn, old(Row(c, i)))
  {
    ghost var before := seq(c.Length0, i requires 0 <= i < c.Length0 reads c => Row(c, i));
    for i := 0 to c.Length0
      invariant forall i', j :: 0 <= i' < i && 0 <= j < c.Length1 ==> c[i', j] == ZNormalize(zn, before[i'])[j]
      invariant forall i', j :: i <= i' < c.Length0 && 0 <= j < c.Length1 ==> c[i', j] == before[i'][j]
    {
      assert Row(c, i) == before[i];
      var z := ZNormalize(zn, Row(c, i));
      for j := 0 to c.Length1
        invariant forall i', j' :: 0 <= i' < i && 0 <= j' < c.Length1 ==> c[i', j'] == ZNormalize(zn, before[i'])[j']
        invariant forall i', j' :: i < i' < c.Length0 && 0 <= j' < c.Length1 ==> c[i', j'] == before[i'][j']
        invariant forall j' :: 0 <= j' < j ==> c[i, j'] == z[j']
        invariant forall j' :: j <= j' < c.Length1 ==> c[i, j'] == before[i][j']
      {
        c[i, j] := z[j];
      }
    }
    forall i | 0 <= i < c.Length0
      ensures Row(c, i) == ZNormalize(zn, before[i])
    {
    }
  }

  /** Distances of the stride rows are the distance profile once the rows are the windows. */
  lemma RowDistancesAreProfile(c: array2<real>, x: seq<real>, v: seq<real>, l: nat, d: nat, normalize: bool, usePhase: bool,
                               dist: Distance, zn: PointNorm)
    requires WindowsFit(|x|, l, d, usePhase) && c.Length0 == NumWindows(|x|, l, d, usePhase)
    requires forall i :: 0 <= i < c.Length0 ==> Row(c, i) == Window(x, i, l, d, normalize, usePhase, zn)
    ensures RowDistances(c, v, dist) == DistProfile(x, v, l, d, normalize, usePhase, dist, zn)
  {
  }

  /** Shapelets `ids`, all with flag `norm`, on the strides of x (raw or normalised as
      `norm` says): only their features in row s change. */
  method ApplyShapelets(x: seq<real>, s: nat, ids: seq<nat>, strides: array2<real>, l: nat, d: nat, norm: bool,
                        values: seq<seq<real>>, threshold: seq<real>, normalize: seq<bool>, xNew: array2<real>,
                        dist: Distance, zn: PointNorm, usePhase: bool)
    requires WindowsFit(|x|, l, d, usePhase) && strides != xNew && strides.Length0 == NumWindows(|x|, l, d, usePhase)
    requires forall i :: 0 <= i < strides.Length0 ==> Row(strides, i) == Window(x, i, l, d, norm, usePhase, zn)
    requires |threshold| == |values| && |normalize| == |values| && s < xNew.Length0 && xNew.Length1 == 3 * |values|
    requires forall k :: 0 <= k < |ids| ==> ids[k] < |values| && l <= |values[ids[k]]| && normalize[ids[k]] == norm
    modifies xNew
    ensures forall r, j :: 0 <= r < xNew.Length0 && 0 <= j < |values| ==>
      Features(xNew, r, j) == if r == s && j in ids
        then ShapeletFeatures(x, values[j][..l], l, d, normalize[j], threshold[j], usePhase, dist, zn)
        else old(Features(xNew, r, j))
  {
    for k := 0 to |ids|
      invariant forall r, j :: 0 <= r < xNew.Length0 && 0 <= j < |values| ==>
        Features(xNew, r, j) == if r == s && j in ids[..k]
          then ShapeletFeatures(x, values[j][..l], l, d, normalize[j], threshold[j], usePhase, dist, zn)
          else old(Features(xNew, r, j))
    {
      var i := ids[k];
      var v := values[i][..l];
      var mn, argmin, nMatch := ApplyOneShapeletOneSampleUnivariate(strides, v, threshold[i], dist);
      RowDistancesAreProfile(strides, x, v, l, d, norm, usePhase, dist, zn);
      assert ids[..k + 1] == ids[..k] + [i];
      StoreFeatures(xNew, s, i, (mn, argmin, nMatch));
    }
    assert ids[..|ids|] == ids;
  }

  /** The shapelets of one (length, dilation) group on sample s: the plain ones on the
      raw strides, then, if any uses z-normalisation, the normalised ones on the strides
      normalised in place. Only their features in row s change. */
  method ApplyGroup(x: seq<real>, s: nat, group: seq<nat>, l: nat, d: nat, values: seq<seq<real>>, threshold: seq<real>,
                    normalize: seq<bool>, xNew: array2<real>, dist: Distance, zn: PointNorm, usePhase: bool)
    requires WindowsFit(|x|, l, d, usePhase)
    requires |threshold| == |values| && |normalize| == |values| && s < xNew.Length0 && xNew.Length1 == 3 * |values|
    requires forall k :: 0 <= k < |group| ==> group[k] < |values| && l <= |values[group[k]]|
    modifies xNew
    ensures forall r, j :: 0 <= r < xNew.Length0 && 0 <= j < |values| ==>
      Features(xNew, r, j) == if r == s && j in group
        then ShapeletFeatures(x, values[j][..l], l, d, normalize[j], threshold[j], usePhase, dist, zn)
        else old(Features(xNew, r, j))
  {
    var strides := GenerateStrides1D(x, l, d, usePhase);
    var plainMask := seq(|group|, k requires 0 <= k < |group| => !normalize[group[k]]);
    var plain := Compact(group, plainMask);
    CompactMembership(group, plainMask);
    ApplyShapelets(x, s, plain, strides, l, d, false, values, threshold, normalize, xNew, dist, zn, usePhase);
    var normMask := seq(|group|, k requires 0 <= k < |group| => normalize[group[k]]);
    var normed := Compact(group, normMask);
    CompactMembership(group, normMask);
    if |normed| > 0 {
      NormalizeRows(strides, zn);
      ApplyShapelets(x, s, normed, strides, l, d, true, values, threshold, normalize, xNew, dist, zn, usePhase);
    }
  }

  /** Fitted shapelets usable on series of n points: every length is at most its row,
      every window fits. */
  predicate Fitted(n: nat, values: seq<seq<real>>, lengths: seq<int>, dilations: seq<int>, threshold: seq<real>,
                   normalize: seq<bool>, usePhase: bool)
  {
    |lengths| == |values| && |dilations| == |values| && |threshold| == |values| && |normalize| == |values| &&
    forall i :: 0 <= i < |values| ==>
      1 <= lengths[i] <= |values[i]| && 0 <= dilations[i] && WindowsFit(n, lengths[i], dilations[i], usePhase)
  }

  /** Shapelet i's features on series x: those of its first `lengths[i]` values. */
  function FeaturesOf(x: seq<real>, values: seq<seq<real>>, lengths: seq<int>, dilations: seq<int>, threshold: seq<real>,
                      normalize: seq<bool>, usePhase: bool, dist: Distance, zn: PointNorm, i: nat): (real, real, real)
    requires Fitted(|x|, values, lengths, dilations, threshold, normalize, usePhase) && i < |values|
  {
    ShapeletFeatures(x, values[i][..lengths[i]], lengths[i], dilations[i], normalize[i], threshold[i], usePhase, dist, zn)
  }

  /** Every shapelet of group g has the group's length and dilation, so the group's
      windows fit and its shapelets have at least that many values. */
  lemma GroupFits(n: nat, values: seq<seq<real>>, lengths: seq<int>, dilations: seq<int>, threshold: seq<real>,
                  normalize: seq<bool>, usePhase: bool, g: nat)
    requires Fitted(n, values, lengths, dilations, threshold, normalize, usePhase)
    requires g < |FirstOccurrences(Zip(lengths, dilations))|
    ensures var p := FirstOccurrences(Zip(lengths, dilations))[g];
      p.0 >= 1 && p.1 >= 0 && WindowsFit(n, p.0, p.1, usePhase) &&
      forall k :: 0 <= k < |Members(lengths, dilations, p)| ==>
        var i := Members(lengths, dilations, p)[k]; i < |values| && p.0 <= |values[i]|
  {
    var k := PairOfSomeShapelet(lengths, dilations, g);
  }

  /** Group g for sample s: exactly the shapelets whose pair is the group's pair receive
      their features in row s; every other cell block keeps its value. */
  method ApplyBucket(x: seq<real>, s: nat, values: seq<seq<real>>, lengths: seq<int>, dilations: seq<int>,
                     threshold: seq<real>, normalize: seq<bool>, params: seq<(int, int)>, idxShp: seq<nat>,
                     nShpParams: seq<int>, g: nat, xNew: array2<real>, dist: Distance, zn: PointNorm, usePhase: bool)
    requires Fitted(|x|, values, lengths, dilations, threshold, normalize, usePhase)
    requires params == FirstOccurrences(Zip(lengths, dilations)) && g < |params|
    requires Bucketed(lengths, dilations, params, idxShp, nShpParams)
    requires s < xNew.Length0 && xNew.Length1 == 3 * |values|
    modifies xNew
    ensures forall r, i :: 0 <= r < xNew.Length0 && 0 <= i < |values| ==>
      Features(xNew, r, i) == if r == s && (lengths[i], dilations[i]) == params[g]
        then FeaturesOf(x, values, lengths, dilations, threshold, normalize, usePhase, dist, zn, i)
        else old(Features(xNew, r, i))
  {
    var l, d := params[g].0, params[g].1;
    GroupFits(|x|, values, lengths, dilations, threshold, normalize, usePhase, g);
    assert BucketAt(lengths, dilations, params, idxShp, nShpParams, g);
    var group := idxShp[nShpParams[g]..nShpParams[g + 1]];
    ApplyGroup(x, s, group, l, d, values, threshold, normalize, xNew, dist, zn, usePhase);
    forall i | 0 <= i < |values|
      ensures i in group <==> (lengths[i], dilations[i]) == params[g]
    {
    }
  }

  /** The loop over the (length, dilation) groups for sample s: row s receives every
      shapelet's features, the other rows are untouched. */
  method ApplySample(x: seq<real>, s: nat, values: seq<seq<real>>, lengths: seq<int>, dilations: seq<int>,
                     threshold: seq<real>, normalize: seq<bool>, params: seq<(int, int)>, idxShp: seq<nat>,
                     nShpParams: seq<int>, xNew: array2<real>, dist: Distance, zn: PointNorm, usePhase: bool)
    requires Fitted(|x|, values, lengths, dilations, threshold, normalize, usePhase)
    requires params == FirstOccurrences(Zip(lengths, dilations))
    requires Bucketed(lengths, dilations, params, idxShp, nShpParams)
    requires s < xNew.Length0 && xNew.Length1 == 3 * |values|
    modifies xNew
    ensures forall i :: 0 <= i < |values| ==>
      Features(xNew, s, i) == FeaturesOf(x, values, lengths, dilations, threshold, normalize, usePhase, dist, zn, i)
    ensures forall r, i :: 0 <= r < xNew.Length0 && r != s && 0 <= i < |values| ==>
      Features(xNew, r, i) == old(Features(xNew, r, i))
  {
    var m := |values|;
    PairsCovered(lengths, dilations);
    for g := 0 to |params|
      invariant forall r, i :: 0 <= r < xNew.Length0 && r != s && 0 <= i < m ==>
        Features(xNew, r, i) == old(Features(xNew, r, i))
      invariant forall i :: 0 <= i < m && (lengths[i], dilations[i]) in params[..g] ==>
        Features(xNew, s, i) == FeaturesOf(x, values, lengths, dilations, threshold, normalize, usePhase, dist, zn, i)
    {
      ApplyBucket(x, s, values, lengths, dilations, threshold, normalize, params, idxShp, nShpParams, g, xNew, dist, zn,
                  usePhase);
      PrefixMembershipStep(params, g);
      forall i | 0 <= i < m && (lengths[i], dilations[i]) in params[..g + 1]
        ensures Features(xNew, s, i) == FeaturesOf(x, values, lengths, dilations, threshold, normalize, usePhase, dist, zn, i)
      {
        if (lengths[i], dilations[i]) != params[g] {
          assert (lengths[i], dilations[i]) in params[..g];
        }
      }
    }
    assert params[..|params|] == params;
  }

  /** `U_SL_apply_all_shapelets`: for every sample and every (length, dilation) group,
      columns 3i..3i+2 of the output receive shapelet i's features. */
  method ApplyAllShapelets(X: seq<seq<seq<real>>>, n: nat, values: seq<seq<real>>, lengths: seq<int>, dilations: seq<int>,
                           threshold: seq<real>, normalize: seq<bool>, dist: Distance, zn: PointNorm, usePhase: bool)
    returns (xNew: array2<real>)
    requires Series(X, n) && Fitted(n, values, lengths, dilations, threshold, normalize, usePhase)
    ensures fresh(xNew) && xNew.Length0 == |X| && xNew.Length1 == 3 * |values|
    ensures forall s, i :: 0 <= s < |X| && 0 <= i < |values| ==>
      Features(xNew, s, i) == FeaturesOf(X[s][0], values, lengths, dilations, threshold, normalize, usePhase, dist, zn, i)
  {
    var params, idxShp, nShpParams := GroupShapelets(lengths, dilations);
    xNew := new real[|X|, 3 * |values|]((_, _) => 0.0);
    for s := 0 to |X|
      invariant forall s', i :: 0 <= s' < s && 0 <= i < |values| ==>
        Features(xNew, s', i) == FeaturesOf(X[s'][0], values, lengths, dilations, threshold, normalize, usePhase, dist, zn, i)
    {
      ApplySample(X[s][0], s, values, lengths, dilations, threshold, normalize, params, idxShp, nShpParams, xNew, dist, zn,
                  usePhase);
    }
  }
}
