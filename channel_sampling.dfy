/**
 * Where a multivariate shapelet may be anchored. Generation reads the mask slice
 * of the shapelet's flag and dilation group (`mask_dil`): for each sample, one row
 * of cells per channel. A position of a sample is eligible when the cells of the
 * shapelet's channels that are still open there number at least
 * `n_channels * alpha`. The same-length generator draws one eligible cell left of
 * d_shape, as the univariate one does; the variable-length generator draws a sample
 * with an eligible position below its bound, then one such position.
 */
module ChannelSampling {
  import opened ArrayOps
  import opened Commons
  import opened Sampling
  import opened ChannelGeneration
  import U = UnivariateSameLength

  // ----------------------------------------------------------------- slices

  /** A mask slice: sample s has nFt rows of len[s] cells. */
  predicate Shaped(x: seq<seq<seq<bool>>>, nFt: nat, len: seq<nat>) {
    |x| == |len| && forall s :: 0 <= s < |x| ==> |x[s]| == nFt && forall f :: 0 <= f < nFt ==> |x[s][f]| == len[s]
  }

  /** Every channel id is below nFt. */
  predicate ChannelsBelow(chans: seq<nat>, nFt: nat) {
    forall k :: 0 <= k < |chans| ==> chans[k] < nFt
  }

  /** `mask_sampling[norm, g]`, each sample's rows cut at the sample's length. */
  function MaskSlice(mask: array5<bool>, norm: nat, g: nat, len: seq<nat>): (x: seq<seq<seq<bool>>>)
    requires norm < mask.Length0 && g < mask.Length1 && mask.Length2 == |len|
    requires forall s :: 0 <= s < |len| ==> len[s] <= mask.Length4
    reads mask
    ensures Shaped(x, mask.Length3, len)
    ensures forall s, f, t :: 0 <= s < |len| && 0 <= f < mask.Length3 && 0 <= t < len[s] ==>
      x[s][f][t] == mask[norm, g, s, f, t]
  {
    seq(|len|, s requires 0 <= s < |len| reads mask =>
      seq(mask.Length3, f requires 0 <= f < mask.Length3 reads mask =>
        seq(len[s], t requires 0 <= t < len[s] reads mask => mask[norm, g, s, f, t])))
  }

  // ------------------------------------------------------------ eligibility

  /** Number of the first k channels of `chans` whose cell t is open among the rows x
      of one sample. */
  function ChannelCount(x: seq<seq<bool>>, chans: seq<nat>, t: nat, k: nat): (c: nat)
    requires k <= |chans| && forall j :: 0 <= j < |chans| ==> chans[j] < |x| && t < |x[chans[j]]|
    ensures c <= k
    ensures c == k <==> forall j :: 0 <= j < k ==> x[chans[j]][t]
  {
    if k == 0 then 0 else ChannelCount(x, chans, t, k - 1) + (if x[chans[k - 1]][t] then 1 else 0)
  }

  /** `mask_dil[s][chans, t].sum() >= n_channels * alpha`. */
  predicate Eligible(x: seq<seq<bool>>, chans: seq<nat>, t: nat, alpha: real)
    requires forall j :: 0 <= j < |chans| ==> chans[j] < |x| && t < |x[chans[j]]|
  {
    ChannelCount(x, chans, t, |chans|) as real >= |chans| as real * alpha
  }

  lemma ScaledNonPositive(n: real, a: real)
    requires n >= 0.0 && a <= 0.0
    ensures n * a <= 0.0
  {
  }

  lemma ScaledAtMost(n: real, a: real)
    requires n >= 0.0 && a <= 1.0
    ensures n * a <= n
  {
  }

  lemma ScaledAbove(n: real, a: real)
    requires n > 0.0 && a > 1.0
    ensures n * a > n
  {
  }

  /** What alpha means: with alpha <= 0 every position is eligible; with alpha <= 1 a
      position whose chosen channels are all open is; with alpha > 1 no position of
      a shapelet with channels is. */
  lemma EligibleByAlpha(x: seq<seq<bool>>, chans: seq<nat>, t: nat, alpha: real)
    requires forall j :: 0 <= j < |chans| ==> chans[j] < |x| && t < |x[chans[j]]|
    ensures alpha <= 0.0 ==> Eligible(x, chans, t, alpha)
    ensures alpha <= 1.0 && (forall j :: 0 <= j < |chans| ==> x[chans[j]][t]) ==> Eligible(x, chans, t, alpha)
    ensures alpha > 1.0 && |chans| > 0 ==> !Eligible(x, chans, t, alpha)
  {
    var k := ChannelCount(x, chans, t, |chans|);
    if alpha <= 0.0 {
      ScaledNonPositive(|chans| as real, alpha);
    }
    if alpha <= 1.0 {
      ScaledAtMost(|chans| as real, alpha);
    }
    if alpha > 1.0 && |chans| > 0 {
      ScaledAbove(|chans| as real, alpha);
      assert k <= |chans|;
    }
  }

  // ------------------------------------------------------- same-length draw

  /** `mask_dil[:, chans, :].sum(axis=1) >= n_channels * alpha`: one row per sample,
      a cell true when its position is eligible. */
  function EligibleRows(x: seq<seq<seq<bool>>>, nFt: nat, len: seq<nat>, chans: seq<nat>, alpha: real)
    : (rows: seq<seq<bool>>)
    requires Shaped(x, nFt, len) && ChannelsBelow(chans, nFt)
    ensures |rows| == |x| && forall s :: 0 <= s < |x| ==> |rows[s]| == len[s]
    ensures forall s, t :: 0 <= s < |x| && 0 <= t < len[s] ==> (rows[s][t] <==> Eligible(x[s], chans, t, alpha))
  {
    seq(|x|, s requires 0 <= s < |x| => seq(len[s], t requires 0 <= t < len[s] => Eligible(x[s], chans, t, alpha)))
  }

  /** The same-length draw: the eligible cells left of d_shape = w, row by row; none
      when there is none, else `PickCell` among them. */
  function SameLengthDraw(rng: Rng, i: nat, x: seq<seq<seq<bool>>>, nFt: nat, len: seq<nat>, chans: seq<nat>,
                          alpha: real, w: nat): (r: Option<(nat, nat)>)
    requires Shaped(x, nFt, len) && ChannelsBelow(chans, nFt)
    ensures r.None? <==> forall s, t :: 0 <= s < |x| && 0 <= t < w && t < len[s] ==> !Eligible(x[s], chans, t, alpha)
    ensures r.Some? ==> r.value.0 < |x| && r.value.1 < w && r.value.1 < len[r.value.0] &&
                        Eligible(x[r.value.0], chans, r.value.1, alpha)
  {
    var rows := EligibleRows(x, nFt, len, chans, alpha);
    var cells := TrueCells(rows, w);
    if |cells| == 0 then
      assert forall s, t :: 0 <= s < |x| && 0 <= t < w && t < len[s] ==> !Eligible(x[s], chans, t, alpha) by {
        forall s, t | 0 <= s < |x| && 0 <= t < w && t < len[s]
          ensures !Eligible(x[s], chans, t, alpha)
        {
          assert (s, t) !in cells;
        }
      }
      None
    else
      var c := PickCell(rng, i, cells);
      assert rows[c.0][c.1];
      Some(c)
  }

  // --------------------------------------------------- variable-length draw

  /** The per-sample bound on anchor positions: `X_len[s]` with phase, else
      `X_len[s] - (l - 1) * d`, the number of windows of sample s. */
  function Bounds(len: seq<nat>, l: int, d: int, usePhase: bool): (b: seq<nat>)
    requires FitsEvery(len, l, d, usePhase)
    ensures |b| == |len| && forall s :: 0 <= s < |len| ==> 1 <= b[s] == NumWindows(len[s], l, d, usePhase) <= len[s]
  {
    NonNegativeProduct(l - 1, d);
    seq(|len|, s requires 0 <= s < |len| => NumWindows(len[s], l, d, usePhase))
  }

  /** Which positions t < w of one sample, whose rows are x, are eligible. */
  function EligibleRow(x: seq<seq<bool>>, chans: seq<nat>, alpha: real, w: nat): (row: seq<bool>)
    requires forall j :: 0 <= j < |chans| ==> chans[j] < |x| && w <= |x[chans[j]]|
    ensures |row| == w && forall t :: 0 <= t < w ==> (row[t] <==> Eligible(x, chans, t, alpha))
  {
    seq(w, t requires 0 <= t < w => Eligible(x, chans, t, alpha))
  }

  /** Which samples have an eligible position below their bound. */
  function SampleMask(x: seq<seq<seq<bool>>>, nFt: nat, len: seq<nat>, chans: seq<nat>, alpha: real, bounds: seq<nat>)
    : (m: seq<bool>)
    requires Shaped(x, nFt, len) && ChannelsBelow(chans, nFt) && |bounds| == |len|
    requires forall s :: 0 <= s < |bounds| ==> bounds[s] <= len[s]
    ensures |m| == |bounds|
    ensures forall s :: 0 <= s < |bounds| ==> (m[s] <==> exists t :: 0 <= t < bounds[s] && Eligible(x[s], chans, t, alpha))
  {
    seq(|bounds|, s requires 0 <= s < |bounds| => exists t :: 0 <= t < bounds[s] && Eligible(x[s], chans, t, alpha))
  }

  /** The variable-length draw: none when no sample has an eligible position below its
      bound; otherwise `choice(i_mask[0])` among the eligible samples, each counted
      once, then `choice(t_mask[0])` among that sample's eligible positions. */
  function DrawAnchor(rng: Rng, i: nat, x: seq<seq<seq<bool>>>, nFt: nat, len: seq<nat>, chans: seq<nat>, alpha: real,
                      bounds: seq<nat>): (r: Option<(nat, nat)>)
    requires Shaped(x, nFt, len) && ChannelsBelow(chans, nFt) && |bounds| == |len|
    requires forall s :: 0 <= s < |bounds| ==> bounds[s] <= len[s]
    ensures r.None? <==> forall s, t :: 0 <= s < |bounds| && 0 <= t < bounds[s] ==> !Eligible(x[s], chans, t, alpha)
    ensures r.Some? ==> r.value.0 < |bounds| && r.value.1 < bounds[r.value.0] &&
                        Eligible(x[r.value.0], chans, r.value.1, alpha)
  {
    var sm := SampleMask(x, nFt, len, chans, alpha, bounds);
    var open := Where(sm);
    if open == [] then
      assert forall s, t :: 0 <= s < |bounds| && 0 <= t < bounds[s] ==> !Eligible(x[s], chans, t, alpha) by {
        forall s, t | 0 <= s < |bounds| && 0 <= t < bounds[s]
          ensures !Eligible(x[s], chans, t, alpha)
        {
          assert !sm[s];
        }
      }
      None
    else
      var s := Choose(rng, SampleDraw(i), open);
      var row := EligibleRow(x[s], chans, alpha, bounds[s]);
      var t0 :| 0 <= t0 < bounds[s] && Eligible(x[s], chans, t0, alpha);
      assert row[t0];
      Some((s, Choose(rng, IndexDraw(i), Where(row))))
  }

  // ------------------------------------------------------------ either draw

  /** How the generator at hand draws anchors: every sample of n points (`M_SL`), or
      each sample of its own length (`M_VL`). */
  datatype Layout = FixedLength(n: nat) | VariableLength

  /** The run matches the layout: with a fixed length n, every sample has n points and
      every shapelet's windows fit n points. */
  predicate Suits(layout: Layout, run: Run, P: Params) {
    layout.FixedLength? ==>
      (forall s :: 0 <= s < |run.len| ==> run.len[s] == layout.n) &&
      |P.lengths| == |P.dilations| &&
      forall j :: 0 <= j < |P.lengths| ==>
        P.lengths[j] >= 1 && P.dilations[j] >= 0 && WindowsFit(layout.n, P.lengths[j], P.dilations[j], run.usePhase)
  }

  /** Shapelet i can be drawn: its windows fit every sample, it has at most
      n_features channels, and the run matches the layout. */
  predicate Drawable(layout: Layout, run: Run, P: Params, i: nat) {
    Sized(P, |P.lengths|) && i < |P.lengths| && FitsEvery(run.len, P.lengths[i], P.dilations[i], run.usePhase) &&
    0 <= P.nChannels[i] <= run.nFt && Suits(layout, run, P)
  }

  /** Shapelet i's channels, `choice(arange(n_features), n_channels, replace=False)`. */
  function ChannelsOf(run: Run, P: Params, i: nat): (chans: seq<nat>)
    requires Sized(P, |P.lengths|) && i < |P.lengths| && 0 <= P.nChannels[i] <= run.nFt
    ensures |chans| == P.nChannels[i] && ChannelsBelow(chans, run.nFt)
  {
    DrawChannels(run.rng, i, run.nFt, P.nChannels[i])
  }

  /** Shapelet i's anchor draw from the mask slice x. */
  function AnchorDraw(layout: Layout, run: Run, P: Params, x: seq<seq<seq<bool>>>, i: nat): (r: Option<(nat, nat)>)
    requires Drawable(layout, run, P, i) && Shaped(x, run.nFt, run.len)
  {
    var l, d := P.lengths[i], P.dilations[i];
    var chans := ChannelsOf(run, P, i);
    match layout
    case FixedLength(n) => SameLengthDraw(run.rng, i, x, run.nFt, run.len, chans, run.alpha, NumWindows(n, l, d, run.usePhase))
    case VariableLength => DrawAnchor(run.rng, i, x, run.nFt, run.len, chans, run.alpha, Bounds(run.len, l, d, run.usePhase))
  }

  /** Draw result r finds nothing exactly when no sample s has an eligible position
      below bounds[s]; otherwise it is such a position. */
  predicate DrawnWithin(r: Option<(nat, nat)>, x: seq<seq<seq<bool>>>, nFt: nat, len: seq<nat>, chans: seq<nat>,
                        alpha: real, bounds: seq<nat>)
    requires Shaped(x, nFt, len) && ChannelsBelow(chans, nFt) && |bounds| == |len|
    requires forall s :: 0 <= s < |len| ==> bounds[s] <= len[s]
  {
    (r.None? <==> forall s, t :: 0 <= s < |len| && 0 <= t < bounds[s] ==> !Eligible(x[s], chans, t, alpha)) &&
    (r.Some? ==> r.value.0 < |len| && r.value.1 < bounds[r.value.0] && Eligible(x[r.value.0], chans, r.value.1, alpha))
  }

  /** Under either layout, the draw finds nothing exactly when no sample has an
      eligible position among its windows; otherwise it is such a position. */
  lemma DrawExactly(layout: Layout, run: Run, P: Params, x: seq<seq<seq<bool>>>, i: nat)
    requires Drawable(layout, run, P, i) && Shaped(x, run.nFt, run.len)
    ensures DrawnWithin(AnchorDraw(layout, run, P, x, i), x, run.nFt, run.len, ChannelsOf(run, P, i), run.alpha,
                        Bounds(run.len, P.lengths[i], P.dilations[i], run.usePhase))
  {
    var l, d := P.lengths[i], P.dilations[i];
    var b := Bounds(run.len, l, d, run.usePhase);
    if layout.FixedLength? {
      var w := NumWindows(layout.n, l, d, run.usePhase);
      assert forall s :: 0 <= s < |run.len| ==> b[s] == w <= run.len[s];
      SameLengthWithin(run.rng, i, x, run.nFt, run.len, ChannelsOf(run, P, i), run.alpha, b, w);
    }
  }

  /** When every sample's bound is w, within its length, the same-length draw is
      stated by the bounds. */
  lemma SameLengthWithin(rng: Rng, i: nat, x: seq<seq<seq<bool>>>, nFt: nat, len: seq<nat>, chans: seq<nat>,
                         alpha: real, bounds: seq<nat>, w: nat)
    requires Shaped(x, nFt, len) && ChannelsBelow(chans, nFt) && |bounds| == |len|
    requires forall s :: 0 <= s < |len| ==> bounds[s] == w <= len[s]
    ensures DrawnWithin(SameLengthDraw(rng, i, x, nFt, len, chans, alpha, w), x, nFt, len, chans, alpha, bounds)
  {
    var r := SameLengthDraw(rng, i, x, nFt, len, chans, alpha, w);
    if r.None? {
      forall s, t | 0 <= s < |len| && 0 <= t < bounds[s]
        ensures !Eligible(x[s], chans, t, alpha)
      {
        assert t < w && t < len[s];
      }
    } else {
      assert r.value.0 < |x|;
    }
  }

  /** With alpha <= 0 every shapelet finds an anchor as soon as there is a sample. */
  lemma DrawWhenAlphaNonPositive(layout: Layout, run: Run, P: Params, x: seq<seq<seq<bool>>>, i: nat)
    requires Drawable(layout, run, P, i) && Shaped(x, run.nFt, run.len)
    requires run.alpha <= 0.0 && |run.len| > 0
    ensures AnchorDraw(layout, run, P, x, i).Some?
  {
    var chans := ChannelsOf(run, P, i);
    var b := Bounds(run.len, P.lengths[i], P.dilations[i], run.usePhase);
    assert 0 < b[0] <= run.len[0];
    assert forall j :: 0 <= j < |chans| ==> chans[j] < |x[0]| && 0 < |x[0][chans[j]]|;
    EligibleByAlpha(x[0], chans, 0, run.alpha);
    DrawExactly(layout, run, P, x, i);
  }

  // ----------------------------------------------------------- the sampling

  /** The `i_mask` loop of the variable-length generator: sample s is eligible exactly
      when some position below its bound is. */
  method EligibleSamples(x: seq<seq<seq<bool>>>, nFt: nat, len: seq<nat>, chans: seq<nat>, alpha: real,
                         bounds: seq<nat>)
    returns (iMask: seq<bool>)
    requires Shaped(x, nFt, len) && ChannelsBelow(chans, nFt) && |bounds| == |len|
    requires forall s :: 0 <= s < |bounds| ==> bounds[s] <= len[s]
    ensures |iMask| == |bounds|
    ensures forall s :: 0 <= s < |bounds| ==>
      (iMask[s] <==> exists t :: 0 <= t < bounds[s] && Eligible(x[s], chans, t, alpha))
  {
    iMask := [];
    for s := 0 to |bounds|
      invariant |iMask| == s
      invariant forall s' :: 0 <= s' < s ==>
        (iMask[s'] <==> exists t :: 0 <= t < bounds[s'] && Eligible(x[s'], chans, t, alpha))
    {
      var row := EligibleRow(x[s], chans, alpha, bounds[s]);
      iMask := iMask + [true in row];
    }
  }

  /** The variable-length sampling: the `i_mask` loop, then the draws of a sample and
      a position; it finds what `DrawAnchor` finds. */
  method FindAnchor(rng: Rng, i: nat, x: seq<seq<seq<bool>>>, nFt: nat, len: seq<nat>, chans: seq<nat>, alpha: real,
                    bounds: seq<nat>) returns (r: Option<(nat, nat)>)
    requires Shaped(x, nFt, len) && ChannelsBelow(chans, nFt) && |bounds| == |len|
    requires forall s :: 0 <= s < |bounds| ==> bounds[s] <= len[s]
    ensures r == DrawAnchor(rng, i, x, nFt, len, chans, alpha, bounds)
    ensures r.None? <==> forall s, t :: 0 <= s < |bounds| && 0 <= t < bounds[s] ==> !Eligible(x[s], chans, t, alpha)
  {
    var iMask := EligibleSamples(x, nFt, len, chans, alpha, bounds);
    assert iMask == SampleMask(x, nFt, len, chans, alpha, bounds);
    var open := Where(iMask);
    r := None;
    if |open| > 0 {
      var s := Choose(rng, SampleDraw(i), open);
      var row := EligibleRow(x[s], chans, alpha, bounds[s]);
      var t0 :| 0 <= t0 < bounds[s] && Eligible(x[s], chans, t0, alpha);
      assert row[t0];
      r := Some((s, Choose(rng, IndexDraw(i), Where(row))));
    }
  }

  /** The sampling part of one pass for shapelet i: draw its channels, then, with a
      fixed length, list the eligible cells of slice g of the mask left of d_shape and
      pick one, or, with variable lengths, run `FindAnchor` on that slice. What it finds
      is shapelet i's draw from the slice, which with alpha <= 0 always finds one. */
  method SampleAnchor(layout: Layout, run: Run, P: Params, mask: array5<bool>, g: nat, i: nat)
    returns (r: Option<(nat, nat)>)
    requires Drawable(layout, run, P, i) && mask.Length0 == 2 && g < mask.Length1
    requires mask.Length2 == |run.len| && mask.Length3 == run.nFt
    requires forall s :: 0 <= s < |run.len| ==> run.len[s] <= mask.Length4
    ensures r == AnchorDraw(layout, run, P, MaskSlice(mask, U.NormIndex(P.normalize[i]), g, run.len), i)
    ensures r.Some? ==>
      r.value.0 < |run.len| && r.value.1 < NumWindows(run.len[r.value.0], P.lengths[i], P.dilations[i], run.usePhase)
    ensures run.alpha <= 0.0 && |run.len| > 0 ==> r.Some?
  {
    var chans := ChannelsOf(run, P, i);
    var x := MaskSlice(mask, U.NormIndex(P.normalize[i]), g, run.len);
    match layout {
      case FixedLength(n) =>
        var dShape := NumWindows(n, P.lengths[i], P.dilations[i], run.usePhase);
        var cells := TrueCells(EligibleRows(x, run.nFt, run.len, chans, run.alpha), dShape);
        r := if |cells| == 0 then None else Some(PickCell(run.rng, i, cells));
      case VariableLength =>
        var bounds := Bounds(run.len, P.lengths[i], P.dilations[i], run.usePhase);
        r := FindAnchor(run.rng, i, x, run.nFt, run.len, chans, run.alpha, bounds);
    }
    DrawExactly(layout, run, P, x, i);
    if run.alpha <= 0.0 && |run.len| > 0 {
      DrawWhenAlphaNonPositive(layout, run, P, x, i);
    }
  }
}
