/**
 * The pieces the three shapelet generators share: drawing the length, dilation
 * and normalisation flag of every shapelet (`*_init_random_shapelet_params`),
 * the self-similarity clearing radius, the row-major list of eligible mask
 * cells, the anchor draw and the choice of the comparison sample.
 */
module Sampling {
  import opened ArrayOps
  import opened Commons

  datatype Option<T> = None | Some(value: T)

  /** Where a shapelet was cut from (sample and start index), and the sample its
      threshold was calibrated on. */
  datatype Anchor = Anchor(sample: nat, index: nat, test: nat)

  // ------------------------------------------------------------- dilations

  /** `floor_divide(n - 1, l - 1)`, the largest dilation d with (l - 1) * d <= n - 1;
      `2**log2(...)` recovers it. */
  function DilationBound(n: nat, l: nat): (b: nat)
    requires 2 <= l <= n
    ensures 1 <= b && (l - 1) * b <= n - 1 < (l - 1) * (b + 1)
  {
    var q := (n - 1) / (l - 1);
    assert (l - 1) * q + (n - 1) % (l - 1) == n - 1;
    q
  }

  /** A dilation within the bound leaves at least one full window. */
  lemma DilationFits(n: nat, l: nat, d: nat)
    requires 2 <= l <= n && 1 <= d <= DilationBound(n, l)
    ensures (l - 1) * d <= n - 1
    ensures WindowsFit(n, l, d, false) && NumWindows(n, l, d, false) >= 1
  {
    MulMono(d, DilationBound(n, l), l - 1);
  }

  /** What the initialiser guarantees of one shapelet's length and dilation. */
  predicate ValidShapelet(sizes: seq<int>, l: int, d: int, n: nat, primeScheme: bool) {
    l in sizes && 2 <= l <= n && 1 <= d <= DilationBound(n, l) && (primeScheme ==> d == 1 || Prime(d))
  }

  /** A dilation drawn from the primes up to the bound, 1 included. */
  function PrimeDilation(rng: Rng, i: nat, primes: seq<nat>, top: nat, bound: nat): (d: int)
    requires forall k: nat :: k in primes <==> k <= top && (k == 1 || Prime(k))
    requires 1 <= bound <= top
    ensures 1 <= d <= bound && (d == 1 || Prime(d))
  {
    assert 1 in primes;
    var candidates := Below(primes, bound);
    assert 1 in candidates;
    var d := Choose(rng, DilationDraw(i), candidates);
    assert d in primes && d <= bound;
    var k :| 0 <= k < |primes| && primes[k] == d;
    assert d == 1 || Prime(d);
    d
  }

  /** A dilation drawn from 1..bound. */
  function PlainDilation(rng: Rng, i: nat, bound: nat): (d: int)
    requires 1 <= bound
    ensures 1 <= d <= bound
  {
    Choose(rng, DilationDraw(i), Range(1, bound + 1))
  }

  /** The dilation loop: shapelet i draws a prime (1 included) up to its bound
      under the prime scheme, any of 1..bound otherwise. */
  method DrawDilations(rng: Rng, bounds: seq<nat>, primeScheme: bool, primes: seq<nat>, top: nat) returns (dilations: seq<int>)
    requires forall i :: 0 <= i < |bounds| ==> 1 <= bounds[i]
    requires primeScheme ==> forall i :: 0 <= i < |bounds| ==> bounds[i] <= top
    requires primeScheme ==> forall k: nat :: k in primes <==> k <= top && (k == 1 || Prime(k))
    ensures |dilations| == |bounds|
    ensures forall i :: 0 <= i < |bounds| ==> 1 <= dilations[i] <= bounds[i] && (primeScheme ==> dilations[i] == 1 || Prime(dilations[i]))
  {
    var dil := new int[|bounds|];
    for i := 0 to |bounds|
      invariant forall k :: 0 <= k < i ==> 1 <= dil[k] <= bounds[k] && (primeScheme ==> dil[k] == 1 || Prime(dil[k]))
    {
      if primeScheme {
        dil[i] := PrimeDilation(rng, i, primes, top, bounds[i]);
      } else {
        dil[i] := PlainDilation(rng, i, bounds[i]);
      }
    }
    dilations := dil[..];
  }

  /** The draws shared by the three initialisers: a length from `sizes`, a dilation
      within the bound (a prime, 1 included, under the prime scheme) and the
      normalisation flag `random() < p_norm`. */
  method DrawShapeletParams(nShapelets: nat, sizes: seq<int>, nTimestamps: nat, pNorm: real, primeScheme: bool, rng: Rng)
    returns (lengths: seq<int>, dilations: seq<int>, normalize: seq<bool>)
    requires |sizes| > 0 && forall k :: 0 <= k < |sizes| ==> 2 <= sizes[k] <= nTimestamps
    requires primeScheme ==> nShapelets > 0
    ensures |lengths| == nShapelets && |dilations| == nShapelets && |normalize| == nShapelets
    ensures forall i :: 0 <= i < nShapelets ==> ValidShapelet(sizes, lengths[i], dilations[i], nTimestamps, primeScheme)
    ensures forall i :: 0 <= i < nShapelets ==> (normalize[i] <==> Random(rng, NormalizeDraw(i)) < pNorm)
  {
    lengths := seq(nShapelets, i requires 0 <= i < nShapelets => Choose(rng, LengthDraw(i), sizes));
    assert forall i :: 0 <= i < nShapelets ==> lengths[i] in sizes;
    var bounds := seq(nShapelets, i requires 0 <= i < nShapelets => DilationBound(nTimestamps, lengths[i]));
    if primeScheme {
      var top := MaxOf(bounds);
      var primes := PrimeUpTo(top);
      dilations := DrawDilations(rng, bounds, true, primes, top);
    } else {
      dilations := DrawDilations(rng, bounds, false, [], 0);
    }
    normalize := seq(nShapelets, i requires 0 <= i < nShapelets => Random(rng, NormalizeDraw(i)) < pNorm);
  }

  /** Univariate initialiser: parameters plus zeroed `values` (one row of width
      max(sizes) per shapelet) and `threshold` buffers. */
  method InitRandomShapeletParams(nShapelets: nat, sizes: seq<int>, nTimestamps: nat, pNorm: real, primeScheme: bool, rng: Rng)
    returns (values: array2<real>, lengths: seq<int>, dilations: seq<int>, threshold: array<real>, normalize: seq<bool>)
    requires |sizes| > 0 && forall k :: 0 <= k < |sizes| ==> 2 <= sizes[k] <= nTimestamps
    requires primeScheme ==> nShapelets > 0
    ensures fresh(values) && fresh(threshold)
    ensures values.Length0 == nShapelets && values.Length1 == MaxOf(sizes) && threshold.Length == nShapelets
    ensures forall i, j :: 0 <= i < values.Length0 && 0 <= j < values.Length1 ==> values[i, j] == 0.0
    ensures forall i :: 0 <= i < threshold.Length ==> threshold[i] == 0.0
    ensures |lengths| == nShapelets && |dilations| == nShapelets && |normalize| == nShapelets
    ensures forall i :: 0 <= i < nShapelets ==> ValidShapelet(sizes, lengths[i], dilations[i], nTimestamps, primeScheme)
    ensures forall i :: 0 <= i < nShapelets ==> (normalize[i] <==> Random(rng, NormalizeDraw(i)) < pNorm)
  {
    lengths, dilations, normalize := DrawShapeletParams(nShapelets, sizes, nTimestamps, pNorm, primeScheme, rng);
    threshold := new real[nShapelets](_ => 0.0);
    values := new real[nShapelets, MaxOf(sizes)]((_, _) => 0.0);
  }

  /** `n_channels * lengths`: the number of values each multivariate shapelet holds. */
  function BlockSizes(lengths: seq<int>, nChannels: seq<int>): (r: seq<int>)
    requires |lengths| == |nChannels|
    ensures |r| == |lengths|
    ensures forall i :: 0 <= i < |r| ==> r[i] == nChannels[i] * lengths[i]
  {
    seq(|lengths|, i requires 0 <= i < |lengths| => nChannels[i] * lengths[i])
  }

  /** Filtering the block sizes is taking the block sizes of the filtered parameters. */
  lemma BlockSizesCompact(lengths: seq<int>, nChannels: seq<int>, keep: seq<bool>)
    requires |lengths| == |nChannels| == |keep|
    ensures Compact(BlockSizes(lengths, nChannels), keep) == BlockSizes(Compact(lengths, keep), Compact(nChannels, keep))
  {
    var w := Where(keep);
    assert |Compact(lengths, keep)| == |w| == |Compact(nChannels, keep)|;
  }

  lemma BlockSizesNonNegative(lengths: seq<int>, nChannels: seq<int>)
    requires |lengths| == |nChannels| && forall i :: 0 <= i < |lengths| ==> lengths[i] >= 0 && nChannels[i] >= 0
    ensures Sum(BlockSizes(lengths, nChannels)) >= 0
  {
    var b := BlockSizes(lengths, nChannels);
    forall i | 0 <= i < |b|
      ensures b[i] >= 0
    {
      NonNegativeProduct(nChannels[i], lengths[i]);
    }
    SumNonNegative(b);
  }

  lemma NonNegativeProduct(a: int, b: int)
    requires a >= 0 && b >= 0
    ensures a * b >= 0
  {
  }

  lemma {:induction false} SumNonNegative(xs: seq<int>)
    requires forall i :: 0 <= i < |xs| ==> xs[i] >= 0
    ensures Sum(xs) >= 0
  {
    if |xs| > 0 {
      SumNonNegative(xs[..|xs| - 1]);
    }
  }

  /** Multivariate initialiser (same-length and variable-length): parameters, a
      channel count in [1, max_channels] per shapelet, and zeroed flat buffers
      sized for every shapelet's `n_channels * length` values and `n_channels`
      channel ids. */
  method InitMultivariateParams(nShapelets: nat, sizes: seq<int>, nTimestamps: nat, pNorm: real, maxChannels: nat,
                                primeScheme: bool, rng: Rng)
    returns (values: array<real>, lengths: seq<int>, dilations: seq<int>, threshold: array<real>, normalize: seq<bool>,
             nChannels: seq<int>, channelIds: array<int>)
    requires |sizes| > 0 && forall k :: 0 <= k < |sizes| ==> 2 <= sizes[k] <= nTimestamps
    requires primeScheme ==> nShapelets > 0
    requires maxChannels >= 1
    ensures fresh(values) && fresh(threshold) && fresh(channelIds) && values != threshold
    ensures |lengths| == nShapelets && |dilations| == nShapelets && |normalize| == nShapelets && |nChannels| == nShapelets
    ensures forall i :: 0 <= i < nShapelets ==> ValidShapelet(sizes, lengths[i], dilations[i], nTimestamps, primeScheme)
    ensures forall i :: 0 <= i < nShapelets ==> (normalize[i] <==> Random(rng, NormalizeDraw(i)) < pNorm)
    ensures forall i :: 0 <= i < nShapelets ==> 1 <= nChannels[i] <= maxChannels
    ensures threshold.Length == nShapelets && forall i :: 0 <= i < nShapelets ==> threshold[i] == 0.0
    ensures values.Length == Sum(BlockSizes(lengths, nChannels)) && forall k :: 0 <= k < values.Length ==> values[k] == 0.0
    ensures channelIds.Length == Sum(nChannels) && forall k :: 0 <= k < channelIds.Length ==> channelIds[k] == 0
  {
    lengths, dilations, normalize := DrawShapeletParams(nShapelets, sizes, nTimestamps, pNorm, primeScheme, rng);
    threshold := new real[nShapelets](_ => 0.0);
    nChannels := seq(nShapelets, i requires 0 <= i < nShapelets => Choose(rng, ChannelCountDraw(i), Range(0, maxChannels)) + 1);
    SumNonNegative(nChannels);
    channelIds := new int[Sum(nChannels)](_ => 0);
    var sizesFlat := BlockSizes(lengths, nChannels);
    BlockSizesNonNegative(lengths, nChannels);
    values := new real[Sum(sizesFlat)](_ => 0.0);
  }

  // ------------------------------------------------------ mask bookkeeping

  /** `dilations == dil`. */
  function DilationMask(dilations: seq<int>, dil: int): (sel: seq<bool>)
    ensures |sel| == |dilations| && forall j :: 0 <= j < |dilations| ==> (sel[j] <==> dilations[j] == dil)
  {
    seq(|dilations|, j requires 0 <= j < |dilations| => dilations[j] == dil)
  }

  /** `min_l = min(lengths[where(dilations == dil)[0]])`, the shortest length of the
      group of dilation dil (0 for a dilation no shapelet has). */
  function GroupMinLength(lengths: seq<int>, dilations: seq<int>, dil: int): int
    requires |lengths| == |dilations|
  {
    var ids := Where(DilationMask(dilations, dil));
    if |ids| == 0 then 0 else MinOf(Select(lengths, ids))
  }

  /** `alpha_size = l - int64(max(1, (1 - alpha) * min_l))`; the cast truncates a
      value that is at least 1, so it is the floor. */
  function AlphaSize(l: int, alpha: real, minL: int): int {
    var span := (1.0 - alpha) * minL as real;
    l - (if span < 1.0 then 1.0 else span).Floor
  }

  /** `range(k)` has max(k, 0) steps. */
  function Steps(k: int): nat {
    if k < 0 then 0 else k
  }

  /** For alpha in [0, 1] and the group's shortest length min_l <= l, the clearing
      radius stays below the shapelet length. */
  lemma AlphaSizeRange(l: int, alpha: real, minL: int)
    requires 0.0 <= alpha <= 1.0 && 1 <= minL <= l
    ensures 0 <= AlphaSize(l, alpha, minL) <= l - 1
  {
    ScaleBelow(minL as real, 1.0 - alpha);
  }

  function Back(index: int, d: int, n: nat, j: int): int
    requires n > 0
  {
    (index - j * d) % n
  }

  function Forth(index: int, d: int, n: nat, j: int): int
    requires n > 0
  {
    (index + j * d) % n
  }

  /** The time positions `(index - j*d) % n` and `(index + j*d) % n` for j < k: the
      cells a sampled shapelet clears. They wrap into [0, n); they include the anchor
      when the radius k is positive, and are empty when it is 0 (`range(0)` clears
      nothing). */
  function Cleared(index: int, d: int, n: nat, k: nat): (c: set<int>)
    requires n > 0
    ensures forall t :: t in c ==> 0 <= t < n
    ensures k > 0 ==> index % n in c
    ensures k == 0 ==> c == {}
  {
    if k == 0 then {} else Cleared(index, d, n, k - 1) + {Back(index, d, n, k - 1), Forth(index, d, n, k - 1)}
  }

  /** A position is cleared exactly when it is `(index - j*d) % n` or `(index + j*d) % n`
      for some step j of `range(k)`. */
  lemma {:induction false} ClearedExactly(index: int, d: int, n: nat, k: nat, t: int)
    requires n > 0
    ensures t in Cleared(index, d, n, k) <==>
            exists j :: 0 <= j < k && (t == Back(index, d, n, j) || t == Forth(index, d, n, j))
  {
    if k > 0 {
      ClearedExactly(index, d, n, k - 1, t);
      if t in Cleared(index, d, n, k) && t !in Cleared(index, d, n, k - 1) {
        assert t == Back(index, d, n, k - 1) || t == Forth(index, d, n, k - 1);
      }
      if exists j :: 0 <= j < k && (t == Back(index, d, n, j) || t == Forth(index, d, n, j)) {
        var j :| 0 <= j < k && (t == Back(index, d, n, j) || t == Forth(index, d, n, j));
        if j < k - 1 {
          assert t in Cleared(index, d, n, k - 1);
        }
      }
    }
  }

  /** With alpha = 0 the mask can still close a whole slice: in a group whose
      shortest length is 2, a length-9 shapelet at dilation 1 on series of length 10
      has radius 7 and clears every position, wherever it is anchored. */
  lemma ZeroAlphaClosesEveryCell(index: int)
    ensures AlphaSize(9, 0.0, 2) == 7
    ensures forall t :: 0 <= t < 10 ==> t in Cleared(index, 1, 10, 7)
  {
    forall t | 0 <= t < 10
      ensures t in Cleared(index, 1, 10, 7)
    {
      var j := (t - index) % 10;
      if j < 7 {
        assert Forth(index, 1, 10, j) == t;
      } else {
        assert Back(index, 1, 10, 10 - j) == t;
      }
      ClearedExactly(index, 1, 10, 7, t);
    }
  }

  /** Cells (s, t) of row s with t < width holding true, in column order. */
  function RowCells(s: nat, row: seq<bool>, width: nat): (cells: seq<(nat, nat)>)
  {
    var m := if width < |row| then width else |row|;
    var w := Where(row[..m]);
    seq(|w|, k requires 0 <= k < |w| => (s, w[k]))
  }

  lemma RowCellsExactly(s: nat, row: seq<bool>, width: nat)
    ensures forall c :: c in RowCells(s, row, width) <==> c.0 == s && c.1 < width && c.1 < |row| && row[c.1]
  {
    var m := if width < |row| then width else |row|;
    var w := Where(row[..m]);
    var cells := RowCells(s, row, width);
    forall t: nat | t < width && t < |row| && row[t]
      ensures (s, t) in cells
    {
      assert row[..m][t];
      var k :| 0 <= k < |w| && w[k] == t;
      assert cells[k] == (s, t);
    }
  }

  /** NumPy `where` over the first `width` columns of a boolean matrix: the true
      cells, row by row. */
  function TrueCells(rows: seq<seq<bool>>, width: nat): (cells: seq<(nat, nat)>)
    ensures forall c :: c in cells <==> c.0 < |rows| && c.1 < width && c.1 < |rows[c.0]| && rows[c.0][c.1]
  {
    if |rows| == 0 then []
    else
      var n := |rows| - 1;
      RowCellsExactly(n, rows[n], width);
      TrueCells(rows[..n], width) + RowCells(n, rows[n], width)
  }

  /** `i_mask[0]`: the sample of every eligible cell (a sample appears once per cell). */
  function SampleColumn(cells: seq<(nat, nat)>): (r: seq<nat>)
    ensures |r| == |cells| && forall k :: 0 <= k < |cells| ==> r[k] == cells[k].0
  {
    seq(|cells|, k requires 0 <= k < |cells| => cells[k].0)
  }

  /** `i_mask[1][i_mask[0] == s]`: the eligible positions of sample s. */
  function IndicesOf(cells: seq<(nat, nat)>, s: nat): (r: seq<nat>)
    ensures forall t: nat :: t in r <==> (s, t) in cells
  {
    if |cells| == 0 then []
    else
      var n := |cells| - 1;
      var p := IndicesOf(cells[..n], s);
      assert cells == cells[..n] + [cells[n]];
      if cells[n].0 == s then p + [cells[n].1] else p
  }

  /** The anchor draw: a sample among the eligible cells' samples, then one of that
      sample's eligible positions. */
  function PickCell(rng: Rng, shapelet: nat, cells: seq<(nat, nat)>): (c: (nat, nat))
    requires |cells| > 0
    ensures c in cells
  {
    var column := SampleColumn(cells);
    var s := Choose(rng, SampleDraw(shapelet), column);
    var k :| 0 <= k < |column| && column[k] == s;
    assert (s, cells[k].1) in cells;
    var t := Choose(rng, IndexDraw(shapelet), IndicesOf(cells, s));
    (s, t)
  }

  // ------------------------------------------------------ comparison sample

  /** `id_test`: a sample of the anchor's class other than the anchor when the class
      has one, else the anchor itself. */
  function ComparisonSample(rng: Rng, shapelet: nat, y: seq<int>, s: nat): (t: nat)
    requires s < |y|
    ensures t < |y| && y[t] == y[s]
    ensures t == s <==> forall u :: 0 <= u < |y| && u != s ==> y[u] != y[s]
  {
    var same := Where(seq(|y|, k requires 0 <= k < |y| => y[k] == y[s]));
    assert s in same;
    if |same| > 1 then
      var others := Without(same, s);
      assert same[0] in others || same[1] in others;
      var t := Choose(rng, TestDraw(shapelet), others);
      assert t in same;
      t
    else
      SameClassOnly(y, s, same);
      s
  }

  lemma SameClassOnly(y: seq<int>, s: nat, same: seq<nat>)
    requires s < |y| && same == Where(seq(|y|, k requires 0 <= k < |y| => y[k] == y[s]))
    requires |same| <= 1
    ensures forall u :: 0 <= u < |y| && u != s ==> y[u] != y[s]
  {
    assert s in same;
    assert same == [s];
    forall u | 0 <= u < |y| && y[u] == y[s]
      ensures u == s
    {
      assert u in same;
    }
  }
}
