/**
 * The shared kernels of the dilated shapelet transform: the two distances,
 * dilated (optionally phase-shifted) windows of a series, distance profiles,
 * the three-feature extraction, unique length/dilation pairs and the prime
 * sieve used for prime dilations.
 *
 * Floating point is modelled by `real`; z-normalisation, percentiles and the
 * user-chosen distance are function parameters ("seams") about which nothing
 * is assumed. Random draws come from an `Rng` record of oracle functions; the
 * wrappers below reduce each oracle answer into the set the draw is taken from.
 */
module Commons {
  import opened ArrayOps

  // ------------------------------------------------------------ arithmetic

  lemma MulMono(j: nat, m: nat, d: nat)
    requires j <= m
    ensures j * d <= m * d
  {}

  lemma MulSucc(j: int, d: int)
    ensures (j + 1) * d == j * d + d
  {}

  /** Euclidean division is unique. */
  lemma ModUnique(x: int, n: int, q: int, r: int)
    requires n > 0 && 0 <= r < n && x == q * n + r
    ensures x % n == r && x / n == q
  {
    var t := q - x / n;
    assert t * n == x % n - r;
  }

  lemma ModAddStep(a: int, b: int, n: int)
    requires n > 0
    ensures (a % n + b) % n == (a + b) % n
  {
    var c := a % n + b;
    assert a == (a / n) * n + a % n;
    assert c == (c / n) * n + c % n;
    assert a + b == (a / n + c / n) * n + c % n;
    ModUnique(a + b, n, a / n + c / n, c % n);
  }

  lemma ModMul(m: int, k: int)
    requires m > 0
    ensures (m * k) % m == 0
  {
    ModUnique(m * k, m, k, 0);
  }

  lemma EvenFactor(a: int, q: int)
    requires a % 2 == 0
    ensures (a * q) % 2 == 0
  {
    var c := a / 2;
    assert a == 2 * c;
    assert a * q == (c * q) * 2;
    ModUnique(a * q, 2, c * q, 0);
  }

  // ----------------------------------------------------------------- seams

  /** The user-chosen distance between a window and a shapelet. */
  type Distance = (seq<real>, seq<real>) -> real

  /** z-normalisation maps each point p of a vector v to (p - mean(v)) / (std(v) + 1e-8);
      the floating-point map (v, p) is a parameter. */
  type PointNorm = (seq<real>, real) -> real

  /** NumPy `percentile(v, q)`. */
  type Percentile = (seq<real>, real) -> real

  datatype Seams = Seams(dist: Distance, zn: PointNorm, percentile: Percentile)

  function ZNormalize(zn: PointNorm, v: seq<real>): (r: seq<real>)
    ensures |r| == |v|
  {
    seq(|v|, j requires 0 <= j < |v| => zn(v, v[j]))
  }

  // --------------------------------------------------------------- oracles

  /** The place a random draw is made, and for which shapelet. */
  datatype Draw =
    | LengthDraw(shapelet: nat)
    | DilationDraw(shapelet: nat)
    | NormalizeDraw(shapelet: nat)
    | ChannelCountDraw(shapelet: nat)
    | ChannelDraw(shapelet: nat, step: nat)
    | SampleDraw(shapelet: nat)
    | IndexDraw(shapelet: nat)
    | TestDraw(shapelet: nat)
    | ThresholdDraw(shapelet: nat)

  /** The random number generator, as an oracle: `pick(d, n)` names one of n candidates
      (reduced modulo n) and `unit(d)` gives a real whose fractional part is a draw in [0, 1). */
  datatype Rng = Rng(pick: (Draw, nat) -> nat, unit: Draw -> real)

  /** `choice(xs)`. */
  function Choose(rng: Rng, d: Draw, xs: seq<int>): (c: int)
    requires |xs| > 0
    ensures c in xs
  {
    xs[rng.pick(d, |xs|) % |xs|]
  }

  lemma ScaleBelow(a: real, f: real)
    requires a >= 0.0 && 0.0 <= f <= 1.0
    ensures 0.0 <= a * f <= a
  {
    assert a * (1.0 - f) >= 0.0;
  }

  function Frac(r: real): (f: real)
    ensures 0.0 <= f < 1.0
  {
    r - r.Floor as real
  }

  /** `random()`. */
  function Random(rng: Rng, d: Draw): (u: real)
    ensures 0.0 <= u < 1.0
  {
    Frac(rng.unit(d))
  }

  /** `uniform(lo, hi)`, which is `lo + (hi - lo) * random()` and so also accepts hi < lo. */
  function Uniform(rng: Rng, d: Draw, lo: real, hi: real): (u: real)
    ensures lo <= hi ==> lo <= u <= hi
    ensures hi < lo ==> hi <= u <= lo
  {
    var f := Frac(rng.unit(d));
    if lo <= hi then StepUp(lo, hi - lo, f) else StepDown(lo, lo - hi, f)
  }

  function StepUp(lo: real, span: real, f: real): (u: real)
    requires span >= 0.0 && 0.0 <= f <= 1.0
    ensures lo <= u <= lo + span
  {
    ScaleBelow(span, f);
    lo + span * f
  }

  function StepDown(lo: real, span: real, f: real): (u: real)
    requires span >= 0.0 && 0.0 <= f <= 1.0
    ensures lo - span <= u <= lo
  {
    ScaleBelow(span, f);
    lo - span * f
  }

  /** `choice(pool, k, replace=False)`: k distinct entries of pool, drawn one after the other. */
  function ChooseDistinct(rng: Rng, shapelet: nat, pool: seq<nat>, k: nat, step: nat): (r: seq<nat>)
    requires k <= |pool| && Distinct(pool)
    ensures |r| == k && Distinct(r)
    ensures forall j :: 0 <= j < |r| ==> r[j] in pool
    decreases k
  {
    if k == 0 then []
    else
      var i := rng.pick(ChannelDraw(shapelet, step), |pool|) % |pool|;
      var rest := pool[..i] + pool[i + 1..];
      assert forall z :: z in rest ==> z in pool && z != pool[i];
      [pool[i]] + ChooseDistinct(rng, shapelet, rest, k - 1, step + 1)
  }

  // ------------------------------------------------------------- distances

  function SumSquaredDiff(x: seq<real>, y: seq<real>): real
    requires |x| <= |y|
  {
    if |x| == 0 then 0.0
    else SumSquaredDiff(x[..|x| - 1], y) + (x[|x| - 1] - y[|x| - 1]) * (x[|x| - 1] - y[|x| - 1])
  }

  function Abs(r: real): real {
    if r < 0.0 then -r else r
  }

  function SumAbsDiff(x: seq<real>, y: seq<real>): real
    requires |x| <= |y|
  {
    if |x| == 0 then 0.0 else SumAbsDiff(x[..|x| - 1], y) + Abs(x[|x| - 1] - y[|x| - 1])
  }

  /** Squared Euclidean distance over the points of x (y may be longer). */
  method SquaredEuclidean(x: seq<real>, y: seq<real>) returns (s: real)
    requires |x| <= |y|
    ensures s == SumSquaredDiff(x, y)
  {
    s := 0.0;
    for i := 0 to |x|
      invariant s == SumSquaredDiff(x[..i], y)
    {
      assert x[..i + 1][..i] == x[..i];
      s := s + (x[i] - y[i]) * (x[i] - y[i]);
    }
    assert x[..|x|] == x;
  }

  /** Manhattan distance over the points of x (y may be longer). */
  method Manhattan(x: seq<real>, y: seq<real>) returns (s: real)
    requires |x| <= |y|
    ensures s == SumAbsDiff(x, y)
  {
    s := 0.0;
    for i := 0 to |x|
      invariant s == SumAbsDiff(x[..i], y)
    {
      assert x[..i + 1][..i] == x[..i];
      s := s + Abs(x[i] - y[i]);
    }
    assert x[..|x|] == x;
  }

  lemma SquareNonNegative(e: real)
    ensures e * e >= 0.0
  {
    if e < 0.0 { } else { }
  }

  /** The squared distance is non-negative and vanishes on an equal prefix. */
  lemma {:induction false} SquaredEuclideanIsMetricLike(x: seq<real>, y: seq<real>)
    requires |x| <= |y|
    ensures SumSquaredDiff(x, y) >= 0.0
    ensures x == y[..|x|] ==> SumSquaredDiff(x, y) == 0.0
  {
    if |x| > 0 {
      var n := |x| - 1;
      SquaredEuclideanIsMetricLike(x[..n], y);
      SquareNonNegative(x[n] - y[n]);
      if x == y[..|x|] {
        assert x[..n] == y[..n];
        assert x[n] == y[n];
      }
    }
  }

  /** The Manhattan distance is non-negative and vanishes exactly on an equal prefix. */
  lemma {:induction false} ManhattanIsMetricLike(x: seq<real>, y: seq<real>)
    requires |x| <= |y|
    ensures SumAbsDiff(x, y) >= 0.0
    ensures SumAbsDiff(x, y) == 0.0 <==> x == y[..|x|]
  {
    if |x| > 0 {
      var n := |x| - 1;
      ManhattanIsMetricLike(x[..n], y);
      if SumAbsDiff(x, y) == 0.0 {
        assert x[..n] == y[..n];
        assert x == x[..n] + [x[n]];
        assert y[..|x|] == y[..n] + [y[n]];
      }
      if x == y[..|x|] {
        assert x[..n] == y[..n];
      }
    }
  }

  // --------------------------------------------------------------- windows

  /** Windows of w points spaced by d fit a series of n points. */
  predicate WindowsFit(n: nat, w: nat, d: nat, usePhase: bool) {
    w >= 1 && (usePhase || (w - 1) * d <= n)
  }

  /** Number of windows: every start point with phase, else those that fit. */
  function NumWindows(n: nat, w: nat, d: nat, usePhase: bool): nat
    requires WindowsFit(n, w, d, usePhase)
  {
    if usePhase then n else n - (w - 1) * d
  }

  /** Points i, i+d, ..., i+(w-1)d of x. */
  function Stride(x: seq<real>, i: nat, w: nat, d: nat): (r: seq<real>)
    requires w >= 1 && i + (w - 1) * d < |x|
    ensures |r| == w
  {
    seq(w, j requires 0 <= j < w => MulMono(j, w - 1, d); x[i + j * d])
  }

  lemma StrideAt(x: seq<real>, i: nat, w: nat, d: nat, j: nat)
    requires w >= 1 && i + (w - 1) * d < |x| && j < w
    ensures i + j * d < |x| && Stride(x, i, w, d)[j] == x[i + j * d]
  {
    MulMono(j, w - 1, d);
  }

  /** Points i, i+d, ..., i+(w-1)d of x, each taken modulo |x|. */
  function PhaseStride(x: seq<real>, i: nat, w: nat, d: nat): (r: seq<real>)
    requires |x| > 0
    ensures |r| == w
  {
    seq(w, j requires 0 <= j < w => x[(i + j * d) % |x|])
  }

  function RawWindow(x: seq<real>, i: nat, w: nat, d: nat, usePhase: bool): (r: seq<real>)
    requires WindowsFit(|x|, w, d, usePhase) && i < NumWindows(|x|, w, d, usePhase)
    ensures |r| == w
  {
    if usePhase then PhaseStride(x, i, w, d) else Stride(x, i, w, d)
  }

  /** The i-th window, z-normalised when `normalize` is set. */
  function Window(x: seq<real>, i: nat, w: nat, d: nat, normalize: bool, usePhase: bool, zn: PointNorm): (r: seq<real>)
    requires WindowsFit(|x|, w, d, usePhase) && i < NumWindows(|x|, w, d, usePhase)
    ensures |r| == w
  {
    var v := RawWindow(x, i, w, d, usePhase);
    if normalize then ZNormalize(zn, v) else v
  }

  /** Distance of the shapelet `values` to every window of x. */
  function DistProfile(x: seq<real>, values: seq<real>, w: nat, d: nat, normalize: bool, usePhase: bool,
                       dist: Distance, zn: PointNorm): (r: seq<real>)
    requires WindowsFit(|x|, w, d, usePhase)
    ensures |r| == NumWindows(|x|, w, d, usePhase)
  {
    var n := NumWindows(|x|, w, d, usePhase);
    seq(n, i requires 0 <= i < n => dist(Window(x, i, w, d, normalize, usePhase, zn), values))
  }

  function Row(c: array2<real>, i: nat): (r: seq<real>)
    requires i < c.Length0
    reads c
    ensures |r| == c.Length1
  {
    seq(c.Length1, j requires 0 <= j < c.Length1 reads c => c[i, j])
  }

  function Row3(c: array3<real>, f: nat, i: nat): (r: seq<real>)
    requires f < c.Length0 && i < c.Length1
    reads c
    ensures |r| == c.Length2
  {
    seq(c.Length2, j requires 0 <= j < c.Length2 reads c => c[f, i, j])
  }

  /** All series of X have n points. */
  predicate Rectangular(X: seq<seq<real>>, n: nat) {
    forall f :: 0 <= f < |X| ==> |X[f]| == n
  }

  // --------------------------------------------------------------- strides

  method GenerateStrides1DPlain(x: seq<real>, w: nat, d: nat) returns (c: array2<real>)
    requires WindowsFit(|x|, w, d, false)
    ensures fresh(c) && c.Length0 == NumWindows(|x|, w, d, false) && c.Length1 == w
    ensures forall i :: 0 <= i < c.Length0 ==> Row(c, i) == Stride(x, i, w, d)
  {
    var rows := |x| - (w - 1) * d;
    c := new real[rows, w];
    for i := 0 to rows
      invariant forall i', j :: 0 <= i' < i && 0 <= j < w ==> c[i', j] == Stride(x, i', w, d)[j]
    {
      for j := 0 to w
        invariant forall i', j' :: 0 <= i' < i && 0 <= j' < w ==> c[i', j'] == Stride(x, i', w, d)[j']
        invariant forall j' :: 0 <= j' < j ==> c[i, j'] == Stride(x, i, w, d)[j']
      {
        MulMono(j, w - 1, d);
        c[i, j] := x[i + j * d];
      }
    }
    forall i | 0 <= i < rows
      ensures Row(c, i) == Stride(x, i, w, d)
    {
    }
  }

  method GenerateStrides1DPhase(x: seq<real>, w: nat, d: nat) returns (c: array2<real>)
    requires WindowsFit(|x|, w, d, true)
    ensures fresh(c) && c.Length0 == NumWindows(|x|, w, d, true) && c.Length1 == w
    ensures forall i :: 0 <= i < c.Length0 ==> Row(c, i) == PhaseStride(x, i, w, d)
  {
    var n := |x|;
    c := new real[n, w];
    for i := 0 to n
      invariant forall i', j :: 0 <= i' < i && 0 <= j < w ==> c[i', j] == PhaseStride(x, i', w, d)[j]
    {
      for j := 0 to w
        invariant forall i', j' :: 0 <= i' < i && 0 <= j' < w ==> c[i', j'] == PhaseStride(x, i', w, d)[j']
        invariant forall j' :: 0 <= j' < j ==> c[i, j'] == PhaseStride(x, i, w, d)[j']
      {
        c[i, j] := x[(i + j * d) % n];
      }
    }
    forall i | 0 <= i < n
      ensures Row(c, i) == PhaseStride(x, i, w, d)
    {
    }
  }

  /** The matrix of all windows of x, one per row. */
  method GenerateStrides1D(x: seq<real>, w: nat, d: nat, usePhase: bool) returns (c: array2<real>)
    requires WindowsFit(|x|, w, d, usePhase)
    ensures fresh(c) && c.Length0 == NumWindows(|x|, w, d, usePhase) && c.Length1 == w
    ensures forall i :: 0 <= i < c.Length0 ==> Row(c, i) == RawWindow(x, i, w, d, usePhase)
  {
    if usePhase {
      c := GenerateStrides1DPhase(x, w, d);
    } else {
      c := GenerateStrides1DPlain(x, w, d);
    }
  }

  method GenerateStrides2DPlain(X: seq<seq<real>>, n: nat, w: nat, d: nat) returns (c: array3<real>)
    requires Rectangular(X, n) && WindowsFit(n, w, d, false)
    ensures fresh(c) && c.Length0 == |X| && c.Length1 == NumWindows(n, w, d, false) && c.Length2 == w
    ensures forall f, i :: 0 <= f < c.Length0 && 0 <= i < c.Length1 ==> Row3(c, f, i) == Stride(X[f], i, w, d)
  {
    var rows := n - (w - 1) * d;
    c := new real[|X|, rows, w];
    for f := 0 to |X|
      invariant forall f', i, j :: 0 <= f' < f && 0 <= i < rows && 0 <= j < w ==> c[f', i, j] == Stride(X[f'], i, w, d)[j]
    {
      for i := 0 to rows
        invariant forall f', i', j :: 0 <= f' < f && 0 <= i' < rows && 0 <= j < w ==> c[f', i', j] == Stride(X[f'], i', w, d)[j]
        invariant forall i', j :: 0 <= i' < i && 0 <= j < w ==> c[f, i', j] == Stride(X[f], i', w, d)[j]
      {
        for j := 0 to w
          invariant forall f', i', j' :: 0 <= f' < f && 0 <= i' < rows && 0 <= j' < w ==> c[f', i', j'] == Stride(X[f'], i', w, d)[j']
          invariant forall i', j' :: 0 <= i' < i && 0 <= j' < w ==> c[f, i', j'] == Stride(X[f], i', w, d)[j']
          invariant forall j' :: 0 <= j' < j ==> c[f, i, j'] == Stride(X[f], i, w, d)[j']
        {
          MulMono(j, w - 1, d);
          c[f, i, j] := X[f][i + j * d];
        }
      }
    }
    forall f, i | 0 <= f < |X| && 0 <= i < rows
      ensures Row3(c, f, i) == Stride(X[f], i, w, d)
    {
    }
  }

  method GenerateStrides2DPhase(X: seq<seq<real>>, n: nat, w: nat, d: nat) returns (c: array3<real>)
    requires Rectangular(X, n) && WindowsFit(n, w, d, true)
    ensures fresh(c) && c.Length0 == |X| && c.Length1 == NumWindows(n, w, d, true) && c.Length2 == w
    ensures forall f, i :: 0 <= f < c.Length0 && 0 <= i < c.Length1 ==> Row3(c, f, i) == PhaseStride(X[f], i, w, d)
  {
    c := new real[|X|, n, w];
    for f := 0 to |X|
      invariant forall f', i, j :: 0 <= f' < f && 0 <= i < n && 0 <= j < w ==> c[f', i, j] == PhaseStride(X[f'], i, w, d)[j]
    {
      for i := 0 to n
        invariant forall f', i', j :: 0 <= f' < f && 0 <= i' < n && 0 <= j < w ==> c[f', i', j] == PhaseStride(X[f'], i', w, d)[j]
        invariant forall i', j :: 0 <= i' < i && 0 <= j < w ==> c[f, i', j] == PhaseStride(X[f], i', w, d)[j]
      {
        for j := 0 to w
          invariant forall f', i', j' :: 0 <= f' < f && 0 <= i' < n && 0 <= j' < w ==> c[f', i', j'] == PhaseStride(X[f'], i', w, d)[j']
          invariant forall i', j' :: 0 <= i' < i && 0 <= j' < w ==> c[f, i', j'] == PhaseStride(X[f], i', w, d)[j']
          invariant forall j' :: 0 <= j' < j ==> c[f, i, j'] == PhaseStride(X[f], i, w, d)[j']
        {
          c[f, i, j] := X[f][(i + j * d) % n];
        }
      }
    }
    forall f, i | 0 <= f < |X| && 0 <= i < n
      ensures Row3(c, f, i) == PhaseStride(X[f], i, w, d)
    {
    }
  }

  /** For each series of X (channels, or samples), the matrix of its windows. */
  method GenerateStrides2D(X: seq<seq<real>>, n: nat, w: nat, d: nat, usePhase: bool) returns (c: array3<real>)
    requires Rectangular(X, n) && WindowsFit(n, w, d, usePhase)
    ensures fresh(c) && c.Length0 == |X| && c.Length1 == NumWindows(n, w, d, usePhase) && c.Length2 == w
    ensures forall f, i :: 0 <= f < c.Length0 && 0 <= i < c.Length1 ==> Row3(c, f, i) == RawWindow(X[f], i, w, d, usePhase)
  {
    if usePhase {
      c := GenerateStrides2DPhase(X, n, w, d);
    } else {
      c := GenerateStrides2DPlain(X, n, w, d);
    }
  }

  // ---------------------------------------------------------- subsequences

  method GetSubsequencePlain(x: seq<real>, iStart: nat, length: nat, d: nat, normalize: bool, zn: PointNorm)
    returns (v: seq<real>)
    requires length >= 1 && iStart + (length - 1) * d < |x|
    ensures var s := Stride(x, iStart, length, d); v == if normalize then ZNormalize(zn, s) else s
  {
    var buf := new real[length];
    var idx := iStart;
    ghost var s := Stride(x, iStart, length, d);
    for j := 0 to length
      invariant idx == iStart + j * d
      invariant buf[..j] == s[..j]
    {
      StrideAt(x, iStart, length, d, j);
      buf[j] := x[idx];
      assert buf[..j + 1] == s[..j + 1];
      MulSucc(j, d);
      idx := idx + d;
    }
    assert buf[..] == buf[..length];
    var raw := buf[..];
    assert raw == s;
    v := if normalize then ZNormalize(zn, raw) else raw;
  }

  method GetSubsequencePhase(x: seq<real>, iStart: nat, length: nat, d: nat, normalize: bool, zn: PointNorm)
    returns (v: seq<real>)
    requires iStart < |x|
    ensures var s := PhaseStride(x, iStart, length, d); v == if normalize then ZNormalize(zn, s) else s
  {
    var nTs := |x|;
    var buf := new real[length];
    var idx := iStart;
    ghost var s := PhaseStride(x, iStart, length, d);
    for j := 0 to length
      invariant idx == (iStart + j * d) % nTs
      invariant buf[..j] == s[..j]
    {
      buf[j] := x[idx];
      assert buf[..j + 1] == s[..j + 1];
      ModAddStep(iStart + j * d, d, nTs);
      MulSucc(j, d);
      idx := (idx + d) % nTs;
    }
    assert buf[..] == buf[..length];
    var raw := buf[..];
    assert raw == s;
    v := if normalize then ZNormalize(zn, raw) else raw;
  }

  /** The window of x starting at iStart, as a shapelet candidate. */
  method GetSubsequence(x: seq<real>, iStart: nat, length: nat, d: nat, normalize: bool, usePhase: bool, zn: PointNorm)
    returns (v: seq<real>)
    requires WindowsFit(|x|, length, d, usePhase) && iStart < NumWindows(|x|, length, d, usePhase)
    ensures v == Window(x, iStart, length, d, normalize, usePhase, zn)
  {
    if usePhase {
      v := GetSubsequencePhase(x, iStart, length, d, normalize, zn);
    } else {
      v := GetSubsequencePlain(x, iStart, length, d, normalize, zn);
    }
  }

  // ------------------------------------------------------ distance vectors

  method ComputeShapeletDistVectorPlain(x: seq<real>, values: seq<real>, length: nat, dilation: nat, dist: Distance)
    returns (xd: seq<real>)
    requires WindowsFit(|x|, length, dilation, false)
    ensures |xd| == NumWindows(|x|, length, dilation, false)
    ensures forall i :: 0 <= i < |xd| ==> xd[i] == dist(Stride(x, i, length, dilation), values)
  {
    var c := GenerateStrides1DPlain(x, length, dilation);
    var xConv := new real[c.Length0];
    for i := 0 to c.Length0
      modifies xConv
      invariant forall i' :: 0 <= i' < i ==> xConv[i'] == dist(Stride(x, i', length, dilation), values)
    {
      xConv[i] := dist(Row(c, i), values);
    }
    xd := xConv[..];
  }

  method ComputeShapeletDistVectorNorm(x: seq<real>, values: seq<real>, length: nat, dilation: nat, dist: Distance, zn: PointNorm)
    returns (xd: seq<real>)
    requires WindowsFit(|x|, length, dilation, false)
    ensures |xd| == NumWindows(|x|, length, dilation, false)
    ensures forall i :: 0 <= i < |xd| ==> xd[i] == dist(ZNormalize(zn, Stride(x, i, length, dilation)), values)
  {
    var c := GenerateStrides1DPlain(x, length, dilation);
    var xConv := new real[c.Length0];
    for i := 0 to c.Length0
      modifies xConv
      invariant forall i' :: 0 <= i' < i ==> xConv[i'] == dist(ZNormalize(zn, Stride(x, i', length, dilation)), values)
    {
      var x0 := ZNormalize(zn, Row(c, i));
      xConv[i] := dist(x0, values);
    }
    xd := xConv[..];
  }

  method ComputeShapeletDistVectorPhase(x: seq<real>, values: seq<real>, length: nat, dilation: nat, dist: Distance)
    returns (xd: seq<real>)
    requires WindowsFit(|x|, length, dilation, true)
    ensures |xd| == NumWindows(|x|, length, dilation, true)
    ensures forall i :: 0 <= i < |xd| ==> xd[i] == dist(PhaseStride(x, i, length, dilation), values)
  {
    var c := GenerateStrides1DPhase(x, length, dilation);
    var xConv := new real[c.Length0];
    for i := 0 to c.Length0
      modifies xConv
      invariant forall i' :: 0 <= i' < i ==> xConv[i'] == dist(PhaseStride(x, i', length, dilation), values)
    {
      xConv[i] := dist(Row(c, i), values);
    }
    xd := xConv[..];
  }

  method ComputeShapeletDistVectorNormPhase(x: seq<real>, values: seq<real>, length: nat, dilation: nat, dist: Distance, zn: PointNorm)
    returns (xd: seq<real>)
    requires WindowsFit(|x|, length, dilation, true)
    ensures |xd| == NumWindows(|x|, length, dilation, true)
    ensures forall i :: 0 <= i < |xd| ==> xd[i] == dist(ZNormalize(zn, PhaseStride(x, i, length, dilation)), values)
  {
    var c := GenerateStrides1DPhase(x, length, dilation);
    var xConv := new real[c.Length0];
    for i := 0 to c.Length0
      modifies xConv
      invariant forall i' :: 0 <= i' < i ==> xConv[i'] == dist(ZNormalize(zn, PhaseStride(x, i', length, dilation)), values)
    {
      var x0 := ZNormalize(zn, Row(c, i));
      xConv[i] := dist(x0, values);
    }
    xd := xConv[..];
  }

  /** The distance profile of a shapelet over x, for each normalise/phase combination. */
  method ComputeShapeletDistVector(x: seq<real>, values: seq<real>, length: nat, dilation: nat, dist: Distance,
                                   normalize: bool, usePhase: bool, zn: PointNorm)
    returns (xd: seq<real>)
    requires WindowsFit(|x|, length, dilation, usePhase)
    ensures xd == DistProfile(x, values, length, dilation, normalize, usePhase, dist, zn)
  {
    ghost var profile := DistProfile(x, values, length, dilation, normalize, usePhase, dist, zn);
    if normalize && usePhase {
      xd := ComputeShapeletDistVectorNormPhase(x, values, length, dilation, dist, zn);
      forall i | 0 <= i < |xd|
        ensures xd[i] == profile[i]
      {
        assert profile[i] == dist(Window(x, i, length, dilation, true, true, zn), values);
      }
    } else if normalize && !usePhase {
      xd := ComputeShapeletDistVectorNorm(x, values, length, dilation, dist, zn);
      forall i | 0 <= i < |xd|
        ensures xd[i] == profile[i]
      {
        assert profile[i] == dist(Window(x, i, length, dilation, true, false, zn), values);
      }
    } else if !normalize && usePhase {
      xd := ComputeShapeletDistVectorPhase(x, values, length, dilation, dist);
      forall i | 0 <= i < |xd|
        ensures xd[i] == profile[i]
      {
        assert profile[i] == dist(Window(x, i, length, dilation, false, true, zn), values);
      }
    } else {
      xd := ComputeShapeletDistVectorPlain(x, values, length, dilation, dist);
      forall i | 0 <= i < |xd|
        ensures xd[i] == profile[i]
      {
        assert profile[i] == dist(Window(x, i, length, dilation, false, false, zn), values);
      }
    }
  }

  // -------------------------------------------------------------- features

  /** Initial minimum of the univariate extractor. */
  const UnivariateSentinel: real := 1e100
  /** Initial minimum of the multivariate extractor. */
  const MultivariateSentinel: real := 1e10

  /** Running minimum of ds, started at the sentinel. */
  function RunningMin(ds: seq<real>, sentinel: real): real {
    if |ds| == 0 then sentinel
    else
      var m := RunningMin(ds[..|ds| - 1], sentinel);
      if ds[|ds| - 1] < m then ds[|ds| - 1] else m
  }

  /** Position at which the running minimum last strictly decreased (0 if never). */
  function FirstArgMin(ds: seq<real>, sentinel: real): nat {
    if |ds| == 0 then 0
    else if ds[|ds| - 1] < RunningMin(ds[..|ds| - 1], sentinel) then |ds| - 1
    else FirstArgMin(ds[..|ds| - 1], sentinel)
  }

  function CountAtMost(ds: seq<real>, threshold: real): nat {
    if |ds| == 0 then 0
    else CountAtMost(ds[..|ds| - 1], threshold) + (if ds[|ds| - 1] <= threshold then 1 else 0)
  }

  /** (min, argmin, number of matches) as reals. */
  function ExtractFeatures(ds: seq<real>, sentinel: real, threshold: real): (real, real, real) {
    (RunningMin(ds, sentinel), FirstArgMin(ds, sentinel) as real, CountAtMost(ds, threshold) as real)
  }

  /** The min feature is the smallest distance, capped by the sentinel. */
  lemma {:induction false} RunningMinIsMinimum(ds: seq<real>, sentinel: real)
    ensures RunningMin(ds, sentinel) <= sentinel
    ensures forall i :: 0 <= i < |ds| ==> RunningMin(ds, sentinel) <= ds[i]
    ensures RunningMin(ds, sentinel) == sentinel || RunningMin(ds, sentinel) in ds
  {
    if |ds| > 0 {
      var p := ds[..|ds| - 1];
      RunningMinIsMinimum(p, sentinel);
      assert forall i :: 0 <= i < |p| ==> p[i] == ds[i];
    }
  }

  /** The argmin feature is the first position attaining the minimum, or 0 when
      no distance is below the sentinel. */
  lemma {:induction false} FirstArgMinIsFirstMinimum(ds: seq<real>, sentinel: real)
    ensures var m := RunningMin(ds, sentinel); var k := FirstArgMin(ds, sentinel);
      if m < sentinel then k < |ds| && ds[k] == m && forall i :: 0 <= i < k ==> m < ds[i]
      else k == 0 && forall i :: 0 <= i < |ds| ==> sentinel <= ds[i]
  {
    if |ds| > 0 {
      var p := ds[..|ds| - 1];
      FirstArgMinIsFirstMinimum(p, sentinel);
      RunningMinIsMinimum(p, sentinel);
      assert forall i :: 0 <= i < |p| ==> p[i] == ds[i];
    }
  }

  /** The match feature counts the distances at or below the threshold. */
  lemma {:induction false} CountAtMostIsCardinality(ds: seq<real>, threshold: real)
    ensures CountAtMost(ds, threshold) == |set i | 0 <= i < |ds| && ds[i] <= threshold|
    ensures CountAtMost(ds, threshold) <= |ds|
  {
    var s := set i | 0 <= i < |ds| && ds[i] <= threshold;
    if |ds| == 0 {
      assert s == {};
    } else {
      var n := |ds| - 1;
      var p := ds[..n];
      CountAtMostIsCardinality(p, threshold);
      var sp := set i | 0 <= i < |p| && p[i] <= threshold;
      if ds[n] <= threshold {
        assert s == sp + {n};
      } else {
        assert s == sp;
      }
    }
  }

  /** Distances of every row of the stride matrix x to the shapelet. */
  function RowDistances(x: array2<real>, values: seq<real>, dist: Distance): (r: seq<real>)
    reads x
    ensures |r| == x.Length0
  {
    seq(x.Length0, i requires 0 <= i < x.Length0 reads x => dist(Row(x, i), values))
  }

  /** Features of one shapelet on one univariate series given as its stride matrix. */
  method ApplyOneShapeletOneSampleUnivariate(x: array2<real>, values: seq<real>, threshold: real, dist: Distance)
    returns (mn: real, argmin: real, nMatch: real)
    ensures (mn, argmin, nMatch) == ExtractFeatures(RowDistances(x, values, dist), UnivariateSentinel, threshold)
  {
    ghost var ds := RowDistances(x, values, dist);
    var nCandidates := x.Length0;
    var count: nat := 0;
    var m := 1e100;
    var a: nat := 0;
    for i := 0 to nCandidates
      invariant m == RunningMin(ds[..i], UnivariateSentinel)
      invariant a == FirstArgMin(ds[..i], UnivariateSentinel)
      invariant count == CountAtMost(ds[..i], threshold)
    {
      assert ds[..i + 1][..i] == ds[..i];
      var dd := dist(Row(x, i), values);
      if dd < m {
        m := dd;
        a := i;
      }
      if dd <= threshold {
        count := count + 1;
      }
    }
    assert ds[..nCandidates] == ds;
    return m, a as real, count as real;
  }

  /** Sum over the first k channels of the distances of window i to the shapelet's channel rows. */
  function ChannelSum(x: array3<real>, values: seq<seq<real>>, i: nat, k: nat, dist: Distance): real
    requires k <= x.Length0 && k <= |values| && i < x.Length1
    reads x
  {
    if k == 0 then 0.0 else ChannelSum(x, values, i, k - 1, dist) + dist(Row3(x, k - 1, i), values[k - 1])
  }

  /** For each window position, the distance summed over all channels. */
  function SummedDistances(x: array3<real>, values: seq<seq<real>>, dist: Distance): (r: seq<real>)
    requires |values| == x.Length0
    reads x
    ensures |r| == x.Length1
  {
    seq(x.Length1, i requires 0 <= i < x.Length1 reads x => ChannelSum(x, values, i, x.Length0, dist))
  }

  /** Features of one shapelet on one multivariate series given as its stride tensor
      (channel, window, point) restricted to the shapelet's channels. */
  method ApplyOneShapeletOneSampleMultivariate(x: array3<real>, values: seq<seq<real>>, threshold: real, dist: Distance)
    returns (mn: real, argmin: real, nMatch: real)
    requires |values| == x.Length0
    ensures (mn, argmin, nMatch) == ExtractFeatures(SummedDistances(x, values, dist), MultivariateSentinel, threshold)
  {
    ghost var ds := SummedDistances(x, values, dist);
    var nFt := x.Length0;
    var nCandidates := x.Length1;
    var count: nat := 0;
    var m := 1e10;
    var a: nat := 0;
    for i := 0 to nCandidates
      invariant m == RunningMin(ds[..i], MultivariateSentinel)
      invariant a == FirstArgMin(ds[..i], MultivariateSentinel)
      invariant count == CountAtMost(ds[..i], threshold)
    {
      assert ds[..i + 1][..i] == ds[..i];
      var dd := 0.0;
      for ft := 0 to nFt
        invariant dd == ChannelSum(x, values, i, ft, dist)
      {
        dd := dd + dist(Row3(x, ft, i), values[ft]);
      }
      if dd < m {
        m := dd;
        a := i;
      }
      if dd <= threshold {
        count := count + 1;
      }
    }
    assert ds[..nCandidates] == ds;
    return m, a as real, count as real;
  }

  // ---------------------------------------------------------- combinations

  function Zip(x: seq<int>, y: seq<int>): (r: seq<(int, int)>)
    requires |x| == |y|
    ensures |r| == |x|
  {
    seq(|x|, i requires 0 <= i < |x| => (x[i], y[i]))
  }

  /** The distinct entries of s, in the order of their first occurrence. */
  function FirstOccurrences<T(==,!new)>(s: seq<T>): (r: seq<T>)
    ensures Distinct(r)
    ensures forall p :: p in r <==> p in s
  {
    if |s| == 0 then []
    else
      var q := s[..|s| - 1];
      var p := FirstOccurrences(q);
      assert s == q + [s[|s| - 1]];
      if s[|s| - 1] in p then p else p + [s[|s| - 1]]
  }

  /** One more entry either repeats an earlier one or is appended. */
  lemma FirstOccurrencesStep<T(!new)>(s: seq<T>, i: nat)
    requires i < |s|
    ensures FirstOccurrences(s[..i + 1]) ==
      if s[i] in s[..i] then FirstOccurrences(s[..i]) else FirstOccurrences(s[..i]) + [s[i]]
  {
    assert s[..i + 1][..i] == s[..i];
  }

  /** Each entry of FirstOccurrences(s) occurs in s before any occurrence of a later entry. */
  lemma {:induction false} FirstOccurrencesInOrder<T(!new)>(s: seq<T>)
    ensures var r := FirstOccurrences(s);
      forall j, k, t :: 0 <= j < k < |r| && 0 <= t < |s| && s[t] == r[k] ==> r[j] in s[..t]
  {
    if |s| > 0 {
      var n := |s| - 1;
      var q := s[..n];
      var p := FirstOccurrences(q);
      FirstOccurrencesInOrder(q);
      var r := FirstOccurrences(s);
      assert s[..n + 1] == s;
      FirstOccurrencesStep(s, n);
      assert r == if s[n] in q then p else p + [s[n]];
      forall j, k, t | 0 <= j < k < |r| && 0 <= t < |s| && s[t] == r[k]
        ensures r[j] in s[..t]
      {
        assert r[j] == p[j] && p[j] in p;
        if k < |p| && t < n {
          assert r[k] == p[k] && q[t] == p[k];
          assert q[..t] == s[..t];
        } else {
          assert forall t' :: 0 <= t' < n ==> q[t'] == s[t'];
          assert t == n;
          assert q == s[..t];
        }
      }
    }
  }

  /** The distinct (length, dilation) pairs, in order of first occurrence. */
  method Combinations1D(x: seq<int>, y: seq<int>) returns (combinations: seq<(int, int)>)
    requires |x| == |y|
    ensures combinations == FirstOccurrences(Zip(x, y))
  {
    ghost var pairs := Zip(x, y);
    var uMask: set<(int, int)> := {};
    for i := 0 to |x|
      invariant forall p :: p in uMask <==> p in pairs[..i]
    {
      PrefixMembershipStep(pairs, i);
      uMask := uMask + {(x[i], y[i])};
    }
    assert pairs[..|x|] == pairs;
    ghost var total := |uMask|;
    var comb := new (int, int)[|uMask|];
    var iComb := 0;
    for i := 0 to |x|
      invariant forall p :: p in uMask <==> p in pairs && p !in pairs[..i]
      invariant iComb + |uMask| == total == comb.Length
      invariant comb[..iComb] == FirstOccurrences(pairs[..i])
    {
      var p := (x[i], y[i]);
      assert p == pairs[i];
      FirstOccurrencesStep(pairs, i);
      PrefixMembershipStep(pairs, i);
      if p in uMask {
        comb[iComb] := p;
        assert comb[..iComb + 1] == comb[..iComb] + [p];
        uMask := uMask - {p};
        iComb := iComb + 1;
      }
    }
    assert pairs[..|x|] == pairs;
    assert uMask == {};
    combinations := comb[..];
  }

  // ---------------------------------------------------------------- primes

  function IsqrtFrom(n: nat, r: nat): (s: nat)
    requires r * r <= n
    ensures s * s <= n < (s + 1) * (s + 1)
    decreases n - r
  {
    if (r + 1) * (r + 1) > n then r else IsqrtFrom(n, r + 1)
  }

  /** Integer square root: the largest s with s*s <= n. */
  function Isqrt(n: nat): (s: nat)
    ensures s * s <= n < (s + 1) * (s + 1)
  {
    IsqrtFrom(n, 0)
  }

  predicate DividesBy(n: nat, k: nat)
    requires k > 0
  {
    n % k == 0
  }

  predicate Prime(n: nat) {
    n >= 2 && forall k :: 2 <= k < n ==> !DividesBy(n, k)
  }

  lemma CoFactor(n: nat, k: nat)
    requires 2 <= k < n && n % k == 0
    ensures n == k * (n / k) && n / k >= 2
  {
    var m := n / k;
    assert n == m * k + n % k;
    if m <= 1 {
      MulMono(m, 1, k);
    }
  }

  lemma BelowSquareRoot(a: nat, n: nat)
    requires a * a <= n
    ensures a <= Isqrt(n)
  {
    var s := Isqrt(n);
    if a >= s + 1 {
      MulMono(s + 1, a, s + 1);
      MulMono(s + 1, a, a);
    }
  }

  lemma OddDivisor(n: nat, a: nat)
    requires a > 0 && n % a == 0 && n % 2 == 1
    ensures a % 2 == 1
  {
    if a % 2 == 0 {
      var q := n / a;
      var c := a / 2;
      assert n == q * a by {
        assert n == (n / a) * a + n % a;
      }
      assert a == c * 2 by {
        assert a == (a / 2) * 2 + a % 2;
      }
      assert n == (q * c) * 2;
      ModUnique(n, 2, q * c, 0);
    }
  }

  /** A composite n has a divisor no larger than its square root, odd when n is odd. */
  lemma SmallDivisor(n: nat, k: nat) returns (a: nat)
    requires 2 <= k < n && DividesBy(n, k)
    ensures 2 <= a <= Isqrt(n) && DividesBy(n, a) && (n % 2 == 1 ==> a % 2 == 1)
  {
    CoFactor(n, k);
    var m := n / k;
    a := if k <= m then k else m;
    SmallerFactor(n, k, m);
    BelowSquareRoot(a, n);
    if n % 2 == 1 {
      OddDivisor(n, a);
    }
  }

  lemma SmallerFactor(n: nat, k: nat, m: nat)
    requires n == k * m && k > 0 && m > 0
    ensures var a := if k <= m then k else m; a * a <= n && n % a == 0
  {
    if k <= m {
      MulMono(k, m, k);
      ModMul(k, m);
    } else {
      MulMono(m, k, m);
      assert n == m * k;
      ModMul(m, k);
    }
  }

  /** Trial division by 2 and the odd numbers up to the square root. Note that 1 is
      reported prime. */
  method IsPrime(n: nat) returns (b: bool)
    ensures b <==> n == 1 || Prime(n)
  {
    if (n % 2 == 0 && n > 2) || n == 0 {
      if n > 2 {
        assert DividesBy(n, 2);
      }
      return false;
    }
    var s := Isqrt(n);
    var i := 3;
    while i <= s
      invariant 3 <= i <= s + 2 && i % 2 == 1
      invariant forall k :: 3 <= k < i && k % 2 == 1 ==> !DividesBy(n, k)
      decreases s + 2 - i
    {
      if n % i == 0 {
        DivisorBelowRoot(n, i);
        return false;
      }
      NextOdd(n, i);
      i := i + 2;
    }
    TrialDivisionComplete(n, i);
    return true;
  }

  lemma NextOdd(n: nat, i: nat)
    requires 3 <= i && i % 2 == 1 && n % i != 0
    requires forall k :: 3 <= k < i && k % 2 == 1 ==> !DividesBy(n, k)
    ensures (i + 2) % 2 == 1 && forall k :: 3 <= k < i + 2 && k % 2 == 1 ==> !DividesBy(n, k)
  {
    assert (i + 1) % 2 == 0;
  }

  /** A divisor found by the trial loop makes n composite. */
  lemma DivisorBelowRoot(n: nat, i: nat)
    requires 3 <= i <= Isqrt(n) && n % i == 0
    ensures 2 <= i < n && DividesBy(n, i) && !Prime(n) && n != 1
  {
    var s := Isqrt(n);
    MulMono(i, s, i);
    MulMono(i, s, s);
    MulMono(2, i, i);
    assert i * i <= n;
    assert i < n;
    assert DividesBy(n, i);
  }

  /** An odd n (or 2) with no odd divisor from 3 up to its square root is 1 or prime. */
  lemma TrialDivisionComplete(n: nat, i: nat)
    requires n > 0 && (n % 2 == 1 || n == 2) && i > Isqrt(n)
    requires forall k :: 3 <= k < i && k % 2 == 1 ==> !DividesBy(n, k)
    ensures n == 1 || Prime(n)
  {
    if n >= 2 {
      forall k | 2 <= k < n
        ensures !DividesBy(n, k)
      {
        if DividesBy(n, k) {
          var a := SmallDivisor(n, k);
        }
      }
    }
  }

  /** The numbers 0..n that `IsPrime` accepts, ascending. */
  method PrimeUpTo(n: nat) returns (primes: seq<nat>)
    ensures StrictlyIncreasing(primes)
    ensures forall k: nat :: k in primes <==> k <= n && (k == 1 || Prime(k))
  {
    var isP := new bool[n + 1];
    for i := 0 to n + 1
      invariant forall k :: 0 <= k < i ==> isP[k] == (k == 1 || Prime(k))
    {
      isP[i] := IsPrime(i);
    }
    primes := Where(isP[..]);
  }
}
