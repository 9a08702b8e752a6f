/**
 * Value-level counterparts of the few NumPy primitives the transform relies on:
 * `where` over a boolean mask, boolean-mask compaction, `unique`, `cumsum`
 * with a leading zero, and flattening of per-shapelet blocks.
 */
module ArrayOps {

  predicate StrictlyIncreasing(s: seq<int>) {
    forall i, j :: 0 <= i < j < |s| ==> s[i] < s[j]
  }

  predicate Distinct<T(==)>(s: seq<T>) {
    forall i, j :: 0 <= i < j < |s| ==> s[i] != s[j]
  }

  /** The integers lo, lo+1, ..., hi-1 (NumPy `arange(lo, hi)`). */
  function Range(lo: int, hi: int): (r: seq<int>)
    requires lo <= hi
    ensures |r| == hi - lo
    ensures forall k :: 0 <= k < |r| ==> r[k] == lo + k
    decreases hi - lo
  {
    if lo == hi then [] else Range(lo, hi - 1) + [hi - 1]
  }

  /** NumPy `where(mask)[0]`: the positions holding true, ascending. */
  function Where(mask: seq<bool>): (r: seq<nat>)
    ensures StrictlyIncreasing(r)
    ensures forall j :: 0 <= j < |r| ==> r[j] < |mask| && mask[r[j]]
    ensures forall i: nat :: i < |mask| && mask[i] ==> i in r
    ensures |r| <= |mask|
  {
    if |mask| == 0 then []
    else
      var n := |mask| - 1;
      var p := Where(mask[..n]);
      if mask[n] then
        SnocIncreasing(p, n);
        p + [n]
      else p
  }

  lemma SnocIncreasing(s: seq<nat>, a: nat)
    requires StrictlyIncreasing(s) && forall j :: 0 <= j < |s| ==> s[j] < a
    ensures StrictlyIncreasing(s + [a])
  {
    var r := s + [a];
    forall i, j | 0 <= i < j < |r|
      ensures r[i] < r[j]
    {
      assert r[i] == s[i];
    }
  }

  /** `xs[idx]` with an integer index array. */
  function Select<T>(xs: seq<T>, idx: seq<nat>): seq<T>
    requires forall j :: 0 <= j < |idx| ==> idx[j] < |xs|
  {
    seq(|idx|, j requires 0 <= j < |idx| => xs[idx[j]])
  }

  /** `xs[mask]` with a boolean mask: the kept entries in their original order. */
  function Compact<T>(xs: seq<T>, keep: seq<bool>): seq<T>
    requires |keep| == |xs|
  {
    Select(xs, Where(keep))
  }

  function CountTrue(m: seq<bool>): nat {
    if |m| == 0 then 0 else CountTrue(m[..|m| - 1]) + (if m[|m| - 1] then 1 else 0)
  }

  /** Compaction keeps exactly as many entries as the mask has true cells. */
  lemma {:induction false} WhereLength(m: seq<bool>)
    ensures |Where(m)| == CountTrue(m)
  {
    if |m| > 0 {
      WhereLength(m[..|m| - 1]);
    }
  }

  /** Insert x into a strictly increasing sequence unless it is already there. */
  function InsertSorted(u: seq<int>, x: int): (r: seq<int>)
    requires StrictlyIncreasing(u)
    ensures StrictlyIncreasing(r)
    ensures forall z :: z in r <==> z in u || z == x
  {
    if |u| == 0 then [x]
    else
      TailIncreasing(u);
      if x < u[0] then
        ConsIncreasing(x, u);
        [x] + u
      else if x == u[0] then u
      else
        var rest := InsertSorted(u[1..], x);
        ConsIncreasing(u[0], rest);
        [u[0]] + rest
  }

  lemma TailIncreasing(u: seq<int>)
    requires StrictlyIncreasing(u) && |u| > 0
    ensures StrictlyIncreasing(u[1..]) && u == [u[0]] + u[1..]
    ensures forall z :: z in u ==> u[0] <= z
    ensures forall z :: z in u[1..] ==> u[0] < z
  {
    forall z | z in u[1..]
      ensures u[0] < z
    {
      var k :| 0 <= k < |u[1..]| && u[1..][k] == z;
      assert z == u[k + 1];
    }
  }

  lemma ConsIncreasing(a: int, s: seq<int>)
    requires StrictlyIncreasing(s) && forall z :: z in s ==> a < z
    ensures StrictlyIncreasing([a] + s)
  {
    var r := [a] + s;
    forall i, j | 0 <= i < j < |r|
      ensures r[i] < r[j]
    {
      assert r[j] == s[j - 1];
      if i == 0 {
        assert s[j - 1] in s;
      } else {
        assert r[i] == s[i - 1];
      }
    }
  }

  /** NumPy `unique`: the distinct values, ascending. */
  function UniqueAscending(xs: seq<int>): (u: seq<int>)
    ensures StrictlyIncreasing(u)
    ensures forall z :: z in u <==> z in xs
  {
    if |xs| == 0 then []
    else
      var p := UniqueAscending(xs[..|xs| - 1]);
      assert xs == xs[..|xs| - 1] + [xs[|xs| - 1]];
      InsertSorted(p, xs[|xs| - 1])
  }

  function Sum(xs: seq<int>): int {
    if |xs| == 0 then 0 else Sum(xs[..|xs| - 1]) + xs[|xs| - 1]
  }

  /** `concatenate(([0], cumsum(xs)))`: running offsets starting at 0. */
  function PrefixSums(xs: seq<int>): (r: seq<int>)
    ensures |r| == |xs| + 1 && r[0] == 0
    ensures forall i :: 0 <= i < |xs| ==> r[i + 1] == r[i] + xs[i]
    ensures r[|xs|] == Sum(xs)
  {
    if |xs| == 0 then [0]
    else
      var p := PrefixSums(xs[..|xs| - 1]);
      p + [p[|xs| - 1] + xs[|xs| - 1]]
  }

  /** Concatenation of blocks, in order. */
  function Flatten<T>(blocks: seq<seq<T>>): seq<T> {
    if |blocks| == 0 then [] else Flatten(blocks[..|blocks| - 1]) + blocks[|blocks| - 1]
  }

  function MaxOf(xs: seq<int>): (m: int)
    requires |xs| > 0
    ensures m in xs && forall k :: 0 <= k < |xs| ==> xs[k] <= m
  {
    if |xs| == 1 then xs[0]
    else
      var p := MaxOf(xs[..|xs| - 1]);
      assert p in xs;
      if xs[|xs| - 1] > p then xs[|xs| - 1] else p
  }

  predicate AllZero(row: seq<real>) {
    forall j :: 0 <= j < |row| ==> row[j] == 0.0
  }

  /** `row` followed by zeros up to `width`. */
  function Pad(row: seq<real>, width: nat): seq<real>
    requires |row| <= width
  {
    row + seq(width - |row|, _ => 0.0)
  }

  function MinOf(xs: seq<int>): (m: int)
    requires |xs| > 0
    ensures m in xs && forall k :: 0 <= k < |xs| ==> m <= xs[k]
  {
    if |xs| == 1 then xs[0]
    else
      var p := MinOf(xs[..|xs| - 1]);
      assert p in xs;
      if xs[|xs| - 1] < p then xs[|xs| - 1] else p
  }

  /** NumPy `cumsum`: the running totals. */
  function CumSum(xs: seq<int>): (r: seq<int>)
    ensures |r| == |xs|
    ensures |xs| > 0 ==> r[0] == xs[0]
    ensures forall i :: 0 < i < |xs| ==> r[i] == r[i - 1] + xs[i]
  {
    if |xs| == 0 then []
    else
      var p := CumSum(xs[..|xs| - 1]);
      p + [(if |p| == 0 then 0 else p[|p| - 1]) + xs[|xs| - 1]]
  }

  /** The running totals of a zero-prefixed sequence are its offsets. */
  lemma CumSumZeroPrefixed(xs: seq<int>)
    ensures CumSum([0] + xs) == PrefixSums(xs)
  {
    var c := CumSum([0] + xs);
    var p := PrefixSums(xs);
    forall i | 0 <= i < |c|
      ensures c[i] == p[i]
    {
      CumSumPrefixAt(xs, i);
    }
  }

  /** `concatenate(([0], cumsum(xs)))` is the sequence of offsets. */
  lemma ZeroThenCumSum(xs: seq<int>)
    ensures [0] + CumSum(xs) == PrefixSums(xs)
  {
    var c := [0] + CumSum(xs);
    forall i | 0 <= i < |c|
      ensures c[i] == PrefixSums(xs)[i]
    {
      ZeroThenCumSumAt(xs, i);
    }
  }

  lemma {:induction false} ZeroThenCumSumAt(xs: seq<int>, i: nat)
    requires i <= |xs|
    ensures ([0] + CumSum(xs))[i] == PrefixSums(xs)[i]
  {
    if i > 0 {
      ZeroThenCumSumAt(xs, i - 1);
    }
  }

  /** With non-negative entries, offsets i and i+1 lie in order within the total. */
  lemma OffsetsWithin(xs: seq<int>, i: nat)
    requires i < |xs| && forall k :: 0 <= k < |xs| ==> xs[k] >= 0
    ensures 0 <= PrefixSums(xs)[i] <= PrefixSums(xs)[i + 1] <= Sum(xs)
  {
    var p := PrefixSums(xs);
    OffsetNonNegative(xs, i);
    OffsetBelowSum(xs, i + 1);
    assert p[i + 1] == p[i] + xs[i];
  }

  lemma {:induction false} OffsetNonNegative(xs: seq<int>, j: nat)
    requires j <= |xs| && forall k :: 0 <= k < |xs| ==> xs[k] >= 0
    ensures PrefixSums(xs)[j] >= 0
  {
    if j > 0 {
      OffsetNonNegative(xs, j - 1);
    }
  }

  lemma {:induction false} OffsetBelowSum(xs: seq<int>, j: nat)
    requires j <= |xs| && forall k :: 0 <= k < |xs| ==> xs[k] >= 0
    ensures PrefixSums(xs)[j] <= Sum(xs)
    decreases |xs| - j
  {
    if j < |xs| {
      OffsetBelowSum(xs, j + 1);
    }
  }

  lemma {:induction false} CumSumPrefixAt(xs: seq<int>, i: nat)
    requires i <= |xs|
    ensures CumSum([0] + xs)[i] == PrefixSums(xs)[i]
  {
    if i > 0 {
      CumSumPrefixAt(xs, i - 1);
      assert ([0] + xs)[i] == xs[i - 1];
    }
  }

  function Lengths<T>(blocks: seq<seq<T>>): (r: seq<int>)
    ensures |r| == |blocks|
    ensures forall k :: 0 <= k < |r| ==> r[k] == |blocks[k]|
  {
    seq(|blocks|, k requires 0 <= k < |blocks| => |blocks[k]|)
  }

  lemma {:induction false} FlattenAppend<T>(a: seq<seq<T>>, b: seq<seq<T>>)
    ensures Flatten(a + b) == Flatten(a) + Flatten(b)
  {
    if |b| > 0 {
      var n := |b| - 1;
      FlattenAppend(a, b[..n]);
      assert (a + b)[..|a + b| - 1] == a + b[..n];
    } else {
      assert a + b == a;
    }
  }

  /** The offset of block j is the length of the blocks before it. */
  lemma {:induction false} OffsetIsFlattenLength<T>(blocks: seq<seq<T>>, j: nat)
    requires j <= |blocks|
    ensures PrefixSums(Lengths(blocks))[j] == |Flatten(blocks[..j])|
  {
    if j > 0 {
      OffsetIsFlattenLength(blocks, j - 1);
      assert blocks[..j][..j - 1] == blocks[..j - 1];
    }
  }

  /** The concatenation is as long as the blocks together. */
  lemma FlattenLength<T>(blocks: seq<seq<T>>)
    ensures |Flatten(blocks)| == Sum(Lengths(blocks))
  {
    OffsetIsFlattenLength(blocks, |blocks|);
    assert blocks[..|blocks|] == blocks;
  }

  /** A slice keeps the bounds every element of the sequence is within. */
  lemma SliceWithin(xs: seq<int>, a: nat, b: nat, lo: int, hi: int)
    requires a <= b <= |xs| && forall k :: 0 <= k < |xs| ==> lo <= xs[k] < hi
    ensures forall k :: 0 <= k < b - a ==> lo <= xs[a..b][k] < hi
  {
    forall k | 0 <= k < b - a
      ensures lo <= xs[a..b][k] < hi
    {
      assert xs[a..b][k] == xs[a + k];
    }
  }

  /** Entries of the concatenation are entries of the blocks, so they keep the blocks' bounds. */
  lemma {:induction false} FlattenWithin(blocks: seq<seq<int>>, lo: int, hi: int)
    requires forall j, k :: 0 <= j < |blocks| && 0 <= k < |blocks[j]| ==> lo <= blocks[j][k] < hi
    ensures forall k :: 0 <= k < |Flatten(blocks)| ==> lo <= Flatten(blocks)[k] < hi
  {
    if |blocks| > 0 {
      var n := |blocks| - 1;
      FlattenWithin(blocks[..n], lo, hi);
      var f := Flatten(blocks[..n]);
      assert Flatten(blocks) == f + blocks[n];
      forall k | 0 <= k < |Flatten(blocks)|
        ensures lo <= Flatten(blocks)[k] < hi
      {
        if k >= |f| {
          assert Flatten(blocks)[k] == blocks[n][k - |f|];
        }
      }
    }
  }

  /** Slicing the concatenation at consecutive offsets gives back block j. */
  lemma FlattenSlice<T>(blocks: seq<seq<T>>, j: nat)
    requires j < |blocks|
    ensures var p := PrefixSums(Lengths(blocks));
      0 <= p[j] <= p[j + 1] <= |Flatten(blocks)| && Flatten(blocks)[p[j]..p[j + 1]] == blocks[j]
  {
    OffsetIsFlattenLength(blocks, j);
    OffsetIsFlattenLength(blocks, j + 1);
    FlattenPrefixStep(blocks, j);
    FlattenSplit(blocks, j);
    SliceMiddle(Flatten(blocks[..j]), blocks[j], Flatten(blocks[j + 1..]));
  }

  lemma FlattenSplit<T>(blocks: seq<seq<T>>, j: nat)
    requires j < |blocks|
    ensures Flatten(blocks) == Flatten(blocks[..j]) + blocks[j] + Flatten(blocks[j + 1..])
  {
    SplitParts(blocks, j);
    FlattenJoin(blocks[..j + 1], blocks[j + 1..]);
  }

  /** Flattening front + back, with the last block of front written out. */
  lemma FlattenJoin<T>(front: seq<seq<T>>, back: seq<seq<T>>)
    requires |front| > 0
    ensures Flatten(front + back) == Flatten(front[..|front| - 1]) + front[|front| - 1] + Flatten(back)
  {
    FlattenAppend(front, back);
  }

  lemma SplitParts<S>(s: seq<S>, j: nat)
    requires j < |s|
    ensures s[..j + 1] + s[j + 1..] == s && s[..j + 1][..j] == s[..j] && s[..j + 1][j] == s[j]
  {
  }

  lemma SliceMiddle<T>(a: seq<T>, b: seq<T>, c: seq<T>)
    ensures |a| + |b| <= |a + b + c| && (a + b + c)[|a|..|a| + |b|] == b
  {
  }

  lemma {:induction false} DistinctCard<T>(s: seq<T>)
    requires Distinct(s)
    ensures |set x | x in s| == |s|
  {
    if |s| > 0 {
      var n := |s| - 1;
      DistinctCard(s[..n]);
      assert (set x | x in s) == (set x | x in s[..n]) + {s[n]};
    } else {
      assert (set x | x in s) == {};
    }
  }

  /** A duplicate-free sequence holding exactly 0..n-1 has n entries. */
  lemma PermutationLength(s: seq<int>, n: nat)
    requires Distinct(s)
    requires forall x :: x in s <==> 0 <= x < n
    ensures |s| == n
  {
    var r := Range(0, n);
    assert forall x :: 0 <= x < n ==> r[x] == x;
    forall x | x in r
      ensures 0 <= x < n
    {
      var k :| 0 <= k < |r| && r[k] == x;
    }
    DistinctCard(s);
    DistinctCard(r);
    forall x
      ensures x in s <==> x in r
    {
      if 0 <= x < n {
        assert r[x] == x;
      }
    }
    assert (set x | x in s) == (set x | x in r);
  }

  lemma DistinctConcat<T>(a: seq<T>, b: seq<T>)
    requires Distinct(a) && Distinct(b)
    requires forall x :: x in a ==> x !in b
    ensures Distinct(a + b)
  {
    forall i, j | 0 <= i < j < |a + b|
      ensures (a + b)[i] != (a + b)[j]
    {
      if i < |a| && j >= |a| {
        assert (a + b)[i] in a && (a + b)[j] in b;
      }
    }
  }

  lemma FlattenPrefixShorter<T>(blocks: seq<seq<T>>, j: nat)
    requires j <= |blocks|
    ensures |Flatten(blocks[..j])| <= |Flatten(blocks)|
  {
    assert blocks == blocks[..j] + blocks[j..];
    FlattenAppend(blocks[..j], blocks[j..]);
  }

  /** Appending one block to the first j blocks. */
  lemma FlattenPrefixStep<T>(blocks: seq<seq<T>>, j: nat)
    requires j < |blocks|
    ensures Flatten(blocks[..j + 1]) == Flatten(blocks[..j]) + blocks[j]
  {
    assert blocks[..j + 1][..j] == blocks[..j];
  }

  // ------------------------------------------------------ filters and sums

  /** `xs[xs <= b]`. */
  function Below(xs: seq<int>, b: int): (r: seq<int>)
    ensures forall x :: x in r <==> x in xs && x <= b
  {
    if |xs| == 0 then []
    else
      var p := Below(xs[..|xs| - 1], b);
      assert xs == xs[..|xs| - 1] + [xs[|xs| - 1]];
      if xs[|xs| - 1] <= b then p + [xs[|xs| - 1]] else p
  }

  /** `xs[xs != x]`. */
  function Without(xs: seq<nat>, x: nat): (r: seq<nat>)
    ensures forall z :: z in r <==> z in xs && z != x
  {
    if |xs| == 0 then []
    else
      var p := Without(xs[..|xs| - 1], x);
      assert xs == xs[..|xs| - 1] + [xs[|xs| - 1]];
      if xs[|xs| - 1] != x then p + [xs[|xs| - 1]] else p
  }

  /** An entry survives compaction exactly when some kept position holds it. */
  lemma CompactMembership<T>(xs: seq<T>, keep: seq<bool>)
    requires |keep| == |xs|
    ensures forall k :: 0 <= k < |xs| && keep[k] ==> xs[k] in Compact(xs, keep)
    ensures forall x :: x in Compact(xs, keep) ==> exists k :: 0 <= k < |xs| && keep[k] && xs[k] == x
  {
    var w := Where(keep);
    forall k | 0 <= k < |xs| && keep[k]
      ensures xs[k] in Compact(xs, keep)
    {
      var j :| 0 <= j < |w| && w[j] == k;
      assert Compact(xs, keep)[j] == xs[k];
    }
  }

  /** `w` with the entries whose mask cell is false replaced by 0. */
  function Masked(w: seq<int>, keep: seq<bool>): (r: seq<int>)
    requires |keep| == |w|
    ensures |r| == |w|
  {
    seq(|w|, i requires 0 <= i < |w| => if keep[i] then w[i] else 0)
  }

  lemma {:induction false} SumUpdate(xs: seq<int>, i: nat, v: int)
    requires i < |xs|
    ensures Sum(xs[i := v]) == Sum(xs) - xs[i] + v
  {
    var n := |xs| - 1;
    if i < n {
      SumUpdate(xs[..n], i, v);
      assert xs[i := v][..n] == xs[..n][i := v];
    } else {
      assert xs[i := v][..n] == xs[..n];
    }
  }

  /** Keeping one more entry adds its weight. */
  lemma SumMaskedStep(w: seq<int>, keep: seq<bool>, i: nat)
    requires |keep| == |w| && i < |w| && !keep[i]
    ensures Sum(Masked(w, keep[i := true])) == Sum(Masked(w, keep)) + w[i]
  {
    SumUpdate(Masked(w, keep), i, w[i]);
    assert Masked(w, keep[i := true]) == Masked(w, keep)[i := w[i]];
  }

  /** A masked sum of non-negative weights lies between 0 and the full sum. */
  lemma {:induction false} SumMaskedBound(w: seq<int>, keep: seq<bool>)
    requires |keep| == |w| && forall i :: 0 <= i < |w| ==> w[i] >= 0
    ensures 0 <= Sum(Masked(w, keep)) <= Sum(w)
  {
    if |w| > 0 {
      var n := |w| - 1;
      SumMaskedBound(w[..n], keep[..n]);
      assert Masked(w, keep)[..n] == Masked(w[..n], keep[..n]);
    }
  }

  /** With nothing kept, the masked sum is zero. */
  lemma {:induction false} SumMaskedNone(w: seq<int>, keep: seq<bool>)
    requires |keep| == |w| && forall i :: 0 <= i < |w| ==> !keep[i]
    ensures Sum(Masked(w, keep)) == 0
  {
    if |w| > 0 {
      var n := |w| - 1;
      SumMaskedNone(w[..n], keep[..n]);
      assert Masked(w, keep)[..n] == Masked(w[..n], keep[..n]);
    }
  }

  /** A set of integers has exactly one strictly increasing enumeration. */
  lemma {:induction false} StrictlyIncreasingUnique(a: seq<int>, b: seq<int>)
    requires StrictlyIncreasing(a) && StrictlyIncreasing(b) && forall x :: x in a <==> x in b
    ensures a == b
    decreases |a|
  {
    assert |a| > 0 ==> a[0] in a && a[0] in b;
    assert |b| > 0 ==> b[0] in b && b[0] in a;
    if |a| > 0 {
      var k :| 0 <= k < |a| && a[k] == b[0];
      var k' :| 0 <= k' < |b| && b[k'] == a[0];
      assert a[0] <= a[k] && b[0] <= b[k'];
      forall x
        ensures x in a[1..] <==> x in b[1..]
      {
        if x in a[1..] {
          var j :| 1 <= j < |a| && a[j] == x;
          assert x in b && x != b[0];
        }
        if x in b[1..] {
          var j :| 1 <= j < |b| && b[j] == x;
          assert x in a && x != a[0];
        }
      }
      StrictlyIncreasingUnique(a[1..], b[1..]);
      assert a == [a[0]] + a[1..] && b == [b[0]] + b[1..];
    }
  }

  /** Summing the kept entries is summing the masked sequence. */
  lemma {:induction false} SumCompact(w: seq<int>, keep: seq<bool>)
    requires |keep| == |w|
    ensures Sum(Compact(w, keep)) == Sum(Masked(w, keep))
  {
    if |w| > 0 {
      var n := |w| - 1;
      SumCompact(w[..n], keep[..n]);
      assert Masked(w, keep)[..n] == Masked(w[..n], keep[..n]);
      CompactSnoc(w, keep);
      var c := Compact(w[..n], keep[..n]);
      var m := Masked(w, keep);
      assert Sum(m) == Sum(m[..n]) + m[n];
      if keep[n] {
        assert Compact(w, keep) == c + [w[n]];
        assert (c + [w[n]])[..|c|] == c;
        assert Sum(c + [w[n]]) == Sum(c) + w[n];
      } else {
        assert Compact(w, keep) == c;
      }
    }
  }

  /** Compaction of a sequence with one more entry. */
  lemma CompactSnoc<T>(w: seq<T>, keep: seq<bool>)
    requires |keep| == |w| > 0
    ensures var n := |w| - 1;
      Compact(w, keep) == Compact(w[..n], keep[..n]) + (if keep[n] then [w[n]] else [])
  {
    var n := |w| - 1;
    var p := Where(keep[..n]);
    assert keep[..n] == keep[..|keep| - 1];
    assert Where(keep) == if keep[n] then p + [n] else p;
    assert forall k :: 0 <= k < |p| ==> w[p[k]] == w[..n][p[k]];
  }


  // ---------------------------------------------------------- row blocks

  /** `flat.reshape(c, l)`: row k is the k-th run of l entries. */
  function Reshape<T>(flat: seq<T>, c: nat, l: nat): (rows: seq<seq<T>>)
    requires |flat| == c * l
    ensures |rows| == c && forall k :: 0 <= k < c ==> |rows[k]| == l
  {
    var rows := seq(c, k requires 0 <= k < c => RowBound(k, c, l); flat[k * l..(k + 1) * l]);
    assert forall k :: 0 <= k < c ==> |rows[k]| == l by {
      forall k | 0 <= k < c
        ensures |rows[k]| == l
      {
        RowBound(k, c, l);
      }
    }
    rows
  }

  /** Row k of the reshaped sequence is the k-th run of l entries. */
  lemma ReshapeRow<T>(flat: seq<T>, c: nat, l: nat, k: nat)
    requires |flat| == c * l && k < c
    ensures 0 <= k * l <= (k + 1) * l <= |flat| && Reshape(flat, c, l)[k] == flat[k * l..(k + 1) * l]
  {
    RowBound(k, c, l);
  }

  lemma MulStep(k: nat, l: nat)
    ensures (k + 1) * l == k * l + l
  {
  }

  lemma {:induction false} RowBound(k: nat, c: nat, l: nat)
    requires k < c
    ensures 0 <= k * l && k * l + l == (k + 1) * l <= c * l
    decreases c - k
  {
    MulStep(k, l);
    if k + 1 < c {
      RowBound(k + 1, c, l);
      MulStep(k + 1, l);
    }
  }

  /** Concatenating c rows of length l gives c * l entries. */
  lemma {:induction false} FlattenUniformLength<T>(blocks: seq<seq<T>>, l: nat)
    requires forall k :: 0 <= k < |blocks| ==> |blocks[k]| == l
    ensures |Flatten(blocks)| == |blocks| * l
  {
    if |blocks| > 0 {
      FlattenUniformLength(blocks[..|blocks| - 1], l);
      MulStep(|blocks| - 1, l);
    }
  }

  /** Reshaping undoes the concatenation of equal-length rows. */
  lemma ReshapeFlatten<T>(blocks: seq<seq<T>>, l: nat)
    requires forall k :: 0 <= k < |blocks| ==> |blocks[k]| == l
    ensures |Flatten(blocks)| == |blocks| * l && Reshape(Flatten(blocks), |blocks|, l) == blocks
  {
    var f := Flatten(blocks);
    FlattenUniformLength(blocks, l);
    var r := Reshape(f, |blocks|, l);
    forall k | 0 <= k < |blocks|
      ensures r[k] == blocks[k]
    {
      var p := PrefixSums(Lengths(blocks));
      ReshapeRow(f, |blocks|, l, k);
      FlattenSlice(blocks, k);
      UniformOffset(blocks, l, k);
      UniformOffset(blocks, l, k + 1);
      assert f[p[k]..p[k + 1]] == blocks[k];
      assert p[k] == k * l && p[k + 1] == (k + 1) * l;
    }
  }

  lemma {:induction false} UniformOffset<T>(blocks: seq<seq<T>>, l: nat, j: nat)
    requires j <= |blocks| && forall k :: 0 <= k < |blocks| ==> |blocks[k]| == l
    ensures PrefixSums(Lengths(blocks))[j] == j * l
  {
    if j > 0 {
      UniformOffset(blocks, l, j - 1);
      var p := PrefixSums(Lengths(blocks));
      assert p[j] == p[j - 1] + l;
      MulStep(j - 1, l);
    }
  }

  /** Membership in a prefix one longer. */
  lemma PrefixMembershipStep<T>(s: seq<T>, i: nat)
    requires i < |s|
    ensures forall x :: x in s[..i + 1] <==> x in s[..i] || x == s[i]
  {
    assert s[..i + 1] == s[..i] + [s[i]];
  }

  /** `buf[a:a+|block|] = block` on a buffer whose first a entries are `done`. */
  lemma Splice<T>(buf: seq<T>, a: nat, block: seq<T>, done: seq<T>)
    requires a + |block| <= |buf| && a <= |buf| && buf[..a] == done
    ensures var nb := buf[..a] + block + buf[a + |block|..];
      |nb| == |buf| && nb[..a + |block|] == done + block
  {
    var nb := buf[..a] + block + buf[a + |block|..];
    assert nb[..a + |block|] == buf[..a] + block;
  }
}
