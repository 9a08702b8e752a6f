/**
 * The flat `values` and `channel_ids` buffers of the multivariate shapelets.
 *
 * The generators append a retained shapelet's block (its `n_channels * length`
 * values, or its `n_channels` channel ids) at running offsets, in the order the
 * shapelets are processed: ascending unique dilation, then ascending index. The
 * apply functions find shapelet i's block between the 0-prefixed cumulative sums
 * of the block sizes, that is, in index order. The two orders differ as soon as a
 * retained shapelet has a larger dilation than a later retained one.
 */
module Packing {
  import opened ArrayOps

  /** Shapelet a is processed before shapelet b. */
  predicate Before(dilations: seq<int>, a: nat, b: nat)
    requires a < |dilations| && b < |dilations|
  {
    dilations[a] < dilations[b] || (dilations[a] == dilations[b] && a < b)
  }

  /** r lists shapelets in the order the generator processes them. */
  predicate InProcessingOrder(dilations: seq<int>, r: seq<nat>) {
    (forall j :: 0 <= j < |r| ==> r[j] < |dilations|) &&
    forall j, j' :: 0 <= j < j' < |r| ==> Before(dilations, r[j], r[j'])
  }

  /** Appending a shapelet processed after every listed one keeps the order. */
  lemma ProcessingOrderSnoc(dilations: seq<int>, r: seq<nat>, i: nat)
    requires InProcessingOrder(dilations, r) && i < |dilations|
    requires forall j :: 0 <= j < |r| ==> Before(dilations, r[j], i)
    ensures InProcessingOrder(dilations, r + [i])
  {
    var r' := r + [i];
    forall j | 0 <= j < |r'|
      ensures r'[j] < |dilations|
    {
      if j < |r| {
        assert r'[j] == r[j];
      }
    }
    forall j, j' | 0 <= j < j' < |r'|
      ensures Before(dilations, r'[j], r'[j'])
    {
      assert r'[j] == r[j];
      if j' < |r| {
        assert r'[j'] == r[j'];
      }
    }
  }

  /** Being processed before is a strict order, so a list in processing order has no repeats. */
  lemma ProcessingOrderDistinct(dilations: seq<int>, r: seq<nat>)
    requires InProcessingOrder(dilations, r)
    ensures Distinct(r)
  {
    forall j, j' | 0 <= j < j' < |r|
      ensures r[j] != r[j']
    {
      assert Before(dilations, r[j], r[j']);
    }
  }

  /** The layout as written: the retained shapelets' blocks, in processing order. */
  function ProcessingOrderLayout<T>(blocks: seq<seq<T>>, retained: seq<nat>): (flat: seq<T>)
    requires forall j :: 0 <= j < |retained| ==> retained[j] < |blocks|
  {
    Flatten(Select(blocks, retained))
  }

  /** The layout the apply functions read: the kept shapelets' blocks, in index order. */
  function IndexOrderLayout<T>(blocks: seq<seq<T>>, keep: seq<bool>): (flat: seq<T>)
    requires |keep| == |blocks|
  {
    Flatten(Compact(blocks, keep))
  }

  /** In the index-order layout, the block of the j-th kept shapelet lies between the
      j-th and (j+1)-th 0-prefixed cumulative block sizes. */
  lemma IndexOrderLayoutSlices<T>(blocks: seq<seq<T>>, keep: seq<bool>, j: nat)
    requires |keep| == |blocks| && j < |Compact(blocks, keep)|
    ensures var kept := Compact(blocks, keep);
      var a := PrefixSums(Lengths(kept));
      0 <= a[j] <= a[j + 1] <= |IndexOrderLayout(blocks, keep)| &&
      IndexOrderLayout(blocks, keep)[a[j]..a[j + 1]] == kept[j]
  {
    FlattenSlice(Compact(blocks, keep), j);
  }

  /** When the kept shapelets are processed in index order, the layout as written is
      the one the apply functions read. */
  lemma LayoutsAgreeInIndexOrder<T>(blocks: seq<seq<T>>, keep: seq<bool>, retained: seq<nat>)
    requires |keep| == |blocks| && StrictlyIncreasing(retained)
    requires forall i: nat :: i in retained <==> i < |keep| && keep[i]
    ensures forall j :: 0 <= j < |retained| ==> retained[j] < |blocks|
    ensures ProcessingOrderLayout(blocks, retained) == IndexOrderLayout(blocks, keep)
  {
    forall j | 0 <= j < |retained|
      ensures retained[j] < |blocks|
    {
      assert retained[j] in retained;
    }
    var w := Where(keep);
    forall x
      ensures x in retained <==> x in w
    {
      if x in w {
        var j :| 0 <= j < |w| && w[j] == x;
      }
    }
    StrictlyIncreasingUnique(retained, w);
  }

  /** The processing order is the index order when the dilations do not decrease
      with the index (in particular when they are all equal). */
  lemma IndexOrderWhenSorted(dilations: seq<int>, r: seq<nat>)
    requires InProcessingOrder(dilations, r)
    requires forall i, i' :: 0 <= i < i' < |dilations| ==> dilations[i] <= dilations[i']
    ensures StrictlyIncreasing(r)
  {
    forall j, j' | 0 <= j < j' < |r|
      ensures r[j] < r[j']
    {
      assert Before(dilations, r[j], r[j']);
    }
  }

  /** Two kept shapelets, the first with dilation 2, the second with dilation 1: the
      only processing order lists the second first. */
  lemma {:induction false} OnlyProcessingOrder(r: seq<nat>)
    requires InProcessingOrder([2, 1], r)
    requires forall i: nat :: i in r <==> i < 2
    ensures r == [1, 0]
  {
    ProcessingOrderDistinct([2, 1], r);
    assert 0 in r && 1 in r;
    var j0 :| 0 <= j0 < |r| && r[j0] == 0;
    var j1 :| 0 <= j1 < |r| && r[j1] == 1;
    assert j1 < j0;
    PermutationLength(r, 2);
    assert j1 == 0 && j0 == 1;
  }

  /** The packing as written puts a shapelet's values where the apply functions read
      another's: with dilations [2, 1], lengths [2, 3], one channel each, and both
      shapelets kept, the layout is shapelet 1's block then shapelet 0's, while the
      apply functions read shapelet 0's values from offsets 0..2. */
  lemma {:induction false} ProcessingOrderLayoutMisreads(retained: seq<nat>)
    requires InProcessingOrder([2, 1], retained)
    requires forall i: nat :: i in retained <==> i < 2
    ensures var blocks := [[0.0, 0.0], [1.0, 1.0, 1.0]];
      var flat := ProcessingOrderLayout(blocks, retained);
      var a := PrefixSums([1 * 2, 1 * 3]);
      a == [0, 2, 5] && flat == [1.0, 1.0, 1.0, 0.0, 0.0] &&
      flat[a[0]..a[1]] != blocks[0]
  {
    OnlyProcessingOrder(retained);
    var blocks := [[0.0, 0.0], [1.0, 1.0, 1.0]];
    assert Select(blocks, retained) == [[1.0, 1.0, 1.0], [0.0, 0.0]];
    assert Flatten([[1.0, 1.0, 1.0], [0.0, 0.0]]) == Flatten([[1.0, 1.0, 1.0]]) + [0.0, 0.0];
    assert Flatten([[1.0, 1.0, 1.0]]) == Flatten<real>([]) + [1.0, 1.0, 1.0];
    var flat := ProcessingOrderLayout(blocks, retained);
    assert flat[0..2] == [1.0, 1.0];
  }
}
