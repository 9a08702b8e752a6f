/**
 * What the multivariate generation loops do to the mask, stated on values. The
 * mask slice of a flag and a dilation group starts with every cell open within its
 * sample's length. Cutting a shapelet closes, in each of its channels, the cells
 * around its anchor. Shapelets are processed by ascending dilation, then in index
 * order, so shapelet i finds its slice with exactly the cuts of the shapelets j < i
 * of its dilation and flag applied: that is its seen slice, and its status is the
 * draw from that slice.
 */
module ChannelTracking {
  import opened ArrayOps
  import opened Commons
  import opened Sampling
  import opened ChannelGeneration
  import opened ChannelSampling
  import opened Packing
  import U = UnivariateSameLength

  // ------------------------------------------------------------ seen slice

  /** Cell (c, f, t) lies in the span shapelet j cleared when it was cut: j is kept,
      anchored in sample c, f is one of its channels, and t is one of
      `Cleared(index, d, len[c], k)` for its dilation d and its group's clearing size k. */
  predicate ClearedBy(run: Run, P: Params, status: seq<Status>, j: nat, c: nat, f: nat, t: nat)
    requires Sized(P, |status|) && j < |status| && c < |run.len|
  {
    status[j].Kept? && status[j].anchor.sample == c && f in status[j].anchor.channels && run.len[c] > 0 &&
    t in Cleared(status[j].anchor.index, P.dilations[j], run.len[c],
                 Steps(AlphaSize(P.lengths[j], run.alpha, GroupMinLength(P.lengths, P.dilations, P.dilations[j]))))
  }

  /** Cell (c, f, t) is open for shapelet i: no shapelet j < i of the same dilation and
      flag has cleared it. */
  predicate OpenFor(run: Run, P: Params, status: seq<Status>, i: nat, c: nat, f: nat, t: nat)
    requires Sized(P, |status|) && i < |status| && c < |run.len|
  {
    forall j :: 0 <= j < i && P.dilations[j] == P.dilations[i] && P.normalize[j] == P.normalize[i] ==>
      !ClearedBy(run, P, status, j, c, f, t)
  }

  /** The slice of i's flag and group as shapelet i finds it: a cell within its
      sample's length is true when it is open for i. */
  function SeenSlice(run: Run, P: Params, status: seq<Status>, i: nat): (x: seq<seq<seq<bool>>>)
    requires Sized(P, |status|) && i < |status|
    ensures Shaped(x, run.nFt, run.len)
  {
    seq(|run.len|, c requires 0 <= c < |run.len| =>
      seq(run.nFt, f requires 0 <= f < run.nFt =>
        seq(run.len[c], t requires 0 <= t < run.len[c] => OpenFor(run, P, status, i, c, f, t))))
  }

  /** A status agrees with a draw: dropped when the draw found nothing, kept at the
      drawn cell otherwise. */
  predicate StatusMatches(st: Status, r: Option<(nat, nat)>) {
    !st.Pending? && (st.Dropped? <==> r.None?) && (st.Kept? ==> r == Some((st.anchor.sample, st.anchor.index)))
  }

  /** Shapelet i's status is the draw from the slice it saw. */
  predicate DrawnAt(layout: Layout, run: Run, P: Params, status: seq<Status>, i: nat)
    requires Sized(P, |status|) && i < |status|
  {
    Drawable(layout, run, P, i) && StatusMatches(status[i], AnchorDraw(layout, run, P, SeenSlice(run, P, status, i), i))
  }

  /** Every processed shapelet's status is the draw from the slice it saw. */
  predicate DrawnSoFar(layout: Layout, run: Run, P: Params, status: seq<Status>) {
    Sized(P, |status|) &&
    forall i :: 0 <= i < |status| && !status[i].Pending? ==> DrawnAt(layout, run, P, status, i)
  }

  // ------------------------------------------------------------ the mask

  /** Cell (flag a, group b, c, f, t) is untouched: no shapelet of flag a and dilation
      `unique_dil[b]` has cleared it. */
  predicate Untouched(run: Run, P: Params, status: seq<Status>, uniqueDil: seq<int>, a: nat, b: nat, c: nat, f: nat,
                      t: nat)
    requires Sized(P, |status|) && b < |uniqueDil| && c < |run.len|
  {
    forall j :: 0 <= j < |status| && P.dilations[j] == uniqueDil[b] && U.NormIndex(P.normalize[j]) == a ==>
      !ClearedBy(run, P, status, j, c, f, t)
  }

  /** The mask has one slice per flag and group, one row per sample and channel, each
      row spanning every sample's length; a cell is true exactly when it lies within
      its sample's length and no cut has cleared it. */
  predicate MaskTracks(mask: array5<bool>, run: Run, P: Params, status: seq<Status>, uniqueDil: seq<int>)
    reads mask
  {
    Sized(P, |status|) && mask.Length0 == 2 && mask.Length1 == |uniqueDil| && mask.Length2 == |run.len| &&
    mask.Length3 == run.nFt && (forall c :: 0 <= c < |run.len| ==> run.len[c] <= mask.Length4) &&
    forall a, b, c, f, t :: 0 <= a < mask.Length0 && 0 <= b < mask.Length1 && 0 <= c < mask.Length2 &&
                            0 <= f < mask.Length3 && 0 <= t < mask.Length4 ==>
      mask[a, b, c, f, t] == (t < run.len[c] && Untouched(run, P, status, uniqueDil, a, b, c, f, t))
  }

  /** Before the loops nothing is cut: a mask whose cells are open exactly within
      their sample's length tracks the cuts. */
  lemma TracksAtStart(mask: array5<bool>, run: Run, P: Params, uniqueDil: seq<int>)
    requires Sized(P, |P.lengths|) && mask.Length0 == 2 && mask.Length1 == |uniqueDil| && mask.Length2 == |run.len|
    requires mask.Length3 == run.nFt && forall c :: 0 <= c < |run.len| ==> run.len[c] <= mask.Length4
    requires forall a, b, c, f, t :: 0 <= a < mask.Length0 && 0 <= b < mask.Length1 && 0 <= c < mask.Length2 &&
                                     0 <= f < mask.Length3 && 0 <= t < mask.Length4 ==>
      (mask[a, b, c, f, t] <==> t < run.len[c])
    ensures MaskTracks(mask, run, P, AllPending(|P.lengths|), uniqueDil)
  {
  }

  /** Dropping a pending shapelet touches no cell. */
  lemma UntouchedDrop(run: Run, P: Params, status: seq<Status>, uniqueDil: seq<int>, i: nat)
    requires Sized(P, |status|) && i < |status| && status[i].Pending?
    ensures forall a: nat, b: nat, c: nat, f: nat, t: nat :: b < |uniqueDil| && c < |run.len| ==>
      (Untouched(run, P, status[i := Dropped], uniqueDil, a, b, c, f, t) <==>
       Untouched(run, P, status, uniqueDil, a, b, c, f, t))
  {
    var after := status[i := Dropped];
    forall c: nat, f: nat, t: nat, j | c < |run.len| && 0 <= j < |status|
      ensures ClearedBy(run, P, after, j, c, f, t) == ClearedBy(run, P, status, j, c, f, t)
    {
      if j != i {
        assert after[j] == status[j];
      }
    }
  }

  /** Cutting pending shapelet i of dilation `unique_dil[g]` at an anchor closes exactly
      the cells it clears in the slice of its flag and group: positions
      `Cleared(index, d, m, k)` of the anchor's channels in the anchor's sample, for
      i's dilation d, that sample's length m and i's clearing size k. */
  lemma UntouchedKeep(run: Run, P: Params, status: seq<Status>, uniqueDil: seq<int>, g: nat, i: nat, a0: ChannelAnchor,
                      norm: nat, s: nat, chans: seq<nat>, index: nat, d: int, m: nat, k: nat)
    requires Sized(P, |status|) && StrictlyIncreasing(uniqueDil) && g < |uniqueDil|
    requires i < |status| && status[i].Pending? && P.dilations[i] == uniqueDil[g]
    requires norm == U.NormIndex(P.normalize[i]) && s == a0.sample && chans == a0.channels && index == a0.index
    requires s < |run.len| && d == P.dilations[i] && m == run.len[s] > 0
    requires k == Steps(AlphaSize(P.lengths[i], run.alpha, GroupMinLength(P.lengths, P.dilations, P.dilations[i])))
    ensures forall a: nat, b: nat, c: nat, f: nat, t: nat :: b < |uniqueDil| && c < |run.len| ==>
      (Untouched(run, P, status[i := Kept(a0)], uniqueDil, a, b, c, f, t) <==>
       Untouched(run, P, status, uniqueDil, a, b, c, f, t) &&
       !(a == norm && b == g && c == s && f in chans && t in Cleared(index, d, m, k)))
  {
    var after := status[i := Kept(a0)];
    forall a: nat, b: nat, c: nat, f: nat, t: nat | b < |uniqueDil| && c < |run.len|
      ensures Untouched(run, P, after, uniqueDil, a, b, c, f, t) <==>
       Untouched(run, P, status, uniqueDil, a, b, c, f, t) &&
       !(a == norm && b == g && c == s && f in chans && t in Cleared(index, d, m, k))
    {
      assert b == g <==> uniqueDil[b] == uniqueDil[g];
      assert !ClearedBy(run, P, status, i, c, f, t);
      forall j | 0 <= j < |after| && j != i
        ensures ClearedBy(run, P, after, j, c, f, t) == ClearedBy(run, P, status, j, c, f, t)
      {
        assert after[j] == status[j];
      }
    }
  }

  /** When the mask tracks the cuts and every processed shapelet of i's dilation comes
      before i, the slice of i's flag and group is what shapelet i sees. */
  lemma MaskIsSeen(mask: array5<bool>, run: Run, P: Params, status: seq<Status>, uniqueDil: seq<int>, g: nat, i: nat)
    requires MaskTracks(mask, run, P, status, uniqueDil)
    requires g < |uniqueDil| && i < |status| && P.dilations[i] == uniqueDil[g]
    requires forall j :: 0 <= j < |status| && !status[j].Pending? && P.dilations[j] == P.dilations[i] ==> j < i
    ensures MaskSlice(mask, U.NormIndex(P.normalize[i]), g, run.len) == SeenSlice(run, P, status, i)
  {
    var norm := U.NormIndex(P.normalize[i]);
    var x := MaskSlice(mask, norm, g, run.len);
    var seen := SeenSlice(run, P, status, i);
    forall c | 0 <= c < |run.len|
      ensures x[c] == seen[c]
    {
      forall f | 0 <= f < run.nFt
        ensures x[c][f] == seen[c][f]
      {
        forall t | 0 <= t < run.len[c]
          ensures x[c][f][t] == seen[c][f][t]
        {
          assert x[c][f][t] == mask[norm, g, c, f, t] == Untouched(run, P, status, uniqueDil, norm, g, c, f, t);
          assert seen[c][f][t] == OpenFor(run, P, status, i, c, f, t);
        }
      }
    }
  }

  // --------------------------------------------------------------- progress

  /** Giving shapelet i0 a status changes nothing shapelet i sees when i0 is of another
      dilation or does not come before i. */
  lemma SeenSliceUnchanged(run: Run, P: Params, status: seq<Status>, i: nat, i0: nat, st: Status)
    requires Sized(P, |status|) && i < |status| && i0 < |status|
    requires P.dilations[i0] != P.dilations[i] || i <= i0
    ensures SeenSlice(run, P, status[i0 := st], i) == SeenSlice(run, P, status, i)
  {
    var after := status[i0 := st];
    var x := SeenSlice(run, P, after, i);
    var x0 := SeenSlice(run, P, status, i);
    forall c | 0 <= c < |run.len|
      ensures x[c] == x0[c]
    {
      forall f | 0 <= f < run.nFt
        ensures x[c][f] == x0[c][f]
      {
        forall t | 0 <= t < run.len[c]
          ensures x[c][f][t] == x0[c][f][t]
        {
          forall j | 0 <= j < i && P.dilations[j] == P.dilations[i]
            ensures ClearedBy(run, P, after, j, c, f, t) == ClearedBy(run, P, status, j, c, f, t)
          {
            assert after[j] == status[j];
          }
        }
      }
    }
  }

  /** Shapelet `id_shps[k]` has dilation `unique_dil[g]`, is pending, and every
      processed shapelet of its dilation comes before it. */
  lemma NextOfGroup(P: Params, status: seq<Status>, uniqueDil: seq<int>, g: nat, idShps: seq<nat>, k: nat)
    requires |P.dilations| == |status| && StrictlyIncreasing(uniqueDil) && g < |uniqueDil|
    requires idShps == Where(DilationMask(P.dilations, uniqueDil[g])) && k < |idShps|
    requires Progress(P, status, uniqueDil, g, idShps, k)
    ensures idShps[k] < |status| && P.dilations[idShps[k]] == uniqueDil[g] && status[idShps[k]].Pending?
    ensures forall j :: 0 <= j < |status| && !status[j].Pending? && P.dilations[j] == uniqueDil[g] ==> j < idShps[k]
  {
    assert forall q :: 0 <= q < g ==> uniqueDil[..g][q] < uniqueDil[g];
    assert forall q :: 0 <= q < k ==> idShps[..k][q] < idShps[k];
  }

  /** Giving shapelet i0 a status keeps shapelet j's status the draw from the slice it
      saw when i0 is of another dilation or comes after j. */
  lemma DrawnKept(layout: Layout, run: Run, P: Params, status: seq<Status>, j: nat, i0: nat, st: Status)
    requires Sized(P, |status|) && j < |status| && i0 < |status| && j != i0
    requires P.dilations[i0] != P.dilations[j] || j < i0
    requires DrawnAt(layout, run, P, status, j)
    ensures DrawnAt(layout, run, P, status[i0 := st], j)
  {
    SeenSliceUnchanged(run, P, status, j, i0, st);
  }

  /** Giving shapelet i the draw from the slice it sees makes its status drawn. */
  lemma DrawnNew(layout: Layout, run: Run, P: Params, status: seq<Status>, i: nat, st: Status)
    requires Sized(P, |status|) && i < |status| && Drawable(layout, run, P, i)
    requires StatusMatches(st, AnchorDraw(layout, run, P, SeenSlice(run, P, status, i), i))
    ensures DrawnAt(layout, run, P, status[i := st], i)
  {
    var after := status[i := st];
    SeenSliceUnchanged(run, P, status, i, i, st);
    assert after[i] == st && SeenSlice(run, P, after, i) == SeenSlice(run, P, status, i);
  }

  /** Recording the draw of the next shapelet, made from the slice it sees, keeps every
      processed shapelet's status the draw from the slice it saw. */
  lemma DrawnStep(layout: Layout, run: Run, P: Params, status: seq<Status>, uniqueDil: seq<int>, g: nat,
                  idShps: seq<nat>, k: nat, st: Status)
    requires StrictlyIncreasing(uniqueDil) && g < |uniqueDil|
    requires idShps == Where(DilationMask(P.dilations, uniqueDil[g])) && k < |idShps|
    requires DrawnSoFar(layout, run, P, status) && Progress(P, status, uniqueDil, g, idShps, k)
    requires idShps[k] < |status| && Drawable(layout, run, P, idShps[k])
    requires StatusMatches(st, AnchorDraw(layout, run, P, SeenSlice(run, P, status, idShps[k]), idShps[k]))
    ensures DrawnSoFar(layout, run, P, status[idShps[k] := st])
  {
    var i := idShps[k];
    var after := status[i := st];
    NextOfGroup(P, status, uniqueDil, g, idShps, k);
    forall j | 0 <= j < |after| && !after[j].Pending?
      ensures DrawnAt(layout, run, P, after, j)
    {
      if j == i {
        DrawnNew(layout, run, P, status, i, st);
      } else {
        assert after[j] == status[j];
        DrawnKept(layout, run, P, status, j, i, st);
      }
    }
  }

  /** A drafted shapelet of a run that matches the layout can be drawn. */
  lemma DraftedDrawable(layout: Layout, run: Run, P: Params, status: seq<Status>, thr: seq<real>, ret: seq<bool>, i: nat)
    requires Drafted(run, P, status, thr, ret) && Suits(layout, run, P) && i < |status|
    ensures Drawable(layout, run, P, i)
  {
    assert ShapeletStatus(run, i, status[i], thr[i], ret[i], P.lengths[i], P.dilations[i], P.normalize[i],
                          P.nChannels[i]);
  }

  /** Before the loops nothing is processed. */
  lemma NothingDrawn(layout: Layout, run: Run, P: Params)
    requires Sized(P, |P.lengths|)
    ensures DrawnSoFar(layout, run, P, AllPending(|P.lengths|))
  {
  }

  /** Status st of shapelet i finds nothing exactly when no sample s of slice x has a
      position among its windows that is eligible for i's channels; a kept st is
      anchored at such a position. */
  predicate FoundWithin(st: Status, layout: Layout, run: Run, P: Params, x: seq<seq<seq<bool>>>, i: nat)
    requires Drawable(layout, run, P, i) && Shaped(x, run.nFt, run.len)
  {
    var chans, b := ChannelsOf(run, P, i), Bounds(run.len, P.lengths[i], P.dilations[i], run.usePhase);
    (st.Dropped? <==> forall s, t :: 0 <= s < |run.len| && 0 <= t < b[s] ==> !Eligible(x[s], chans, t, run.alpha)) &&
    (st.Kept? ==>
       st.anchor.sample < |run.len| && st.anchor.index < b[st.anchor.sample] &&
       Eligible(x[st.anchor.sample], chans, st.anchor.index, run.alpha))
  }

  /** A status that agrees with shapelet i's draw from slice x inherits what the draw
      finds. */
  lemma MatchedWithin(st: Status, layout: Layout, run: Run, P: Params, x: seq<seq<seq<bool>>>, i: nat)
    requires Drawable(layout, run, P, i) && Shaped(x, run.nFt, run.len)
    requires StatusMatches(st, AnchorDraw(layout, run, P, x, i))
    ensures FoundWithin(st, layout, run, P, x, i)
  {
    DrawExactly(layout, run, P, x, i);
  }

  /** A processed shapelet is dropped exactly when no sample has an eligible position
      among its windows in the slice it saw; a kept one is anchored at such a position. */
  lemma StatusExactly(layout: Layout, run: Run, P: Params, status: seq<Status>, i: nat)
    requires DrawnSoFar(layout, run, P, status) && i < |status| && !status[i].Pending?
    ensures Drawable(layout, run, P, i) && FoundWithin(status[i], layout, run, P, SeenSlice(run, P, status, i), i)
  {
    assert DrawnAt(layout, run, P, status, i);
    MatchedWithin(status[i], layout, run, P, SeenSlice(run, P, status, i), i);
  }

  /** With alpha <= 0 and at least one sample, every processed shapelet is kept. */
  lemma KeptWhenAlphaNonPositive(layout: Layout, run: Run, P: Params, status: seq<Status>)
    requires DrawnSoFar(layout, run, P, status) && forall i :: 0 <= i < |status| ==> !status[i].Pending?
    requires run.alpha <= 0.0 && |run.len| > 0
    ensures forall i :: 0 <= i < |status| ==> status[i].Kept?
  {
    forall i | 0 <= i < |status|
      ensures status[i].Kept?
    {
      assert DrawnAt(layout, run, P, status, i);
      DrawWhenAlphaNonPositive(layout, run, P, SeenSlice(run, P, status, i), i);
    }
  }

  // ------------------------------------------------------------- recording

  /** Dropping a pending shapelet leaves a mask that tracks the cuts tracking them. */
  lemma TracksDrop(mask: array5<bool>, run: Run, P: Params, status: seq<Status>, uniqueDil: seq<int>, i: nat)
    requires MaskTracks(mask, run, P, status, uniqueDil) && i < |status| && status[i].Pending?
    ensures MaskTracks(mask, run, P, status[i := Dropped], uniqueDil)
  {
    UntouchedDrop(run, P, status, uniqueDil, i);
  }

  /** The mask tracks the cuts of status, with the positions `Cleared(index, d, m, k)`
      of channels chans of sample s in slice (norm, g) closed as well. */
  predicate TracksCut(mask: array5<bool>, run: Run, P: Params, status: seq<Status>, uniqueDil: seq<int>, norm: nat,
                      g: nat, s: nat, chans: seq<nat>, index: nat, d: int, m: nat, k: nat)
    reads mask
  {
    Sized(P, |status|) && m > 0 && mask.Length0 == 2 && mask.Length1 == |uniqueDil| && mask.Length2 == |run.len| &&
    mask.Length3 == run.nFt && (forall c :: 0 <= c < |run.len| ==> run.len[c] <= mask.Length4) &&
    forall a, b, c, f, t :: 0 <= a < mask.Length0 && 0 <= b < mask.Length1 && 0 <= c < mask.Length2 &&
                            0 <= f < mask.Length3 && 0 <= t < mask.Length4 ==>
      mask[a, b, c, f, t] == (t < run.len[c] && Untouched(run, P, status, uniqueDil, a, b, c, f, t) &&
                              !(a == norm && b == g && c == s && f in chans && t in Cleared(index, d, m, k)))
  }

  /** Once pending shapelet i is cut at an anchor, a mask that tracks the earlier cuts
      with the cells i clears closed tracks the cuts with i kept. */
  lemma TracksKeep(mask: array5<bool>, run: Run, P: Params, status: seq<Status>, uniqueDil: seq<int>, g: nat, i: nat,
                   a0: ChannelAnchor, norm: nat, s: nat, chans: seq<nat>, index: nat, d: int, m: nat, k: nat)
    requires TracksCut(mask, run, P, status, uniqueDil, norm, g, s, chans, index, d, m, k)
    requires StrictlyIncreasing(uniqueDil) && g < |uniqueDil|
    requires i < |status| && status[i].Pending? && P.dilations[i] == uniqueDil[g]
    requires norm == U.NormIndex(P.normalize[i]) && s == a0.sample && chans == a0.channels && index == a0.index
    requires s < |run.len| && d == P.dilations[i] && m == run.len[s] > 0
    requires k == Steps(AlphaSize(P.lengths[i], run.alpha, GroupMinLength(P.lengths, P.dilations, P.dilations[i])))
    ensures MaskTracks(mask, run, P, status[i := Kept(a0)], uniqueDil)
  {
    UntouchedKeep(run, P, status, uniqueDil, g, i, a0, norm, s, chans, index, d, m, k);
  }

  /** `RecordCut`, with a mask that tracks the cuts going on tracking them. */
  method CutTracked(run: Run, P: Params, mask: array5<bool>, values: array<real>, channelIds: array<int>,
                    threshold: array<real>, maskReturn: array<bool>, ghost status: seq<Status>,
                    ghost retained: seq<nat>, uniqueDil: seq<int>, g: nat, i: nat, minL: int, a1: nat, a2: nat,
                    s: nat, index: nat)
    returns (ghost anchor: ChannelAnchor, b1: nat, b2: nat)
    requires Generating(run, P, status, retained, threshold[..], maskReturn[..], values[..], channelIds[..], a1, a2)
    requires i < |status| && status[i].Pending? && forall j :: 0 <= j < |retained| ==> Before(P.dilations, retained[j], i)
    requires MaskTracks(mask, run, P, status, uniqueDil)
    requires StrictlyIncreasing(uniqueDil) && g < |uniqueDil| && P.dilations[i] == uniqueDil[g]
    requires minL == GroupMinLength(P.lengths, P.dilations, uniqueDil[g])
    requires s < |run.len| && index < NumWindows(run.len[s], P.lengths[i], P.dilations[i], run.usePhase)
    requires values != threshold
    modifies mask, values, channelIds, threshold
    ensures anchor.sample == s && anchor.index == index
    ensures Generating(run, P, status[i := Kept(anchor)], retained + [i], threshold[..], maskReturn[..], values[..],
                       channelIds[..], b1, b2)
    ensures MaskTracks(mask, run, P, status[i := Kept(anchor)], uniqueDil)
  {
    assert ShapeletStatus(run, i, status[i], threshold[i], maskReturn[i], P.lengths[i], P.dilations[i], P.normalize[i],
                          P.nChannels[i]);
    anchor, b1, b2 := RecordCut(run, P, mask, values, channelIds, threshold, maskReturn, status, retained, g, i, minL,
                                a1, a2, s, index);
    var norm, k := U.NormIndex(P.normalize[i]), Steps(AlphaSize(P.lengths[i], run.alpha, minL));
    assert TracksCut(mask, run, P, status, uniqueDil, norm, g, s, anchor.channels, index, P.dilations[i], run.len[s], k);
    TracksKeep(mask, run, P, status, uniqueDil, g, i, anchor, norm, s, anchor.channels, index, P.dilations[i],
               run.len[s], k);
  }

  /** Records shapelet i's draw r: drops it when r is none, else cuts it at the drawn
      cell. A mask that tracks the cuts goes on tracking them. */
  method RecordDraw(run: Run, P: Params, mask: array5<bool>, values: array<real>, channelIds: array<int>,
                    threshold: array<real>, maskReturn: array<bool>, ghost status: seq<Status>,
                    ghost retained: seq<nat>, uniqueDil: seq<int>, g: nat, i: nat, minL: int, a1: nat, a2: nat,
                    r: Option<(nat, nat)>)
    returns (ghost status': seq<Status>, ghost retained': seq<nat>, b1: nat, b2: nat)
    requires Generating(run, P, status, retained, threshold[..], maskReturn[..], values[..], channelIds[..], a1, a2)
    requires i < |status| && status[i].Pending? && forall j :: 0 <= j < |retained| ==> Before(P.dilations, retained[j], i)
    requires MaskTracks(mask, run, P, status, uniqueDil)
    requires StrictlyIncreasing(uniqueDil) && g < |uniqueDil| && P.dilations[i] == uniqueDil[g]
    requires minL == GroupMinLength(P.lengths, P.dilations, uniqueDil[g])
    requires r.Some? ==>
      r.value.0 < |run.len| && r.value.1 < NumWindows(run.len[r.value.0], P.lengths[i], P.dilations[i], run.usePhase)
    requires values != threshold
    modifies mask, values, channelIds, threshold, maskReturn
    ensures Generating(run, P, status', retained', threshold[..], maskReturn[..], values[..], channelIds[..], b1, b2)
    ensures status' == status[i := status'[i]] && StatusMatches(status'[i], r)
    ensures retained' == if status'[i].Kept? then retained + [i] else retained
    ensures MaskTracks(mask, run, P, status', uniqueDil)
  {
    if r.None? {
      RecordDrop(run, P, values, channelIds, threshold, maskReturn, status, retained, i, a1, a2);
      status', retained', b1, b2 := status[i := Dropped], retained, a1, a2;
      TracksDrop(mask, run, P, status, uniqueDil, i);
    } else {
      ghost var anchor;
      anchor, b1, b2 := CutTracked(run, P, mask, values, channelIds, threshold, maskReturn, status, retained, uniqueDil,
                                   g, i, minL, a1, a2, r.value.0, r.value.1);
      status', retained' := status[i := Kept(anchor)], retained + [i];
    }
  }
}
