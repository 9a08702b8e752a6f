/**
 * The generation loops shared by the multivariate generators: for each unique
 * dilation in ascending order, each of its shapelets in index order draws an anchor
 * from the mask slice of its flag and group, then is dropped or cut there. The two
 * generators differ only in how the anchor is drawn (`Layout`).
 */
module ChannelDrafting {
  import opened ArrayOps
  import opened Commons
  import opened Sampling
  import opened Packing
  import opened ChannelGeneration
  import opened ChannelSampling
  import opened ChannelTracking
  import U = UnivariateSameLength

  /** One pass of the inner generation loop for shapelet i: draw its channels, find an
      anchor in its mask slice, and either cut the shapelet there, writing its blocks at
      a1 and a2, or clear its `mask_return` entry when there is none. Its status is the
      draw from the slice. */
  method SampleAndRecord(layout: Layout, run: Run, P: Params, mask: array5<bool>, values: array<real>,
                         channelIds: array<int>, threshold: array<real>, maskReturn: array<bool>,
                         ghost status: seq<Status>, ghost retained: seq<nat>, uniqueDil: seq<int>, g: nat, i: nat,
                         minL: int, a1: nat, a2: nat)
    returns (ghost status': seq<Status>, ghost retained': seq<nat>, b1: nat, b2: nat)
    requires Generating(run, P, status, retained, threshold[..], maskReturn[..], values[..], channelIds[..], a1, a2)
    requires i < |status| && status[i].Pending? && forall j :: 0 <= j < |retained| ==> Before(P.dilations, retained[j], i)
    requires Suits(layout, run, P) && MaskTracks(mask, run, P, status, uniqueDil)
    requires StrictlyIncreasing(uniqueDil) && g < |uniqueDil| && P.dilations[i] == uniqueDil[g]
    requires minL == GroupMinLength(P.lengths, P.dilations, uniqueDil[g])
    requires values != threshold
    modifies mask, values, channelIds, threshold, maskReturn
    ensures Generating(run, P, status', retained', threshold[..], maskReturn[..], values[..], channelIds[..], b1, b2)
    ensures status' == status[i := status'[i]] && retained' == if status'[i].Kept? then retained + [i] else retained
    ensures Drawable(layout, run, P, i) &&
      StatusMatches(status'[i], AnchorDraw(layout, run, P, old(MaskSlice(mask, U.NormIndex(P.normalize[i]), g, run.len)), i))
    ensures MaskTracks(mask, run, P, status', uniqueDil)
    ensures run.alpha <= 0.0 && |run.X| > 0 ==> status'[i].Kept?
  {
    DraftedDrawable(layout, run, P, status, threshold[..], maskReturn[..], i);
    ghost var x := MaskSlice(mask, U.NormIndex(P.normalize[i]), g, run.len);
    var r := SampleAnchor(layout, run, P, mask, g, i);
    status', retained', b1, b2 := RecordDraw(run, P, mask, values, channelIds, threshold, maskReturn, status, retained,
                                             uniqueDil, g, i, minL, a1, a2, r);
    assert StatusMatches(status'[i], r);
  }

  /** The k-th pass of the inner generation loop: shapelet `id_shps[k]`, the next one
      in processing order, is sampled from the slice it sees and recorded. */
  method DraftNext(layout: Layout, run: Run, P: Params, mask: array5<bool>, values: array<real>,
                   channelIds: array<int>, threshold: array<real>, maskReturn: array<bool>, uniqueDil: seq<int>, g: nat,
                   idShps: seq<nat>, k: nat, minL: int, ghost status: seq<Status>, ghost retained: seq<nat>, a1: nat,
                   a2: nat)
    returns (ghost status': seq<Status>, ghost retained': seq<nat>, b1: nat, b2: nat)
    requires Generating(run, P, status, retained, threshold[..], maskReturn[..], values[..], channelIds[..], a1, a2)
    requires StrictlyIncreasing(uniqueDil) && g < |uniqueDil|
    requires idShps == Where(DilationMask(P.dilations, uniqueDil[g])) && k < |idShps|
    requires minL == GroupMinLength(P.lengths, P.dilations, uniqueDil[g])
    requires values != threshold
    requires |P.dilations| == |status| && Progress(P, status, uniqueDil, g, idShps, k)
    requires Suits(layout, run, P) && MaskTracks(mask, run, P, status, uniqueDil)
    requires DrawnSoFar(layout, run, P, status)
    modifies mask, values, channelIds, threshold, maskReturn
    ensures Generating(run, P, status', retained', threshold[..], maskReturn[..], values[..], channelIds[..], b1, b2)
    ensures |status'| == |status| && Progress(P, status', uniqueDil, g, idShps, k + 1)
    ensures MaskTracks(mask, run, P, status', uniqueDil) && DrawnSoFar(layout, run, P, status')
  {
    NextInOrder(P, status, retained, uniqueDil, g, idShps, k);
    NextOfGroup(P, status, uniqueDil, g, idShps, k);
    var i := idShps[k];
    MaskIsSeen(mask, run, P, status, uniqueDil, g, i);
    status', retained', b1, b2 := SampleAndRecord(layout, run, P, mask, values, channelIds, threshold, maskReturn,
                                                  status, retained, uniqueDil, g, i, minL, a1, a2);
    PendingStep(P, status, status', uniqueDil, g, idShps, k);
    DrawnStep(layout, run, P, status, uniqueDil, g, idShps, k, status'[i]);
  }

  /** The inner generation loop for the shapelets of dilation `unique_dil[g]`, in
      index order. */
  method DraftGroup(layout: Layout, run: Run, P: Params, mask: array5<bool>, values: array<real>,
                    channelIds: array<int>, threshold: array<real>, maskReturn: array<bool>, uniqueDil: seq<int>,
                    g: nat, ghost status: seq<Status>, ghost retained: seq<nat>, a1: nat, a2: nat)
    returns (ghost status': seq<Status>, ghost retained': seq<nat>, b1: nat, b2: nat)
    requires Generating(run, P, status, retained, threshold[..], maskReturn[..], values[..], channelIds[..], a1, a2)
    requires StrictlyIncreasing(uniqueDil) && (forall z :: z in uniqueDil <==> z in P.dilations) && g < |uniqueDil|
    requires values != threshold
    requires |P.dilations| == |status| && Progress(P, status, uniqueDil, g, [], 0)
    requires Suits(layout, run, P) && MaskTracks(mask, run, P, status, uniqueDil)
    requires DrawnSoFar(layout, run, P, status)
    modifies mask, values, channelIds, threshold, maskReturn
    ensures Generating(run, P, status', retained', threshold[..], maskReturn[..], values[..], channelIds[..], b1, b2)
    ensures |status'| == |status| && Progress(P, status', uniqueDil, g + 1, [], 0)
    ensures MaskTracks(mask, run, P, status', uniqueDil) && DrawnSoFar(layout, run, P, status')
  {
    var m := |P.lengths|;
    status', retained', b1, b2 := status, retained, a1, a2;
    var idShps, minL := ShapeletsOfDilation(P, uniqueDil[g]);
    for k := 0 to |idShps|
      invariant |status'| == m
      invariant Generating(run, P, status', retained', threshold[..], maskReturn[..], values[..], channelIds[..], b1, b2)
      invariant Progress(P, status', uniqueDil, g, idShps, k)
      invariant MaskTracks(mask, run, P, status', uniqueDil) && DrawnSoFar(layout, run, P, status')
    {
      status', retained', b1, b2 := DraftNext(layout, run, P, mask, values, channelIds, threshold, maskReturn,
                                              uniqueDil, g, idShps, k, minL, status', retained', b1, b2);
    }
    GroupDone(P, status', uniqueDil, g, idShps);
  }

  /** The outer generation loop, over the unique dilations in ascending order, from a
      mask whose cells are open exactly within their sample's length: every shapelet
      is processed, its status the draw from the slice it saw, and the mask then holds
      exactly the cells no cut has cleared. */
  method DraftGroups(layout: Layout, run: Run, P: Params, mask: array5<bool>, values: array<real>,
                     channelIds: array<int>, threshold: array<real>, maskReturn: array<bool>, uniqueDil: seq<int>)
    returns (ghost status: seq<Status>, ghost retained: seq<nat>, a1: nat, a2: nat)
    requires Generating(run, P, AllPending(|P.lengths|), [], threshold[..], maskReturn[..], values[..],
                        channelIds[..], 0, 0)
    requires StrictlyIncreasing(uniqueDil) && forall z :: z in uniqueDil <==> z in P.dilations
    requires Suits(layout, run, P) && MaskTracks(mask, run, P, AllPending(|P.lengths|), uniqueDil)
    requires values != threshold
    modifies mask, values, channelIds, threshold, maskReturn
    ensures Generating(run, P, status, retained, threshold[..], maskReturn[..], values[..], channelIds[..], a1, a2)
    ensures forall i :: 0 <= i < |status| ==> !status[i].Pending?
    ensures DrawnSoFar(layout, run, P, status) && MaskTracks(mask, run, P, status, uniqueDil)
  {
    var m := |P.lengths|;
    status, retained, a1, a2 := AllPending(m), [], 0, 0;
    NothingDrawn(layout, run, P);
    NothingProcessed(P, uniqueDil);
    for g := 0 to |uniqueDil|
      invariant |status| == m
      invariant Generating(run, P, status, retained, threshold[..], maskReturn[..], values[..], channelIds[..], a1, a2)
      invariant Progress(P, status, uniqueDil, g, [], 0)
      invariant MaskTracks(mask, run, P, status, uniqueDil) && DrawnSoFar(layout, run, P, status)
    {
      status, retained, a1, a2 := DraftGroup(layout, run, P, mask, values, channelIds, threshold, maskReturn,
                                             uniqueDil, g, status, retained, a1, a2);
    }
    assert forall j :: 0 <= j < m ==> P.dilations[j] in P.dilations;
    EverythingProcessed(P, status, uniqueDil);
  }
}
