/** The keystone of a cut: the length its track declares is the length its spans landed at. */
module CutLength {
  import opened Container
  import opened CutTimeline
  import opened CutPlan
  import opened CutLayout

  lemma {:induction false} SumShifted(trims: seq<PacketTrim>, shift: int)
    ensures Sum(Shifted(trims, shift)) == Sum(trims)
  {
    if |trims| == 0 {
    } else {
      var init, last := trims[..|trims| - 1], trims[|trims| - 1];
      SumShifted(init, shift);
      ShiftedSnoc(init, last, shift);
      SumSnoc(init, last);
      SumSnoc(Shifted(init, shift), PacketTrim(last.pos + shift, last.samples));
      assert trims == init + [last];
    }
  }

  lemma {:induction false} SumDiscards(from: int, end: int, g: int)
    requires g > 0 && from <= end && OnGrid(from, g) && OnGrid(end, g)
    ensures Sum(Discards(from, end, g)) == end - from
    decreases end - from
  {
    if from < end {
      GridGap(from, end, g);
      SumOnGrid(end, g, g);
      SumDiscards(from, end - g, g);
      SumSnoc(Discards(from, end - g, g), PacketTrim(end - g, g));
    }
  }

  /** Where span i's audio ends on the raw timeline, the last one's at the requested end. */
  function LandEnd(c: Cut, i: nat): int requires i < c.N() {
    if i < c.N() - 1 then Tail(c, i) else c.at[i].dt
  }

  /** The audio of span i, in track samples, when its end is known. */
  function Net(c: Cut, i: nat): int requires i < c.N() {
    Heard(c.track.midTrims, LandEnd(c, i)) - Heard(c.track.midTrims, c.at[i].hd)
  }

  /** The source's trims a window keeps are the ones before its audio's end. */
  lemma TrimsToLandEnd(c: Cut, i: nat)
    requires c.Laid() && TrimsCovered(c.track) && i < c.N() && (i < c.N() - 1 || !c.UnknownEnd())
    ensures c.TrimsUpTo(i) == Before(c.track.midTrims, LandEnd(c, i))
  {
    if c.TrimsUpTo(i) > 0 {
      KeptBeforeEnd(c, i, c.TrimsUpTo(i) - 1);
    }
    if c.TrimsUpTo(i) < |c.track.midTrims| {
      EndAtTail(c, i, c.TrimsUpTo(i));
    }
    BeforeIs(c.track.midTrims, c.g, LandEnd(c, i), c.TrimsUpTo(i));
  }

  /** A trim that is kept ends by the audio's end. */
  lemma KeptBeforeEnd(c: Cut, i: nat, k: nat)
    requires c.Laid() && TrimsCovered(c.track) && i < c.N() && (i < c.N() - 1 || !c.UnknownEnd()) && k < c.TrimsUpTo(i)
    ensures c.track.midTrims[k].End() <= LandEnd(c, i)
  {
    var trims, x, su := c.track.midTrims, c.track.midTrims[k].End(), c.at[i].su;
    WindowShape(c, i);
    BeforeSplits(trims, c.g, su);
    BeforeSplits(trims, c.g, su - 1);
    assert c.Restated(i) ==> x <= su - 1;
    assert x <= su;
    if LandEnd(c, i) < x {
      assert i == c.N() - 1 ==> !c.LastToEnd() by {
        assert c.TailLaid(i);
      }
      NoGridBetween(c, i, x);
    }
  }

  /** No packet of the window ends between the audio's end and the window's. */
  lemma NoGridBetween(c: Cut, i: nat, x: int)
    requires c.Laid() && TrimsCovered(c.track) && i < c.N() && (i < c.N() - 1 || !c.UnknownEnd())
    requires OnGrid(x, c.g) && LandEnd(c, i) < x && (i == c.N() - 1 ==> !c.LastToEnd())
    ensures c.Restated(i) ==> c.at[i].su - 1 < x
    ensures !c.Restated(i) ==> c.at[i].su < x
  {
    WindowShape(c, i);
    TailBounds(c, i);
    assert c.TailLaid(i);
    if i < c.N() - 1 || !c.open {
      if x < c.at[i].su {
        GridGap(x, c.at[i].su, c.g);
      }
    } else {
      var e :| OnGrid(e, c.g) && c.at[i].dt <= e < c.at[i].dt + c.g && c.at[i].su < e;
      if x < e {
        GridGap(x, e, c.g);
      }
    }
  }

  /** A trim past the ones kept ends past the audio's end. */
  lemma EndAtTail(c: Cut, i: nat, k: nat)
    requires c.Laid() && TrimsCovered(c.track) && i < c.N() && (i < c.N() - 1 || !c.UnknownEnd())
    requires c.TrimsUpTo(i) <= k < |c.track.midTrims|
    ensures LandEnd(c, i) < c.track.midTrims[k].End()
  {
    var trims, su := c.track.midTrims, c.at[i].su;
    WindowShape(c, i);
    BeforeSplits(trims, c.g, su);
    BeforeSplits(trims, c.g, su - 1);
    AudioByEnd(c, i);
    if c.Restated(i) {
      NotAnEnd(trims, c.g, LandEnd(c, i), k);
    }
  }

  lemma AudioByEnd(c: Cut, i: nat)
    requires c.Laid() && TrimsCovered(c.track) && i < c.N() && (i < c.N() - 1 || !c.UnknownEnd())
    ensures 0 <= c.at[i].su && LandEnd(c, i) <= c.at[i].su
    ensures c.Restated(i) ==> !Inside(c.track.midTrims, LandEnd(c, i) - 1)
  {
    WindowShape(c, i);
    TailBounds(c, i);
    assert c.TailLaid(i);
  }

  lemma NotAnEnd(trims: seq<PacketTrim>, g: int, x: int, k: nat)
    requires Placed(trims, g) && !Inside(trims, x - 1) && k < |trims|
    ensures trims[k].End() != x
  {
    assert !(trims[k].pos <= x - 1 < trims[k].End());
  }

  /** A window's packets, less its trims and the synthesized padding, are its audio. */
  lemma WindowNet(c: Cut, i: nat)
    requires c.Laid() && TrimsCovered(c.track) && i < c.N() && (i < c.N() - 1 || !c.UnknownEnd())
    ensures c.at[i].su - c.at[i].sd - Sum(c.WindowTrims(i)) - (if i == c.N() - 1 then c.Padding() else 0) == Net(c, i)
  {
    var trims, b := c.track.midTrims, c.at[i];
    WindowShape(c, i);
    TrimsInOrder(c, i);
    TrimsToLandEnd(c, i);
    TailBounds(c, i);
    if c.splice && i > 0 {
      SumDiscards(b.sd, b.hd, c.g);
    }
    assert Sum(c.Heads(i)) == b.hd - b.sd;
    SumInner(c, i, Before(trims, b.hd), c.TrimsUpTo(i));
    WindowSum(c, i);
  }

  lemma SumInner(c: Cut, i: nat, lo: nat, hi: nat)
    requires i < c.N() && lo == Before(c.track.midTrims, c.at[i].hd) <= hi == c.TrimsUpTo(i)
    ensures Sum(c.Inner(i)) == SumTo(c.track.midTrims, hi) - SumTo(c.track.midTrims, lo)
  {
    SumSlice(c.track.midTrims, lo, hi);
  }

  lemma WindowSum(c: Cut, i: nat)
    requires i < c.N() == |c.spans| && c.g > 0 && c.TailSlop(i) >= 0 && Sum(c.Heads(i)) == c.at[i].hd - c.at[i].sd
    requires Sum(c.Inner(i)) == SumTo(c.track.midTrims, Before(c.track.midTrims, LandEnd(c, i)))
                             - SumTo(c.track.midTrims, Before(c.track.midTrims, c.at[i].hd))
    requires i < c.N() - 1 ==> c.at[i].su - c.TailSlop(i) == LandEnd(c, i)
    requires i == c.N() - 1 ==> c.TailSlop(i) == 0 && !c.UnknownEnd()
    ensures c.at[i].su - c.at[i].sd - Sum(c.WindowTrims(i)) - (if i == c.N() - 1 then c.Padding() else 0) == Net(c, i)
  {
    var tail := TailOf(c.at[i].su, c.TailSlop(i));
    SumThree(c.Heads(i), c.Inner(i), tail);
    SumTail(c.at[i].su, c.TailSlop(i));
  }

  lemma SumTail(end: int, slop: int)
    requires slop >= 0
    ensures Sum(TailOf(end, slop)) == slop
  {
    if slop > 0 {
      SumSnoc([], PacketTrim(end - slop, slop));
      assert [] + [PacketTrim(end - slop, slop)] == TailOf(end, slop);
    }
  }

  lemma SumThree(a: seq<PacketTrim>, b: seq<PacketTrim>, d: seq<PacketTrim>)
    ensures Sum(a + b + d) == Sum(a) + Sum(b) + Sum(d)
  {
    SumAppend(a, b);
    SumAppend(a + b, d);
  }

  function SumInts(xs: seq<int>, k: nat): int requires k <= |xs| {
    if k == 0 then 0 else SumInts(xs, k - 1) + xs[k - 1]
  }

  function Nets(c: Cut): (r: seq<int>)
    ensures |r| == c.N() && forall i :: 0 <= i < c.N() ==> r[i] == Net(c, i)
  {
    seq(c.N(), i requires 0 <= i < c.N() => Net(c, i))
  }

  /** The summed audio of the first k spans. */
  function NetTo(c: Cut, k: nat): int requires k <= c.N() { SumInts(Nets(c), k) }

  lemma NetStep(c: Cut, k: nat)
    requires k < c.N()
    ensures NetTo(c, k + 1) == NetTo(c, k) + Net(c, k) && NetTo(c, 0) == 0
  {
  }

  /** A window's packets less their trims. */
  ghost function Kept(c: Cut, i: nat): int requires i < c.N() && c.g > 0 {
    c.at[i].su - c.at[i].sd - Sum(c.WindowTrims(i))
  }

  ghost function Kepts(c: Cut): (r: seq<int>)
    requires c.g > 0
    ensures |r| == c.N() && forall i :: 0 <= i < c.N() ==> r[i] == Kept(c, i)
  {
    seq(c.N(), i requires 0 <= i < c.N() => Kept(c, i))
  }

  ghost function SumParts(parts: seq<seq<PacketTrim>>, k: nat): int requires k <= |parts| {
    if k == 0 then 0 else SumParts(parts, k - 1) + Sum(parts[k - 1])
  }

  lemma {:induction false} SumConcat(parts: seq<seq<PacketTrim>>, k: nat)
    requires k <= |parts|
    ensures Sum(Concat(parts, k)) == SumParts(parts, k)
  {
    if k > 0 {
      SumConcat(parts, k - 1);
      SumAppend(Concat(parts, k - 1), parts[k - 1]);
    }
  }

  lemma {:induction false} DeliveredKept(c: Cut, parts: seq<seq<PacketTrim>>, kept: seq<int>, k: nat)
    requires k <= c.N() == |parts| == |kept|
    requires forall j :: 0 <= j < c.N() ==> kept[j] == c.at[j].su - c.at[j].sd - Sum(parts[j])
    ensures c.Delivered(k) - SumParts(parts, k) == SumInts(kept, k)
  {
    if k > 0 {
      DeliveredKept(c, parts, kept, k - 1);
    }
  }

  /** Each kept length is the audio's, and the last the padding's besides. */
  ghost predicate NetsOut(kept: seq<int>, net: seq<int>, padding: int) {
    |kept| == |net| && forall j :: 0 <= j < |kept| ==> kept[j] - (if j == |kept| - 1 then padding else 0) == net[j]
  }

  lemma {:induction false} KeptNet(kept: seq<int>, net: seq<int>, padding: int, k: nat)
    requires k <= |kept| == |net| && NetsOut(kept, net, padding)
    ensures SumInts(kept, k) - (if k == |kept| > 0 then padding else 0) == SumInts(net, k)
  {
    if k > 0 {
      KeptNet(kept, net, padding, k - 1);
    }
  }

  /** Where a span landed, said on the raw timeline. */
  lemma LandedAt(c: Cut, i: nat)
    requires c.Laid() && TrimsCovered(c.track) && i < c.N()
    ensures i > 0 ==> c.Landing(i).from == TrackOf(c.track.midTrims, c.track.delay, c.at[i].hd)
    ensures i == 0 ==> c.Landing(0).from == TrackOf(c.track.midTrims, c.track.delay, c.at[0].hd) + c.Delay()
    ensures i < c.N() - 1 || !c.UnknownEnd() ==>
      c.Landing(i).to == TrackOf(c.track.midTrims, c.track.delay, LandEnd(c, i))
  {
    assert c.HeadLaid(i) && c.TailLaid(i);
    if i == c.N() - 1 && c.LastToEnd() && !c.UnknownEnd() {
      var trims := c.track.midTrims;
      BeforeIs(trims, c.g, c.at[i].dt, |trims|);
    }
  }

  /** The summed length of the first k landed spans. */
  function LandedTo(landed: seq<Span>, k: nat): int requires k <= |landed| {
    if k == 0 then 0 else LandedTo(landed, k - 1) + landed[k - 1].to - landed[k - 1].from
  }

  lemma LandedOne(c: Cut, i: nat)
    requires c.Laid() && TrimsCovered(c.track) && i < c.N() && !c.UnknownEnd()
    ensures c.Landing(i).to - c.Landing(i).from == Net(c, i) - (if i == 0 then c.Delay() else 0)
  {
    LandedAt(c, i);
    var end, head := LandEnd(c, i), c.at[i].hd;
    assert TrackOf(c.track.midTrims, c.track.delay, end) == Heard(c.track.midTrims, end) - c.track.delay;
    assert TrackOf(c.track.midTrims, c.track.delay, head) == Heard(c.track.midTrims, head) - c.track.delay;
  }

  lemma {:induction false} LandedNet(landed: seq<Span>, net: seq<int>, delay: int, k: nat)
    requires k <= |net| == |landed|
    requires forall j :: 0 <= j < |net| ==> landed[j].to - landed[j].from == net[j] - (if j == 0 then delay else 0)
    ensures LandedTo(landed, k) == SumInts(net, k) - (if k == 0 then 0 else delay)
  {
    if k > 0 {
      LandedNet(landed, net, delay, k - 1);
    }
  }

  /** The declared length is the summed length of the landed spans, and the delivered samples less the three trims. */
  lemma SamplesAreLanded(c: Cut)
    requires c.Laid() && TrimsCovered(c.track) && !c.UnknownEnd()
    ensures c.CutTrack().samples == LandedTo(c.Landings(), c.N())
    ensures c.CutTrack().samples
         == c.Delivered(c.N()) - c.CutTrack().midPadding - c.CutTrack().delay - c.CutTrack().padding
  {
    AllNetOut(c);
    var landed := c.Landings();
    forall j | 0 <= j < c.N()
      ensures landed[j].to - landed[j].from == Net(c, j) - (if j == 0 then c.Delay() else 0)
    {
      LandedOne(c, j);
    }
    LengthsMeet(c, landed);
  }

  lemma LengthsMeet(c: Cut, landed: seq<Span>)
    requires c.g > 0 && 0 < c.N() == |c.spans| && !c.UnknownEnd() && NetsOut(Kepts(c), Nets(c), c.Padding())
    requires |landed| == c.N()
    requires forall j :: 0 <= j < c.N() ==>
        landed[j].to - landed[j].from == Net(c, j) - (if j == 0 then c.Delay() else 0)
    ensures c.Samples() == LandedTo(landed, c.N())
    ensures c.Samples() == c.Delivered(c.N()) - Sum(c.CutTrims(c.N())) - c.Delay() - c.Padding()
  {
    PlannedFrom(c);
    LandedNet(landed, Nets(c), c.Delay(), c.N());
  }

  lemma PlannedFrom(c: Cut)
    requires c.g > 0 && 0 < c.N() == |c.spans| && !c.UnknownEnd() && NetsOut(Kepts(c), Nets(c), c.Padding())
    ensures c.Samples() + c.Delay() == NetTo(c, c.N())
    ensures c.Samples() == c.Delivered(c.N()) - Sum(c.CutTrims(c.N())) - c.Delay() - c.Padding()
  {
    KeptNet(Kepts(c), Nets(c), c.Padding(), c.N());
    DeliveredIsKept(c, c.Parts());
  }

  lemma AllNetOut(c: Cut)
    requires c.Laid() && TrimsCovered(c.track) && !c.UnknownEnd()
    ensures NetsOut(Kepts(c), Nets(c), c.Padding())
  {
    var kept, net := Kepts(c), Nets(c);
    forall j | 0 <= j < c.N()
      ensures kept[j] - (if j == c.N() - 1 then c.Padding() else 0) == net[j]
    {
      WindowNet(c, j);
    }
  }

  lemma DeliveredIsKept(c: Cut, parts: seq<seq<PacketTrim>>)
    requires c.g > 0 && parts == c.Parts()
    ensures c.Delivered(c.N()) - Sum(c.CutTrims(c.N())) == SumInts(Kepts(c), c.N())
  {
    var kept := Kepts(c);
    forall j | 0 <= j < c.N()
      ensures kept[j] == c.at[j].su - c.at[j].sd - Sum(parts[j])
    {
      PartSum(c, j, parts[j]);
    }
    SumConcat(parts, c.N());
    DeliveredKept(c, parts, kept, c.N());
  }

  lemma PartSum(c: Cut, j: nat, part: seq<PacketTrim>)
    requires c.g > 0 && j < c.N() && part == c.PlacedTrims(j)
    ensures Kept(c, j) == c.at[j].su - c.at[j].sd - Sum(part)
  {
    SumShifted(c.WindowTrims(j), c.Base(j) - c.at[j].sd);
  }
}
