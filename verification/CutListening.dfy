/** What a listener hears of a cut: the walked packets under the synthesized track play the source's own samples over
    the landed spans, in order, with nothing added, repeated or lost. */
module CutListening {
  import opened Container
  import opened CutTimeline
  import opened CutPlan
  import opened CutWalk
  import opened Listening
  import opened GridSource
  import opened CutLayout
  import opened CutContent
  import opened CutLength

  // ----- Stretches of the track, one after another -----

  /** The track samples of [from[i], end[i]), from the i-th stretch on. */
  ghost function Stretches(t: Track, from: seq<int>, end: seq<int>, i: nat): seq<int>
    requires |from| == |end| && i <= |from|
    decreases |from| - i
  {
    if i == |from| then [] else TrackSamples(t.midTrims, t.delay, from[i], end[i]) + Stretches(t, from, end, i + 1)
  }

  /** The summed lengths, a stretch that runs backwards counting against the others. */
  function Lengths(from: seq<int>, end: seq<int>, i: nat): int
    requires |from| == |end| && i <= |from|
    decreases |from| - i
  {
    if i == |from| then 0 else end[i] - from[i] + Lengths(from, end, i + 1)
  }

  ghost predicate NoneBackward(from: seq<int>, end: seq<int>, i: nat)
    requires |from| == |end|
  {
    forall j :: i <= j < |from| ==> from[j] <= end[j]
  }

  lemma {:induction false} TrackSamplesSplit(trims: seq<PacketTrim>, delay: int, lo: int, mid: int, hi: int)
    requires lo <= mid <= hi
    ensures TrackSamples(trims, delay, lo, hi) ==
        TrackSamples(trims, delay, lo, mid) + TrackSamples(trims, delay, mid, hi)
    decreases hi - mid
  {
    if mid < hi {
      TrackSamplesSplit(trims, delay, lo, mid, hi - 1);
    }
  }

  /** The stretches are as long as they say just when none runs backwards, and longer otherwise. */
  lemma {:induction false} StretchesLength(t: Track, from: seq<int>, end: seq<int>, i: nat)
    requires |from| == |end| && i <= |from|
    ensures |Stretches(t, from, end, i)| >= Lengths(from, end, i)
    ensures |Stretches(t, from, end, i)| == Lengths(from, end, i) <==> NoneBackward(from, end, i)
    decreases |from| - i
  {
    if i < |from| {
      StretchesLength(t, from, end, i + 1);
      TrackSamplesLength(t.midTrims, t.delay, from[i], end[i]);
    }
  }

  /** Ends that agree but for a later last one only add that one's excess. */
  lemma {:induction false} LongerTail(t: Track, from: seq<int>, end: seq<int>, late: seq<int>, i: nat)
    requires |from| == |end| == |late| && i < |from| && from[|from| - 1] <= end[|from| - 1] <= late[|from| - 1]
    requires forall j :: i <= j < |from| - 1 ==> end[j] == late[j]
    ensures Stretches(t, from, late, i)
         == Stretches(t, from, end, i) + TrackSamples(t.midTrims, t.delay, end[|from| - 1], late[|from| - 1])
    decreases |from| - i
  {
    if i == |from| - 1 {
      TrackSamplesSplit(t.midTrims, t.delay, from[i], end[i], late[i]);
      assert Stretches(t, from, late, i + 1) == [] && Stretches(t, from, end, i + 1) == [];
    } else {
      LongerTail(t, from, end, late, i + 1);
    }
  }

  lemma {:induction false} SameStretches(t: Track, early: seq<int>, from: seq<int>, end: seq<int>, i: nat)
    requires |from| == |end| == |early| && i <= |from| && forall j :: i <= j < |from| ==> early[j] == from[j]
    ensures Stretches(t, early, end, i) == Stretches(t, from, end, i)
    ensures Lengths(early, end, i) == Lengths(from, end, i)
    decreases |from| - i
  {
    if i < |from| {
      SameStretches(t, early, from, end, i + 1);
    }
  }

  /** An earlier first head only adds what comes before the head. */
  lemma EarlierHead(t: Track, early: seq<int>, from: seq<int>, end: seq<int>)
    requires |from| == |end| == |early| > 0 && early[0] <= from[0] <= end[0]
    requires forall j :: 1 <= j < |from| ==> early[j] == from[j]
    ensures Stretches(t, early, end, 0)
         == TrackSamples(t.midTrims, t.delay, early[0], from[0]) + Stretches(t, from, end, 0)
  {
    var rest := Stretches(t, from, end, 1);
    SameStretches(t, early, from, end, 1);
    TrackSamplesSplit(t.midTrims, t.delay, early[0], from[0], end[0]);
    Regroup(TrackSamples(t.midTrims, t.delay, early[0], from[0]), TrackSamples(t.midTrims, t.delay, from[0], end[0]),
        rest);
  }

  lemma Regroup(a: seq<int>, b: seq<int>, c: seq<int>)
    ensures (a + b) + c == a + (b + c)
  {
  }

  /** What is decoded: the head's slop, the stretches, and what the last packet runs past them. */
  lemma LeadMiddleTail(t: Track, early: seq<int>, from: seq<int>, end: seq<int>, late: seq<int>)
    returns (a: seq<int>, b: seq<int>, d: seq<int>)
    requires |from| == |end| == |early| == |late| > 0 && NoneBackward(from, end, 0)
    requires early[0] <= from[0] && forall j :: 1 <= j < |from| ==> early[j] == from[j]
    requires end[|from| - 1] <= late[|from| - 1] && forall j :: 0 <= j < |from| - 1 ==> end[j] == late[j]
    ensures b == Stretches(t, from, end, 0) && |a| == from[0] - early[0] && Stretches(t, early, late, 0) == a + (b + d)
  {
    a, b := TrackSamples(t.midTrims, t.delay, early[0], from[0]), Stretches(t, from, end, 0);
    d := TrackSamples(t.midTrims, t.delay, end[|from| - 1], late[|from| - 1]);
    LongerTail(t, from, end, late, 0);
    EarlierHead(t, early, from, late);
    TrackSamplesLength(t.midTrims, t.delay, early[0], from[0]);
  }

  lemma PrefixOfMiddle(a: seq<int>, b: seq<int>, c: seq<int>)
    ensures Drop(a + (b + c), |a|) == b + c && Take(b + c, |b|) == b
  {
  }

  lemma DropLength(s: seq<int>, n: int)
    requires n >= 0
    ensures |Drop(s, n)| == Max(0, |s| - n)
  {
  }

  // ----- A cut on its source -----

  /** The source a cut was planned on: its audio reaches the end the last span asks for. */
  ghost predicate Fits(c: Cut, s: Source)
    requires c.g > 0 && 0 < c.N() == |c.spans| && LayoutOf(c).Sound()
  {
    Matches(LayoutOf(c), s) && (!c.UnknownEnd() ==> c.at[c.N() - 1].dt <= s.total - s.finalPad)
  }

  /** Where span i lands on this source's track: to the end of its audio when the plan could not say. */
  function LandsTo(c: Cut, s: Source, i: nat): int
    requires i < c.N() == |c.spans|
  {
    if i == c.N() - 1 && c.UnknownEnd() then TrackOf(c.track.midTrims, c.track.delay, s.total - s.finalPad)
    else c.Landing(i).to
  }

  ghost function Froms(c: Cut): (r: seq<int>)
    requires c.N() == |c.spans|
    ensures |r| == c.N() && forall i :: 0 <= i < c.N() ==> r[i] == c.Landing(i).from
  {
    seq(c.N(), i requires 0 <= i < c.N() => c.Landing(i).from)
  }

  ghost function Tos(c: Cut, s: Source): (r: seq<int>)
    requires c.N() == |c.spans|
    ensures |r| == c.N() && forall i :: 0 <= i < c.N() ==> r[i] == LandsTo(c, s, i)
  {
    seq(c.N(), i requires 0 <= i < c.N() => LandsTo(c, s, i))
  }

  /** The source's own samples over the landed spans. */
  ghost function Promised(c: Cut, s: Source): seq<int>
    requires c.N() == |c.spans|
  {
    Stretches(c.track, Froms(c), Tos(c, s), 0)
  }

  /** No landed span runs backwards. */
  ghost predicate Forward(c: Cut)
    requires c.N() == |c.spans|
  {
    forall i :: 0 <= i < c.N() ==> (i == c.N() - 1 && c.UnknownEnd()) || c.Landing(i).from <= c.Landing(i).to
  }

  /** The audio of the windows on the track's timeline. */
  ghost function HeadsOn(c: Cut): (r: seq<int>)
    ensures |r| == c.N() && forall i :: 0 <= i < c.N() ==> r[i] == TrackOf(c.track.midTrims, c.track.delay, c.at[i].hd)
  {
    seq(c.N(), i requires 0 <= i < c.N() => TrackOf(c.track.midTrims, c.track.delay, c.at[i].hd))
  }

  ghost function EndsOn(c: Cut, l: Layout, s: Source): (r: seq<int>)
    requires l.N() == |l.tails| == c.N()
    ensures |r| == c.N()
    ensures forall i :: 0 <= i < c.N() ==> r[i] == TrackOf(c.track.midTrims, c.track.delay, BodyEnd(l, s, i))
  {
    seq(c.N(), i requires 0 <= i < c.N() => TrackOf(c.track.midTrims, c.track.delay, BodyEnd(l, s, i)))
  }

  lemma AudioEndIsClear(l: Layout, s: Source)
    requires l.Sound() && Matches(l, s)
    ensures Clear(l.plan.trims, s.total - s.finalPad)
    ensures forall x :: s.total - s.finalPad <= x ==> Clear(l.plan.trims, x)
  {
  }

  /** A window's audio is a stretch of the track. */
  lemma BodyIsTrack(l: Layout, s: Source, i: nat, delay: int)
    requires l.Sound() && Matches(l, s) && i < l.N()
    ensures Body(l, s, i)
         == TrackSamples(l.plan.trims, delay, TrackOf(l.plan.trims, delay, l.heads[i]),
             TrackOf(l.plan.trims, delay, BodyEnd(l, s, i)))
  {
    var trims, head, end := l.plan.trims, l.heads[i], BodyEnd(l, s, i);
    assert l.WindowSound(i);
    GridIsClear(trims, l.g, head);
    AudioEndIsClear(l, s);
    if head <= end {
      UntrimmedIsTrack(trims, l.g, delay, head, end);
    } else {
      BodyInSource(l, s, i);
      HeardMonotone(trims, l.g, end, head);
    }
  }

  lemma {:induction false} BodiesAreStretches(c: Cut, l: Layout, s: Source, i: nat)
    requires l.Sound() && Matches(l, s) && i <= l.N() == c.N() && l.plan.trims == c.track.midTrims
    requires forall j :: 0 <= j < c.N() ==> l.heads[j] == c.at[j].hd
    ensures Bodies(l, s, i) == Stretches(c.track, HeadsOn(c), EndsOn(c, l, s), i)
    decreases l.N() - i
  {
    if i < l.N() {
      BodyIsTrack(l, s, i, c.track.delay);
      BodiesAreStretches(c, l, s, i + 1);
    }
  }

  /** Where the walk starts. */
  lemma StartInStep(l: Layout, s: Source)
    requires l.Sound() && Matches(l, s)
    ensures InStep(l, s, Start, 0)
  {
    assert l.WindowSound(0);
    assert Advance(l.plan.windows, 0, 0) == 0;
  }

  /** An accepted plan never fails its own walk, and what the walk hands on decodes to the windows' audio. */
  lemma WalkPlaysBodies(c: Cut, s: Source, damaged: bool, pkts: seq<Packet>)
    requires c.Laid() && TrimsCovered(c.track) && LayoutOf(c).Sound() && Fits(c, s) &&
        GridPackets(LayoutOf(c), s, pkts, 0)
    ensures Walk(c.ToPlan(), damaged, Start, pkts).1 == Eof
    ensures Decoded(Walk(c.ToPlan(), damaged, Start, pkts).0)
         == Stretches(c.track, HeadsOn(c), EndsOn(c, LayoutOf(c), s), 0)
    ensures Climbs(Decoded(Walk(c.ToPlan(), damaged, Start, pkts).0))
  {
    var l := LayoutOf(c);
    StartInStep(l, s);
    WalkIsEmitted(l, s, damaged, Start, pkts, 0);
    EmittedSounds(l, s, 0, pkts, 0, 0);
    assert l.WindowSound(0);
    SelectClimbs(Plays(l, s, 0), 0, s.total);
    SoundsAreBodies(l, s, 0, 0);
    BodiesAreStretches(c, l, s, 0);
  }

  /** The first landed sample is the first the walk decodes, past the delay. */
  lemma HeadsMeet(c: Cut)
    requires c.Laid() && TrimsCovered(c.track)
    ensures c.Delay() >= 0 && Froms(c)[0] == HeadsOn(c)[0] + c.Delay()
    ensures forall j :: 1 <= j < c.N() ==> Froms(c)[j] == HeadsOn(c)[j]
  {
    assert c.HeadLaid(0);
    GridIsClear(c.track.midTrims, c.g, c.at[0].hd);
    HeardMonotone(c.track.midTrims, c.g, c.at[0].hd, c.at[0].df);
    forall j | 0 <= j < c.N()
      ensures Froms(c)[j] == HeadsOn(c)[j] + if j == 0 then c.Delay() else 0
    {
      LandedAt(c, j);
    }
  }

  lemma InnerTailMeets(c: Cut, l: Layout, s: Source, j: nat)
    requires c.Laid() && TrimsCovered(c.track) && l == LayoutOf(c) && l.Sound() && Fits(c, s) && j < c.N() - 1
    ensures c.Landing(j).to == TrackOf(c.track.midTrims, c.track.delay, BodyEnd(l, s, j))
    ensures TrackOf(c.track.midTrims, c.track.delay, c.at[j].hd) <= c.Landing(j).to
  {
    WindowShape(c, j);
    TailBounds(c, j);
    LandedAt(c, j);
    BodyInSource(l, s, j);
    assert l.plan.windows[j] == c.WindowOf(j);
    GridIsClear(c.track.midTrims, c.g, c.at[j].hd);
    HeardMonotone(c.track.midTrims, c.g, c.at[j].hd, LandEnd(c, j));
  }

  lemma UnknownTailMeets(c: Cut, l: Layout, s: Source)
    requires c.Laid() && l == LayoutOf(c) && l.Sound() && Fits(c, s) && c.UnknownEnd()
    ensures BodyEnd(l, s, c.N() - 1) == s.total - s.finalPad
  {
    assert c.TailLaid(c.N() - 1) && l.plan.windows[c.N() - 1] == c.WindowOf(c.N() - 1);
  }

  lemma LastTailMeets(c: Cut, l: Layout, s: Source)
    requires c.Laid() && TrimsCovered(c.track) && l == LayoutOf(c) && l.Sound() && Fits(c, s) && !c.UnknownEnd()
    ensures LandsTo(c, s, c.N() - 1) <= TrackOf(c.track.midTrims, c.track.delay, BodyEnd(l, s, c.N() - 1))
  {
    var bodyEnd := BodyEnd(l, s, c.N() - 1);
    LastTailClear(c);
    LastTailPlayed(c, l, s, bodyEnd);
    LastLanding(c, s, bodyEnd);
  }

  lemma LastLanding(c: Cut, s: Source, bodyEnd: int)
    requires c.Laid() && TrimsCovered(c.track) && !c.UnknownEnd() && Clear(c.track.midTrims, c.at[c.N() - 1].dt)
    requires c.at[c.N() - 1].dt <= bodyEnd
    ensures LandsTo(c, s, c.N() - 1) <= TrackOf(c.track.midTrims, c.track.delay, bodyEnd)
  {
    LandedAt(c, c.N() - 1);
    HeardMonotone(c.track.midTrims, c.g, c.at[c.N() - 1].dt, bodyEnd);
  }

  lemma LastTailClear(c: Cut)
    requires c.Laid() && TrimsCovered(c.track) && !c.UnknownEnd()
    ensures Clear(c.track.midTrims, c.at[c.N() - 1].dt)
  {
    assert c.TailLaid(c.N() - 1);
    if c.LastToEnd() {
      LateIsClear(c.track.midTrims, c.at[c.N() - 1].dt);
    }
  }

  lemma LastTailPlayed(c: Cut, l: Layout, s: Source, bodyEnd: int)
    requires c.Laid() && TrimsCovered(c.track) && l == LayoutOf(c) && l.Sound() && Fits(c, s) && !c.UnknownEnd()
    requires bodyEnd == BodyEnd(l, s, c.N() - 1)
    ensures c.at[c.N() - 1].dt <= bodyEnd
  {
    var i := c.N() - 1;
    TailBounds(c, i);
    assert c.TailLaid(i) && l.plan.windows[i] == c.WindowOf(i);
  }

  lemma LateIsClear(trims: seq<PacketTrim>, x: int)
    requires forall i :: 0 <= i < |trims| ==> trims[i].End() <= x
    ensures Clear(trims, x)
  {
  }

  lemma TailsMeet(c: Cut, s: Source, end: seq<int>, late: seq<int>)
    requires c.Laid() && TrimsCovered(c.track) && LayoutOf(c).Sound() && Fits(c, s)
    requires end == Tos(c, s) && late == EndsOn(c, LayoutOf(c), s)
    ensures forall j :: 0 <= j < c.N() - 1 ==> end[j] == late[j] && HeadsOn(c)[j] <= end[j]
    ensures end[c.N() - 1] <= late[c.N() - 1] && (c.UnknownEnd() ==> end[c.N() - 1] == late[c.N() - 1])
  {
    forall j | 0 <= j < c.N() - 1
      ensures end[j] == late[j] && HeadsOn(c)[j] <= end[j]
    {
      InnerTailMeets(c, LayoutOf(c), s, j);
    }
    if c.UnknownEnd() {
      UnknownTailMeets(c, LayoutOf(c), s);
    } else {
      LastTailMeets(c, LayoutOf(c), s);
    }
  }

  lemma {:induction false} LandedIsLengths(landed: seq<Span>, from: seq<int>, end: seq<int>, k: nat)
    requires |from| == |end| == |landed| && k <= |landed|
    requires forall j :: 0 <= j < |landed| ==> landed[j] == Span(from[j], end[j])
    ensures LandedTo(landed, k) + Lengths(from, end, k) == LandedTo(landed, |landed|)
    decreases |landed| - k
  {
    if k < |landed| {
      LandedIsLengths(landed, from, end, k + 1);
    }
  }

  lemma LandedLengths(c: Cut, s: Source)
    requires 0 < c.N() == |c.spans| && !c.UnknownEnd()
    ensures LandedTo(c.Landings(), c.N()) == Lengths(Froms(c), Tos(c, s), 0)
    ensures Forward(c) <==> NoneBackward(Froms(c), Tos(c, s), 0)
  {
    var from, end := Froms(c), Tos(c, s);
    forall j | 0 <= j < c.N()
      ensures end[j] == c.Landing(j).to && from[j] == c.Landing(j).from
    {
      assert LandsTo(c, s, j) == c.Landing(j).to;
    }
    LandedIsLengths(c.Landings(), from, end, 0);
  }

  /** When the end is open and the length unknown, dropping the delay is all there is. */
  lemma DropHead(t: Track, early: seq<int>, from: seq<int>, end: seq<int>)
    requires |from| == |end| == |early| > 0 && early[0] <= from[0] && (|from| == 1 || early[0] <= end[0])
    requires forall j :: 1 <= j < |from| ==> early[j] == from[j]
    ensures from[0] <= end[0] || |from| == 1 ==>
      Drop(Stretches(t, early, end, 0), from[0] - early[0]) == Stretches(t, from, end, 0)
    ensures from[0] > end[0] && |from| > 1 && Stretches(t, from, end, 0) != [] ==>
      Drop(Stretches(t, early, end, 0), from[0] - early[0]) != Stretches(t, from, end, 0)
  {
    SameStretches(t, early, from, end, 1);
    TrackSamplesLength(t.midTrims, t.delay, early[0], end[0]);
    if from[0] <= end[0] {
      EarlierHead(t, early, from, end);
      TrackSamplesLength(t.midTrims, t.delay, early[0], from[0]);
      PrefixOfMiddle(TrackSamples(t.midTrims, t.delay, early[0], from[0]), Stretches(t, from, end, 0), []);
      assert Stretches(t, from, end, 0) + [] == Stretches(t, from, end, 0);
    } else {
      DropLength(Stretches(t, early, end, 0), from[0] - early[0]);
      if |from| == 1 {
        assert Stretches(t, from, end, 1) == [];
      }
    }
  }

  lemma TooShort(t: Track, from: seq<int>, end: seq<int>, heard: seq<int>)
    requires |from| == |end| && |heard| <= Lengths(from, end, 0) && !NoneBackward(from, end, 0)
    ensures heard != Stretches(t, from, end, 0)
  {
    StretchesLength(t, from, end, 0);
  }

  /** Where the content law holds: exactly when no landed span runs backwards. */
  lemma HeardIsPromised(c: Cut, s: Source, pkts: seq<Packet>)
    requires c.Laid() && TrimsCovered(c.track) && LayoutOf(c).Sound() && Fits(c, s)
    requires Decoded(pkts) == Stretches(c.track, HeadsOn(c), EndsOn(c, LayoutOf(c), s), 0)
    ensures Forward(c) ==> Listened(c.CutTrack(), pkts) == Promised(c, s)
    ensures !Forward(c) && (if c.UnknownEnd() then Promised(c, s) != [] else c.Samples() >= 0) ==>
      Listened(c.CutTrack(), pkts) != Promised(c, s)
  {
    var late := EndsOn(c, LayoutOf(c), s);
    CutMeets(c, s, late);
    CutListens(c, pkts, c.Delay(), c.Samples());
    HeardWhereMet(c, s, late, Decoded(pkts), c.Delay(), c.Samples(), Listened(c.CutTrack(), pkts));
  }

  /** The walked packets run from the heads to ends at or past the landed ones, the first head early by the delay. */
  ghost predicate Meets(c: Cut, s: Source, late: seq<int>)
    requires c.N() == |c.spans|
  {
    && 0 < c.N() == |late| && c.g > 0 && c.Delay() >= 0 && Froms(c)[0] == HeadsOn(c)[0] + c.Delay()
    && (forall j :: 1 <= j < c.N() ==> Froms(c)[j] == HeadsOn(c)[j])
    && (forall j :: 0 <= j < c.N() - 1 ==> Tos(c, s)[j] == late[j] && HeadsOn(c)[j] <= Tos(c, s)[j])
    && Tos(c, s)[c.N() - 1] <= late[c.N() - 1]
    && (if c.UnknownEnd() then Tos(c, s)[c.N() - 1] == late[c.N() - 1]
        else c.Samples() == LandedTo(c.Landings(), c.N()))
  }

  lemma CutMeets(c: Cut, s: Source, late: seq<int>)
    requires c.Laid() && TrimsCovered(c.track) && LayoutOf(c).Sound() && Fits(c, s) && late == EndsOn(c, LayoutOf(c), s)
    ensures Meets(c, s, late)
  {
    HeadsMeet(c);
    TailsMeet(c, s, Tos(c, s), late);
    if !c.UnknownEnd() {
      SamplesAreLanded(c);
    }
  }

  // ----- A length that comes out negative -----

  /** Later last ends only add to the back. */
  lemma {:induction false} LaterEnd(t: Track, from: seq<int>, end: seq<int>, late: seq<int>, i: nat)
    requires |from| == |end| == |late| && i <= |from| && (|from| > 0 ==> end[|from| - 1] <= late[|from| - 1])
    requires forall j :: i <= j < |from| - 1 ==> end[j] == late[j]
    ensures Stretches(t, from, end, i) <= Stretches(t, from, late, i)
    decreases |from| - i
  {
    if i < |from| {
      LaterEnd(t, from, end, late, i + 1);
      var a, b := end[i], late[i];
      assert a <= b && (i < |from| - 1 ==> a == b);
      if i == |from| - 1 {
        assert Stretches(t, from, end, i + 1) == [] && Stretches(t, from, late, i + 1) == [];
        if from[i] <= a {
          TrackSamplesSplit(t.midTrims, t.delay, from[i], a, b);
        } else {
          TrackSamplesLength(t.midTrims, t.delay, from[i], a);
        }
      }
    }
  }

  /** A reader that takes a negative length for an unknown one hears all that is decoded past the delay: when the first
      span does not run backwards, the promise and what the last packets play after it. When it does, the delay has
      eaten into the spans after it, and nothing that is promised is heard. */
  lemma HeardUnmeasured(t: Track, early: seq<int>, from: seq<int>, end: seq<int>, late: seq<int>, decoded: seq<int>,
      delay: int)
    requires |from| == |end| == |early| == |late| > 0 && decoded == Stretches(t, early, late, 0) && Climbs(decoded)
    requires 0 <= delay == from[0] - early[0] && early[0] <= late[0]
    requires forall j :: 1 <= j < |from| ==> early[j] == from[j]
    requires end[|from| - 1] <= late[|from| - 1] && forall j :: 0 <= j < |from| - 1 ==> end[j] == late[j]
    ensures from[0] <= end[0] ==> Stretches(t, from, end, 0) <= Drop(decoded, delay)
    ensures from[0] > end[0] && Stretches(t, from, end, 0) != [] ==>
      Drop(decoded, delay) != Stretches(t, from, end, 0)
  {
    LaterEnd(t, from, end, late, 0);
    if from[0] <= end[0] {
      EarlierHead(t, early, from, late);
      TrackSamplesLength(t.midTrims, t.delay, early[0], from[0]);
      PrefixOfMiddle(TrackSamples(t.midTrims, t.delay, early[0], from[0]), Stretches(t, from, late, 0), []);
      assert Stretches(t, from, late, 0) + [] == Stretches(t, from, late, 0);
    } else if |from| > 1 {
      SameStretches(t, early, from, late, 1);
      LaterEnd(t, from, end, late, 1);
      TrackSamplesLength(t.midTrims, t.delay, early[0], late[0]);
      TrackSamplesLength(t.midTrims, t.delay, from[0], end[0]);
      HeardLater(TrackSamples(t.midTrims, t.delay, early[0], late[0]), Stretches(t, from, late, 1),
                 Stretches(t, from, end, 1), delay);
    } else {
      TrackSamplesLength(t.midTrims, t.delay, from[0], end[0]);
      assert Stretches(t, from, end, 1) == [];
    }
  }

  /** Past more than the first part, what is heard starts later than the second part does. */
  lemma HeardLater(first: seq<int>, rest: seq<int>, promised: seq<int>, delay: int)
    requires Climbs(first + rest) && promised <= rest && delay > |first|
    ensures promised != [] ==> Drop(first + rest, delay) != promised
  {
    var all := first + rest;
    if promised != [] && delay < |all| {
      assert all[|first|] == promised[0] && Drop(all, delay)[0] == all[delay];
    }
  }

  /** And so of a cut whose length comes out negative. */
  lemma HeardWhenNegative(c: Cut, s: Source, pkts: seq<Packet>)
    requires c.Laid() && TrimsCovered(c.track) && LayoutOf(c).Sound() && Fits(c, s) && Climbs(Decoded(pkts))
    requires Decoded(pkts) == Stretches(c.track, HeadsOn(c), EndsOn(c, LayoutOf(c), s), 0) && c.Samples() < 0
    ensures Froms(c)[0] <= Tos(c, s)[0] ==> Promised(c, s) <= Listened(c.CutTrack(), pkts)
    ensures Froms(c)[0] > Tos(c, s)[0] && Promised(c, s) != [] ==> Listened(c.CutTrack(), pkts) != Promised(c, s)
  {
    var late := EndsOn(c, LayoutOf(c), s);
    CutMeets(c, s, late);
    CutListens(c, pkts, c.Delay(), c.Samples());
    NegativeWhereMet(c, s, late, Decoded(pkts), c.Delay(), Listened(c.CutTrack(), pkts));
  }

  lemma NegativeWhereMet(c: Cut, s: Source, late: seq<int>, decoded: seq<int>, d: int, heard: seq<int>)
    requires c.N() == |c.spans| && Meets(c, s, late) && decoded == Stretches(c.track, HeadsOn(c), late, 0)
    requires d == c.Delay() && heard == Drop(decoded, d) && Climbs(decoded)
    ensures Froms(c)[0] <= Tos(c, s)[0] ==> Promised(c, s) <= heard
    ensures Froms(c)[0] > Tos(c, s)[0] && Promised(c, s) != [] ==> heard != Promised(c, s)
  {
    var early, from, end := HeadsOn(c), Froms(c), Tos(c, s);
    if c.N() > 1 || from[0] <= end[0] {
      HeardUnmeasured(c.track, early, from, end, late, decoded, d);
    } else {
      TrackSamplesLength(c.track.midTrims, c.track.delay, from[0], end[0]);
      assert Stretches(c.track, from, end, 1) == [];
    }
  }

  lemma HeardWhereMet(c: Cut, s: Source, late: seq<int>, decoded: seq<int>, d: int, n: int, heard: seq<int>)
    requires c.N() == |c.spans| && Meets(c, s, late) && decoded == Stretches(c.track, HeadsOn(c), late, 0)
    requires d == c.Delay() && n == c.Samples()
    requires heard == if n < 0 then Drop(decoded, d) else Take(Drop(decoded, d), n)
    ensures Forward(c) ==> heard == Promised(c, s)
    ensures !Forward(c) && (if c.UnknownEnd() then Promised(c, s) != [] else n >= 0) ==> heard != Promised(c, s)
  {
    var early, from, end := HeadsOn(c), Froms(c), Tos(c, s);
    if c.UnknownEnd() {
      HeardOpen(c, s, late, decoded, d, heard);
    } else {
      LandedLengths(c, s);
      HeardOrShort(c.track, early, from, end, late, decoded, d, n);
    }
  }

  lemma HeardOpen(c: Cut, s: Source, late: seq<int>, decoded: seq<int>, d: int, heard: seq<int>)
    requires c.N() == |c.spans| && Meets(c, s, late) && decoded == Stretches(c.track, HeadsOn(c), late, 0)
    requires c.UnknownEnd() && d == c.Delay() && heard == Drop(decoded, d)
    ensures Forward(c) ==> heard == Promised(c, s)
    ensures !Forward(c) && Promised(c, s) != [] ==> heard != Promised(c, s)
  {
    OpenEnds(c, s, late);
    DropHead(c.track, HeadsOn(c), Froms(c), late);
    ForwardOpen(c, s);
  }

  lemma OpenEnds(c: Cut, s: Source, late: seq<int>)
    requires c.N() == |c.spans| && Meets(c, s, late) && c.UnknownEnd()
    ensures late == Tos(c, s)
  {
  }

  lemma CutListens(c: Cut, pkts: seq<Packet>, delay: int, n: int)
    requires 0 < c.N() == |c.spans| && c.g > 0 && delay == c.Delay() && n == c.Samples()
    ensures Listened(c.CutTrack(), pkts) == if n < 0 then Drop(Decoded(pkts), delay)
        else Take(Drop(Decoded(pkts), delay), n)
  {
  }

  lemma ForwardOpen(c: Cut, s: Source)
    requires 0 < c.N() == |c.spans| && c.UnknownEnd()
    requires forall j :: 1 <= j < c.N() - 1 ==> Froms(c)[j] <= Tos(c, s)[j]
    ensures Forward(c) <==> c.N() == 1 || Froms(c)[0] <= Tos(c, s)[0]
  {
    forall j | 0 <= j < c.N() - 1
      ensures Tos(c, s)[j] == c.Landing(j).to && Froms(c)[j] == c.Landing(j).from
    {
      assert LandsTo(c, s, j) == c.Landing(j).to;
    }
  }

  lemma HeardOrShort(t: Track, early: seq<int>, from: seq<int>, end: seq<int>, late: seq<int>, decoded: seq<int>,
      delay: int, n: int)
    requires |from| == |end| == |early| == |late| > 0 && decoded == Stretches(t, early, late, 0)
    requires 0 <= delay == from[0] - early[0] && n == Lengths(from, end, 0)
    requires forall j :: 1 <= j < |from| ==> early[j] == from[j]
    requires end[|from| - 1] <= late[|from| - 1] && forall j :: 0 <= j < |from| - 1 ==> end[j] == late[j]
    ensures NoneBackward(from, end, 0) ==> n >= 0 && Take(Drop(decoded, delay), n) == Stretches(t, from, end, 0)
    ensures !NoneBackward(from, end, 0) && n >= 0 ==> Take(Drop(decoded, delay), n) != Stretches(t, from, end, 0)
  {
    if NoneBackward(from, end, 0) {
      HeardWhole(t, early, from, end, late, decoded, delay, n);
    } else if n >= 0 {
      TooShort(t, from, end, Take(Drop(decoded, delay), n));
    }
  }

  /** Dropping the head's slop and taking the stated length leaves the stretches themselves, when none runs
      backwards. */
  lemma HeardWhole(t: Track, early: seq<int>, from: seq<int>, end: seq<int>, late: seq<int>, decoded: seq<int>,
      delay: int, n: int)
    requires |from| == |end| == |early| == |late| > 0 && NoneBackward(from, end, 0) &&
        decoded == Stretches(t, early, late, 0)
    requires 0 <= delay == from[0] - early[0] && n == Lengths(from, end, 0)
    requires forall j :: 1 <= j < |from| ==> early[j] == from[j]
    requires end[|from| - 1] <= late[|from| - 1] && forall j :: 0 <= j < |from| - 1 ==> end[j] == late[j]
    ensures n >= 0 && Take(Drop(decoded, delay), n) == Stretches(t, from, end, 0)
  {
    StretchesLength(t, from, end, 0);
    var a, b, d := LeadMiddleTail(t, early, from, end, late);
    assert delay == |a| && n == |b|;
    PrefixOfMiddle(a, b, d);
  }
}
