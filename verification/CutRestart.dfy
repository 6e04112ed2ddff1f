/** A segmented cut from its request to its segments (cutseg.go, remux.go): a worker that starts at any segment writes
    what a continuous run writes from there. */
module CutRestart {
  import opened Container
  import opened CutTimeline
  import opened CutPlan
  import opened CutCompute
  import opened CutWalk
  import opened GridSource
  import opened CutLayout
  import opened CutListening
  import opened CutLaws
  import opened Remux
  import opened CutSeek
  import opened SegmentWalk

  /** wholePacketTrim: some trim empties a packet. */
  method WholePacketTrim(trims: seq<PacketTrim>, grid: int) returns (whole: bool)
    ensures whole <==> !PartialTrims(trims, grid)
  {
    for i := 0 to |trims|
      invariant forall j :: 0 <= j < i ==> trims[j].samples < grid
    {
      if trims[i].samples >= grid {
        return true;
      }
    }
    whole := false;
  }

  /** A plan whose view can be seeked: no kept packet states a trim, and no source trim empties one. */
  ghost predicate SeekableAnswer(answer: Answer, grid: int) {
    answer.Planned? && answer.plan.track.midPadding <= 0 && PartialTrims(answer.plan.trims, grid)
  }

  /** cutSeekable: a fresh seekable view of the cut, for exactly the requests whose cut can be seeked. */
  method CutSeekable(track: Track, spliceTrims: bool, spans: seq<Span>, grid: int, pkts: seq<Packet>, damaged: bool,
                     seek: int -> CutSeek.Landing) returns (answer: Answer, demux: CutSeekDemuxer?)
    requires track.padding >= 0 && track.midPadding >= 0 && TrimsCovered(track)
    requires forall x :: seek(x).Landed? ==> seek(x).next <= |pkts|
    ensures answer == AnswerTo(track, spliceTrims, spans, grid)
    ensures demux != null <==> SeekableAnswer(answer, grid)
    ensures demux != null ==> fresh(demux) && fresh(demux.view) && demux.Valid() && demux.seek == seek
    ensures demux != null ==> demux.view.plan == answer.plan && demux.view.src == pkts && demux.view.damaged == damaged
    ensures demux != null ==> demux.view.next == 0 && demux.view.At() == Start
  {
    answer := ComputeCut(track, spliceTrims, spans, grid);
    if answer.Planned? {
      PlanOrdered(track, spliceTrims, spans, grid);
    }
    demux := ViewOf(answer, grid, pkts, damaged, seek);
  }

  method ViewOf(answer: Answer, grid: int, pkts: seq<Packet>, damaged: bool, seek: int -> CutSeek.Landing)
      returns (demux: CutSeekDemuxer?)
    requires answer.Planned? ==> Ordered(answer.plan.trims) && Ordered(answer.plan.track.midTrims)
    requires forall x :: seek(x).Landed? ==> seek(x).next <= |pkts|
    ensures demux != null <==> SeekableAnswer(answer, grid)
    ensures demux != null ==> fresh(demux) && fresh(demux.view) && demux.Valid() && demux.seek == seek
    ensures demux != null ==> demux.view.plan == answer.plan && demux.view.src == pkts && demux.view.damaged == damaged
    ensures demux != null ==> demux.view.next == 0 && demux.view.At() == Start
  {
    demux := null;
    if answer.Planned? {
      var guarded := Guarded(answer.plan, grid);
      if guarded {
        demux := NewView(answer.plan, pkts, damaged, seek);
      }
    }
  }

  method Guarded(plan: Plan, grid: int) returns (ok: bool)
    ensures ok <==> plan.track.midPadding <= 0 && PartialTrims(plan.trims, grid)
  {
    if plan.track.midPadding > 0 {
      return false;
    }
    var whole := WholePacketTrim(plan.trims, grid);
    ok := !whole;
  }

  method NewView(plan: Plan, pkts: seq<Packet>, damaged: bool, seek: int -> CutSeek.Landing)
      returns (demux: CutSeekDemuxer)
    requires Ordered(plan.trims) && Ordered(plan.track.midTrims) && forall x :: seek(x).Landed? ==>
        seek(x).next <= |pkts|
    ensures fresh(demux) && fresh(demux.view) && demux.Valid() && demux.seek == seek && demux.view.plan == plan
    ensures demux.view.src == pkts && demux.view.damaged == damaged && demux.view.next == 0 && demux.view.At() == Start
  {
    var view := new CutDemuxer(plan, pkts, damaged);
    demux := new CutSeekDemuxer(view, seek);
  }

  lemma PlanOrdered(track: Track, spliceTrims: bool, spans: seq<Span>, grid: int)
    requires Accepted(track, spliceTrims, spans, grid)
    ensures var plan := AnswerTo(track, spliceTrims, spans, grid).plan;
      && Ordered(plan.trims) && Ordered(plan.track.midTrims) && Sum(plan.track.midTrims) == plan.track.midPadding
  {
    AcceptedIsLaid(track, spliceTrims, spans, grid);
    var c := CutOf(track, spliceTrims, spans, grid);
    CutTrimsArePlaced(c);
    assert c.ToPlan().track == c.CutTrack();
  }

  /** Trims that remove nothing are none. */
  lemma {:induction false} NoTrims(trims: seq<PacketTrim>, k: nat)
    requires Ordered(trims) && k <= |trims|
    ensures SumTo(trims, k) >= k
    decreases k
  {
    if k > 0 {
      NoTrims(trims, k - 1);
    }
  }

  /** The inner demuxer's seek: every target at or past the first packet lands on a packet of the track at or before
      it. */
  ghost predicate SeeksBack(seek: int -> CutSeek.Landing, trims: seq<PacketTrim>, track: int, pkts: seq<Packet>) {
    forall x :: 0 <= x ==> LandsBy(trims, track, pkts, seek(x), x)
  }

  lemma AskedIsPositive(l: Layout, p0: nat)
    requires l.Sound() && OnGrid(p0, l.g) && WindowFor(l.plan.windows, 0, 0, p0).0 < l.N()
    ensures Asked(l.plan, p0) >= 0
  {
    var i := WindowFor(l.plan.windows, 0, 0, p0).0;
    WindowForAhead(l, 0, p0);
    TargetOnGrid(l, i, p0);
    var raw := l.From(i) + (p0 - l.Ahead(i));
    DeliveredFromZero(l.plan.trims, l.g, raw);
    AskedIs(l.plan, p0, i, l.Ahead(i), raw);
  }

  lemma AskedIs(plan: Plan, p0: nat, i: nat, outStart: int, raw: int)
    requires WindowFor(plan.windows, 0, 0, p0) == (i, outStart) && i < |plan.windows|
    requires raw == plan.windows[i].from + (p0 - outStart)
    ensures Asked(plan, p0) == TrackOf(plan.trims, 0, raw)
  {
  }

  lemma DeliveredFromZero(trims: seq<PacketTrim>, g: int, raw: int)
    requires Placed(trims, g) && raw >= 0
    ensures TrackOf(trims, 0, raw) >= 0
  {
    GridIsClear(trims, g, 0);
    BeforeIs(trims, g, 0, 0);
    HeardMonotone(trims, g, 0, raw);
  }

  /** What SegmentCut answers of a fresh view, said of the walk. */
  ghost function Run(plan: Plan, damaged: bool, pkts: seq<Packet>, next: nat, v: View, p0: int): Segmented
    requires v.cur <= |plan.windows| && next <= |pkts|
  {
    var (kept, end) := Walk(plan, damaged, v, pkts[next..]);
    SegmentsOf(CopyFrom(Rules(plan.track.id, false, false), Fresh, kept, end), v.out, p0)
  }

  /** Where a run that starts at p0 stands: where the seek lands, or at the top when p0 is past every window. */
  function LandingFor(plan: Plan, seek: int -> CutSeek.Landing, p0: nat): CutSeek.Landing {
    if WindowFor(plan.windows, 0, 0, p0).0 < |plan.windows| then seek(Asked(plan, p0)) else Landed(0, 0)
  }

  /** The seek lands, by p0. */
  ghost predicate Lands(plan: Plan, pkts: seq<Packet>, seek: int -> CutSeek.Landing, p0: nat) {
    var landing := LandingFor(plan, seek, p0);
    && landing.Landed? && 0 <= landing.next <= |pkts|
    && var v := Repositioned(plan, Start, p0, landing.at); v.cur <= |plan.windows| && v.out <= p0
  }

  /** The run a fresh view of the plan makes when it starts at p0: from the top, or from where the seek lands. */
  ghost predicate StartsAt(r: Segmented, plan: Plan, damaged: bool, pkts: seq<Packet>, seek: int -> CutSeek.Landing,
      p0: nat) {
    if p0 == 0 then r == Run(plan, damaged, pkts, 0, Start, 0)
    else
      && Lands(plan, pkts, seek, p0)
      && var landing := LandingFor(plan, seek, p0);
         r == Run(plan, damaged, pkts, landing.next, Repositioned(plan, Start, p0, landing.at), p0)
  }

  /** A run that starts at p0 writes what the run from the top writes from there on. */
  ghost predicate Restarts(plan: Plan, damaged: bool, pkts: seq<Packet>, seek: int -> CutSeek.Landing, p0: nat) {
    && Lands(plan, pkts, seek, p0)
    && var landing := LandingFor(plan, seek, p0);
       RunsOn(Run(plan, damaged, pkts, 0, Start, 0),
              Run(plan, damaged, pkts, landing.next, Repositioned(plan, Start, p0, landing.at), p0), p0)
  }

  ghost predicate RunsOn(top: Segmented, run: Segmented, p0: int) {
    top.Segmented? && run.Segmented? && run.out == SkipTo(0, p0, top.out)
  }

  /** On a source on the grid it does, wherever the inner demuxer's seek lands. */
  lemma RunsAgree(c: Cut, s: Source, damaged: bool, pkts: seq<Packet>, seek: int -> CutSeek.Landing, p0: nat)
    requires c.Laid() && TrimsCovered(c.track) && LayoutOf(c).Sound() && Fits(c, s) &&
        GridPackets(LayoutOf(c), s, pkts, 0)
    requires c.CutTrack().midPadding <= 0 && PartialTrims(c.track.midTrims, c.g) && OnGrid(p0, c.g)
    requires SeeksBack(seek, c.track.midTrims, c.track.id, pkts)
    ensures Restarts(c.ToPlan(), damaged, pkts, seek, p0)
  {
    NoneKept(c);
    LayoutRunsAgree(LayoutOf(c), s, damaged, pkts, seek, p0);
  }

  lemma LayoutRunsAgree(l: Layout, s: Source, damaged: bool, pkts: seq<Packet>, seek: int -> CutSeek.Landing, p0: nat)
    requires l.Sound() && Matches(l, s) && GridPackets(l, s, pkts, 0)
    requires l.plan.track.midTrims == [] && PartialTrims(l.plan.trims, l.g) && OnGrid(p0, l.g)
    requires SeeksBack(seek, l.plan.trims, l.plan.track.id, pkts)
    ensures Restarts(l.plan, damaged, pkts, seek, p0)
  {
    var landing := LandingFor(l.plan, seek, p0);
    SeekResumes(l, pkts, seek, p0, landing);
    RestartedSegments(l, s, damaged, Start, pkts, p0, landing);
    RunIs(l.plan, damaged, pkts, 0, Start, 0);
    var v := Repositioned(l.plan, Start, p0, landing.at);
    assert Lands(l.plan, pkts, seek, p0);
    RunIs(l.plan, damaged, pkts, landing.next, v, p0);
  }

  lemma RunIs(plan: Plan, damaged: bool, pkts: seq<Packet>, next: nat, v: View, p0: int)
    requires v.cur <= |plan.windows| && next <= |pkts|
    ensures next == 0 ==> pkts[next..] == pkts
    ensures var (kept, end) := Walk(plan, damaged, v, pkts[next..]);
      Run(plan, damaged, pkts, next, v, p0)
        == SegmentsOf(CopyFrom(Rules(plan.track.id, false, false), Fresh, kept, end), v.out, p0)
  {
  }

  lemma SeekResumes(l: Layout, pkts: seq<Packet>, seek: int -> CutSeek.Landing, p0: nat, landing: CutSeek.Landing)
    requires l.Sound() && OnGrid(p0, l.g) && SeeksBack(seek, l.plan.trims, l.plan.track.id, pkts)
    requires landing == LandingFor(l.plan, seek, p0)
    ensures Resumes(l, pkts, landing, p0) && landing.Landed? && 0 <= landing.next <= |pkts|
    ensures Resumed(l, landing, p0) == (landing.next, landing.at)
  {
    if WindowFor(l.plan.windows, 0, 0, p0).0 < l.N() {
      AskedIsPositive(l, p0);
    }
  }

  lemma NoneKept(c: Cut)
    requires c.Laid() && TrimsCovered(c.track) && c.CutTrack().midPadding <= 0
    ensures LayoutOf(c).plan.track.midTrims == []
  {
    CutTrimsArePlaced(c);
    NoTrims(c.CutTrack().midTrims, |c.CutTrack().midTrims|);
  }

  /** CutSegments, twice: over one source on the grid, a worker that starts at any segment of a request whose cut can be
      seeked writes exactly the packets, times and trims that the run from the top writes from that segment's start
      on. */
  method WorkerWritesSuffix(track: Track, spliceTrims: bool, spans: seq<Span>, grid: int, ghost s: Source,
      pkts: seq<Packet>, damaged: bool, seek: int -> CutSeek.Landing, startSegment: nat, segmentSamples: nat)
    returns (answer: Answer, top: Segmented, run: Segmented)
    requires Accepted(track, spliceTrims, spans, grid) && grid > 0 && |spans| > 0 &&
        OnGrid(startSegment * segmentSamples, grid)
    requires var c := CutOf(track, spliceTrims, spans, grid);
      |c.spans| == c.N() && Holds(c, s) && GridPackets(LayoutOf(c), s, pkts, 0)
    requires SeeksBack(seek, track.midTrims, track.id, pkts) && forall x :: seek(x).Landed? ==> seek(x).next <= |pkts|
    ensures answer == AnswerTo(track, spliceTrims, spans, grid)
    ensures SeekableAnswer(answer, grid) ==>
      && StartsAt(top, answer.plan, damaged, pkts, seek, 0)
      && StartsAt(run, answer.plan, damaged, pkts, seek, startSegment * segmentSamples)
      && RunsOn(top, run, startSegment * segmentSamples)
  {
    var first, worker;
    answer, first := CutSeekable(track, spliceTrims, spans, grid, pkts, damaged, seek);
    answer, worker := CutSeekable(track, spliceTrims, spans, grid, pkts, damaged, seek);
    if first == null || worker == null {
      return answer, NoStart(BadSeek), NoStart(BadSeek);
    }
    ghost var c := Planned(track, spliceTrims, spans, grid, s, answer);
    top, run := RunBoth(c, s, first, worker, startSegment, segmentSamples, startSegment * segmentSamples);
  }

  lemma Planned(track: Track, spliceTrims: bool, spans: seq<Span>, grid: int, s: Source, answer: Answer)
      returns (c: Cut)
    requires Accepted(track, spliceTrims, spans, grid) && grid > 0 && |spans| > 0 &&
        answer == AnswerTo(track, spliceTrims, spans, grid)
    requires var c := CutOf(track, spliceTrims, spans, grid); |c.spans| == c.N() && Holds(c, s)
    ensures c == CutOf(track, spliceTrims, spans, grid) && c.Laid() && c.track == track && c.g == grid &&
        TrimsCovered(track)
    ensures LayoutOf(c).Sound() && Fits(c, s) && answer.Planned? && answer.plan == c.ToPlan()
  {
    c := CutOf(track, spliceTrims, spans, grid);
    AcceptedIsLaid(track, spliceTrims, spans, grid);
    HoldsFits(AskOf(track, spliceTrims, spans, grid), c, s);
  }

  method RunBoth(ghost c: Cut, ghost s: Source, first: CutSeekDemuxer, worker: CutSeekDemuxer, startSegment: nat,
      segmentSamples: nat, ghost p0: nat) returns (top: Segmented, run: Segmented)
    requires first.Valid() && worker.Valid() && p0 == startSegment * segmentSamples && OnGrid(p0, c.g)
    requires c.Laid() && TrimsCovered(c.track) && LayoutOf(c).Sound() && Fits(c, s) &&
        GridPackets(LayoutOf(c), s, worker.view.src, 0)
    requires c.CutTrack().midPadding <= 0 && PartialTrims(c.track.midTrims, c.g)
    requires SeeksBack(worker.seek, c.track.midTrims, c.track.id, worker.view.src)
    requires first.view.plan == worker.view.plan == c.ToPlan() && first.view.src == worker.view.src
    requires first.view.damaged == worker.view.damaged && first.view != worker.view
    requires first.view.next == worker.view.next == 0 && first.view.At() == worker.view.At() == Start
    modifies first.view, worker.view
    ensures StartsAt(top, c.ToPlan(), worker.view.damaged, worker.view.src, worker.seek, 0)
    ensures StartsAt(run, c.ToPlan(), worker.view.damaged, worker.view.src, worker.seek, p0) && RunsOn(top, run, p0)
  {
    RunsAgree(c, s, worker.view.damaged, worker.view.src, worker.seek, p0);
    top := RunFrom(first, 0, segmentSamples, 0);
    run := RunFrom(worker, startSegment, segmentSamples, p0);
  }

  /** SegmentCut of a fresh view. */
  method RunFrom(demux: CutSeekDemuxer, startSegment: nat, segmentSamples: nat, ghost p0: nat) returns (r: Segmented)
    requires demux.Valid() && demux.view.next == 0 && demux.view.At() == Start && p0 == startSegment * segmentSamples
    modifies demux.view
    ensures var v := demux.view;
      (p0 > 0 ==> Lands(v.plan, v.src, demux.seek, p0)) ==> StartsAt(r, v.plan, v.damaged, v.src, demux.seek, p0)
  {
    assert demux.view.src[0..] == demux.view.src;
    r := SegmentCut(demux, startSegment, segmentSamples);
  }
}
