/** The segmented copy (remux.go): the grid it is planned on, the walk that stays one packet behind, and its restart. */
module SegmentWalk {
  import opened Container
  import opened CutTimeline
  import opened CutPlan
  import opened CutWalk
  import opened GridSource
  import opened CutContent
  import opened CutCopy
  import opened Remux
  import opened CutSeek

  // ----- The grid -----

  /** The durations of a track's packets, in order. */
  function OwnDurs(track: int, pkts: seq<Packet>): seq<int> {
    if |pkts| == 0 then [] else (if pkts[0].track == track then [pkts[0].dur] else []) + OwnDurs(track, pkts[1..])
  }

  /** Every duration but the last is g. */
  ghost predicate OnOneGrid(durs: seq<int>, g: int) { forall k :: 0 <= k < |durs| - 1 ==> durs[k] == g }

  lemma {:induction false} OwnDursSnoc(track: int, pkts: seq<Packet>, i: nat)
    requires i < |pkts|
    ensures OwnDurs(track, pkts[..i + 1]) == OwnDurs(track, pkts[..i]) + if pkts[i].track == track then [pkts[i].dur]
        else []
    decreases i
  {
    if i == 0 {
      assert pkts[..1][1..] == [];
    } else {
      OwnDursSnoc(track, pkts[1..], i - 1);
      assert pkts[..i + 1][1..] == pkts[1..][..i] && pkts[..i][1..] == pkts[1..][..i - 1];
    }
  }

  /** packetGrid: the duration every packet but the last shares, 0 when they share none. */
  method PacketGrid(pkts: seq<Packet>, track: int) returns (g: int)
    ensures g > 0 <==> |OwnDurs(track, pkts)| >= 2 && OwnDurs(track, pkts)[0] > 0
                       && OnOneGrid(OwnDurs(track, pkts), OwnDurs(track, pkts)[0])
    ensures g == if g > 0 then OwnDurs(track, pkts)[0] else 0
  {
    var grid, prev := 0, 0;
    var have, uniform := false, true;
    var i := 0;
    ghost var durs := [];
    while i < |pkts|
      invariant 0 <= i <= |pkts| && durs == OwnDurs(track, pkts[..i])
      invariant have <==> |durs| > 0
      invariant have ==> prev == durs[|durs| - 1]
      invariant uniform ==> (|durs| >= 2 ==> grid == durs[0] > 0 && OnOneGrid(durs, grid)) && (|durs| < 2 ==> grid == 0)
      invariant !uniform ==> |durs| >= 2 && !(durs[0] > 0 && OnOneGrid(durs, durs[0]))
    {
      OwnDursSnoc(track, pkts, i);
      var pkt := pkts[i];
      i := i + 1;
      if pkt.track != track {
        continue;
      }
      ghost var was := durs;
      durs := durs + [pkt.dur];
      if have {
        assert durs[|was| - 1] == prev && durs[0] == was[0];
        if uniform {
          assert forall k :: 0 <= k < |was| - 1 ==> durs[k] == was[k];
        } else if was[0] > 0 {
          var k :| 0 <= k < |was| - 1 && was[k] != was[0];
          assert durs[k] != durs[0];
        }
        if prev <= 0 {
          uniform := false;
        } else if grid == 0 {
          grid := prev;
        } else if grid != prev {
          uniform := false;
        }
      }
      prev, have := pkt.dur, true;
    }
    assert pkts[..i] == pkts;
    g := if !uniform || grid <= 0 then 0 else grid;
  }

  /** On the grid a cut is planned for, the measured grid is that one, as soon as the source has two packets. */
  lemma {:induction false} GridSourceMeasures(l: Layout, s: Source, pkts: seq<Packet>, p: int)
    requires l.Sound() && Matches(l, s) && GridPackets(l, s, pkts, p) && AtPacket(l, s, p)
    ensures var durs := OwnDurs(l.plan.track.id, pkts);
      && (p < s.total <==> |durs| > 0) && (p < s.last ==> |durs| >= 2 && durs[0] == l.g)
      && OnOneGrid(durs, l.g)
    decreases |pkts|
  {
    if |pkts| > 0 {
      if pkts[0].track != l.plan.track.id {
        GridSourceMeasures(l, s, pkts[1..], p);
      } else {
        PacketEnd(l, s, p, p + pkts[0].dur);
        GridSourceMeasures(l, s, pkts[1..], p + pkts[0].dur);
      }
    }
  }

  // ----- One packet behind -----

  /** The walk's own state: where it stands, the grid it has seen, the packet it holds, what it wrote. */
  datatype Seg = Seg(pos: int, grid: int, held: seq<Packet>, out: seq<Packet>, broken: bool)

  /** Hands the held packet on; only one that something followed is checked against the grid. */
  function Release(s: Seg, checked: bool): Seg {
    if |s.held| == 0 then s
    else if checked && s.grid != 0 && s.held[0].dur != s.grid then s.(broken := true)
    else Seg(s.pos, if checked && s.grid == 0 then s.held[0].dur else s.grid, [], s.out + [s.held[0]], false)
  }

  /** One copied packet: passed over before the restart point, held after it. */
  function TakeIn(s: Seg, p0: int, pkt: Packet): Seg {
    if s.pos < p0 then s.(pos := s.pos + pkt.dur)
    else
      var r := Release(s, true);
      if r.broken then r else r.(held := [pkt])
  }

  function Feed(s: Seg, p0: int, pkts: seq<Packet>): Seg
    decreases |pkts|
  {
    if |pkts| == 0 || s.broken then s else Feed(TakeIn(s, p0, pkts[0]), p0, pkts[1..])
  }

  datatype Segmented = Segmented(out: seq<Packet>, samples: int) | GridBroken(out: seq<Packet>)
    | NotCopied(why: CopyRefusal, out: seq<Packet>) | NoStart(landed: Sought)

  /** The run: the copy's packets through the walk, the last one released unchecked. */
  function SegmentsOf(copied: Copied, pos: int, p0: int): Segmented {
    var s := Feed(Seg(pos, 0, [], [], false), p0, copied.out);
    if s.broken then GridBroken(s.out)
    else if copied.Uncopied? then NotCopied(copied.why, s.out)
    else Segmented(Release(s, false).out, copied.run.samples)
  }

  /** segmentWalk over a seekable cut: the seek to the restart point, then the copy, one packet behind. */
  method SegmentCut(demux: CutSeekDemuxer, startSegment: nat, segmentSamples: nat) returns (r: Segmented)
    requires demux.Valid()
    modifies demux.view
    ensures demux.Valid()
    ensures var v, p0, id := demux.view, startSegment * segmentSamples, demux.view.plan.track.id;
      var (i, outStart) := WindowFor(v.plan.windows, 0, 0, p0);
      var rules := Rules(id, false, false);
      if p0 == 0 then
        var (pkts, end) := Walk(v.plan, v.damaged, old(v.At()), v.src[old(v.next)..]);
        r == SegmentsOf(CopyFrom(rules, Fresh, pkts, end), 0, 0)
      else if i < |v.plan.windows| && demux.seek(Asked(v.plan, p0)).NotLanded? then r == NoStart(SeekFailed)
      else
        var landing := if i < |v.plan.windows| then demux.seek(Asked(v.plan, p0)) else Landed(old(v.next), 0);
        var v' := Repositioned(v.plan, old(v.At()), p0, landing.at);
        && v'.cur <= |v.plan.windows| && landing.next <= |v.src|
        && if v'.out > p0 then r == NoStart(SoughtAt(v'.out))
           else
             var (pkts, end) := Walk(v.plan, v.damaged, v', v.src[landing.next..]);
             r == SegmentsOf(CopyFrom(rules, Fresh, pkts, end), v'.out, p0)
  {
    var p0 := startSegment * segmentSamples;
    var pos := 0;
    if p0 != 0 {
      var sought := demux.SeekSample(demux.view.plan.track.id, p0);
      if !sought.SoughtAt? {
        return NoStart(sought);
      }
      if sought.out > p0 {
        return NoStart(sought);
      }
      pos := sought.out;
    }
    var copied := CopyView(Rules(demux.view.plan.track.id, false, false), demux.view);
    r := Segments(copied, pos, p0);
  }

  method Segments(copied: Copied, start: int, p0: int) returns (r: Segmented)
    ensures r == SegmentsOf(copied, start, p0)
  {
    var pos, grid := start, 0;
    var held: seq<Packet> := [];
    var out: seq<Packet> := [];
    ghost var s0 := Seg(start, 0, [], [], false);
    var i := 0;
    while i < |copied.out|
      invariant 0 <= i <= |copied.out|
      invariant Feed(Seg(pos, grid, held, out, false), p0, copied.out[i..]) == Feed(s0, p0, copied.out)
      decreases |copied.out| - i
    {
      var pkt := copied.out[i];
      assert copied.out[i..][1..] == copied.out[i + 1..];
      ghost var s := Seg(pos, grid, held, out, false);
      i := i + 1;
      if pos < p0 {
        pos := pos + pkt.dur;
      } else {
        if |held| > 0 {
          if grid == 0 {
            grid := held[0].dur;
          } else if held[0].dur != grid {
            assert Feed(TakeIn(s, p0, pkt), p0, copied.out[i..]) == TakeIn(s, p0, pkt);
            return GridBroken(out);
          }
          out := out + [held[0]];
        }
        held := [pkt];
      }
    }
    if copied.Uncopied? {
      return NotCopied(copied.why, out);
    }
    if |held| > 0 {
      out := out + [held[0]];
    }
    r := Segmented(out, copied.run.samples);
  }

  // ----- What it writes -----

  lemma {:induction false} FeedSkips(s: Seg, p0: int, pkts: seq<Packet>) returns (at: int)
    requires !s.broken && s.held == []
    ensures Feed(s, p0, pkts) == Feed(s.(pos := at), p0, SkipTo(s.pos, p0, pkts))
    ensures at >= p0 || SkipTo(s.pos, p0, pkts) == []
    decreases |pkts|
  {
    at := s.pos;
    if |pkts| > 0 && s.pos < p0 {
      at := FeedSkips(s.(pos := s.pos + pkts[0].dur), p0, pkts[1..]);
    }
  }

  /** Past the restart point every packet comes out again, one behind, as long as those that something follows share a
      length. */
  lemma {:induction false} FeedKeeps(s: Seg, p0: int, pkts: seq<Packet>)
    requires !s.broken && s.pos >= p0 && |s.held| <= 1 && (forall k :: 0 <= k < |pkts| ==> pkts[k].dur > 0)
    requires (forall k :: 0 <= k < |s.held| ==> s.held[k].dur > 0) && (s.grid != 0 ==> |s.held| > 0)
    ensures var all, end := s.held + pkts, Feed(s, p0, pkts);
      var g := if s.grid != 0 || |all| == 0 then s.grid else all[0].dur;
      if forall k :: 0 <= k < |all| - 1 ==> all[k].dur == g then !end.broken && Release(end, false).out == s.out + all
      else end.broken
    decreases |pkts|
  {
    var all := s.held + pkts;
    if |pkts| == 0 {
      assert all == s.held;
      if |s.held| > 0 {
        assert s.held == [s.held[0]];
      }
    } else {
      var next := TakeIn(s, p0, pkts[0]);
      if |s.held| == 0 {
        FeedKeeps(next, p0, pkts[1..]);
        assert [pkts[0]] + pkts[1..] == pkts == all;
      } else {
        assert all == [s.held[0]] + pkts && pkts == [pkts[0]] + pkts[1..];
        if s.grid == 0 || s.held[0].dur == s.grid {
          FeedKeeps(next, p0, pkts[1..]);
          HeldFirst(s.held[0], pkts, if s.grid == 0 then s.held[0].dur else s.grid);
          assert s.out + [s.held[0]] + pkts == s.out + all;
        } else {
          assert all[0].dur != s.grid;
        }
      }
    }
  }

  lemma HeldFirst(first: Packet, pkts: seq<Packet>, g: int)
    requires first.dur == g && |pkts| > 0
    ensures var all := [first] + pkts;
      (forall k :: 0 <= k < |all| - 1 ==> all[k].dur == g) <==> forall k :: 0 <= k < |pkts| - 1 ==> pkts[k].dur == g
  {
    var all := [first] + pkts;
    if forall k :: 0 <= k < |all| - 1 ==> all[k].dur == g {
      forall k | 0 <= k < |pkts| - 1
        ensures pkts[k].dur == g
      {
        assert all[k + 1] == pkts[k];
      }
    }
  }

  /** The segmented copy writes exactly the packets from the restart point on when all but the last share a length, and
      stops with an error, rather than writing a short packet in the middle, when they do not. */
  lemma SegmentsAreSuffix(copied: Copied, pos: int, p0: int)
    requires copied.Copied? && forall k :: 0 <= k < |copied.out| ==> copied.out[k].dur > 0
    ensures var kept := SkipTo(pos, p0, copied.out);
      if |kept| > 0 ==> OnOneGrid(DursOf(kept), kept[0].dur) then
        SegmentsOf(copied, pos, p0) == Segmented(kept, copied.run.samples)
      else SegmentsOf(copied, pos, p0).GridBroken?
  {
    var s, kept := Seg(pos, 0, [], [], false), SkipTo(pos, p0, copied.out);
    var at := FeedSkips(s, p0, copied.out);
    SkipToDurs(pos, p0, copied.out);
    if |kept| > 0 {
      KeptOnGrid(s.(pos := at), p0, kept);
    }
  }

  /** Packets that are all kept, fed to a fresh segmenter. */
  lemma KeptOnGrid(s: Seg, p0: int, kept: seq<Packet>)
    requires !s.broken && s.pos >= p0 && s.held == [] && s.out == [] && s.grid == 0 && |kept| > 0
    requires forall k :: 0 <= k < |kept| ==> kept[k].dur > 0
    ensures var end := Feed(s, p0, kept);
      if OnOneGrid(DursOf(kept), kept[0].dur) then !end.broken && Release(end, false).out == kept else end.broken
  {
    FeedKeeps(s, p0, kept);
    assert [] + kept == kept;
    var durs := DursOf(kept);
    if forall k :: 0 <= k < |kept| - 1 ==> kept[k].dur == kept[0].dur {
      assert OnOneGrid(durs, kept[0].dur);
    } else {
      var k :| 0 <= k < |kept| - 1 && kept[k].dur != kept[0].dur;
      assert durs[k] == kept[k].dur;
    }
  }

  function DursOf(pkts: seq<Packet>): (r: seq<int>)
    ensures |r| == |pkts| && forall k :: 0 <= k < |r| ==> r[k] == pkts[k].dur
  {
    seq(|pkts|, k requires 0 <= k < |pkts| => pkts[k].dur)
  }

  lemma {:induction false} SkipToDurs(pos: int, p0: int, pkts: seq<Packet>)
    requires forall k :: 0 <= k < |pkts| ==> pkts[k].dur > 0
    ensures forall k :: 0 <= k < |SkipTo(pos, p0, pkts)| ==> SkipTo(pos, p0, pkts)[k].dur > 0
    decreases |pkts|
  {
    if |pkts| > 0 && pos < p0 {
      SkipToDurs(pos + pkts[0].dur, p0, pkts[1..]);
    }
  }

  // ----- The segments of a cut -----

  /** Packets of one length but for the last, none but the last trimmed. */
  ghost predicate Shaped(g: int, pkts: seq<Packet>) {
    && (forall k :: 0 <= k < |pkts| ==> pkts[k].dur > 0)
    && forall k :: 0 <= k < |pkts| - 1 ==> pkts[k].dur == g && pkts[k].padding == 0
  }

  lemma ShapedFirst(g: int, first: Packet, rest: seq<Packet>)
    requires Shaped(g, rest) && first.dur > 0 && (|rest| > 0 ==> first.dur == g && first.padding == 0)
    ensures Shaped(g, [first] + rest)
  {
  }

  lemma {:induction false} EmittedShaped(l: Layout, s: Source, c: nat, pkts: seq<Packet>, p: int, out: int)
    requires l.Sound() && Matches(l, s) && l.plan.track.midTrims == []
    requires GridPackets(l, s, pkts, p) && AtPacket(l, s, p) && c <= l.N()
    ensures Shaped(l.g, Emitted(l, s, c, pkts, p, out))
    decreases |pkts|
  {
    if c < l.N() && |pkts| > 0 {
      var pkt, rest := pkts[0], pkts[1..];
      var i, e := Advance(l.plan.windows, c, p), p + pkt.dur;
      if pkt.track != l.plan.track.id {
        EmittedShaped(l, s, c, rest, p, out);
      } else if i < l.N() {
        PacketEnd(l, s, p, e);
        if e <= l.From(i) {
          EmittedShaped(l, s, i, rest, e, out);
        } else {
          var pad := PadOf(l, s, i, e);
          EmittedShaped(l, s, i, rest, e, out + pkt.dur - pad);
          FirstShaped(l, s, i, rest, p, e, out + pkt.dur - pad);
          ShapedFirst(l.g, pkt.(padding := pad, lost := 0, pts := out), Emitted(l, s, i, rest, e, out + pkt.dur - pad));
        }
      }
    }
  }

  lemma FirstShaped(l: Layout, s: Source, i: nat, rest: seq<Packet>, p: int, e: int, out: int)
    requires l.Sound() && Matches(l, s) && l.plan.track.midTrims == [] && AtPacket(l, s, p) && p < s.total
    requires e == p + Min(l.g, s.total - p) && i < l.N() && (l.To(i) < 0 || p < l.To(i)) && l.From(i) < e
    requires GridPackets(l, s, rest, e)
    ensures |Emitted(l, s, i, rest, e, out)| > 0 ==> e == p + l.g && PadOf(l, s, i, e) == 0
  {
    PacketEnd(l, s, p, e);
    PacketFits(l, s, i, p, e);
    if e < s.total && !(i == l.N() - 1 && e == l.To(i)) {
      UntrimmedInside(l, s, i, p, e);
    } else {
      NothingLeft(l, s, i, rest, e, out);
    }
  }

  lemma {:induction false} ShapedSkip(g: int, pos: int, p0: int, pkts: seq<Packet>)
    requires Shaped(g, pkts)
    ensures Shaped(g, SkipTo(pos, p0, pkts))
    decreases |pkts|
  {
    if |pkts| > 0 && pos < p0 {
      var rest := pkts[1..];
      forall k | 0 <= k < |rest| - 1
        ensures rest[k].dur == g && rest[k].padding == 0
      {
        assert rest[k] == pkts[k + 1];
      }
      ShapedSkip(g, pos + pkts[0].dur, p0, rest);
    }
  }

  /** A shaped, clean walk segments to what is left of it from the restart point. */
  lemma ShapedSegments(r: Rules, g: int, walked: seq<Packet>, pos: int, p0: int)
    requires Clean(r.track, walked) && Shaped(g, walked)
    ensures var run := SegmentsOf(CopyFrom(r, Fresh, walked, Eof), pos, p0);
      run.Segmented? && run.out == SkipTo(pos, p0, walked)
  {
    CleanCopy(r, Fresh, walked);
    assert Fresh.out + walked == walked;
    SegmentsAreSuffix(CopyFrom(r, Fresh, walked, Eof), pos, p0);
    ShapedSkip(g, pos, p0, walked);
  }

  /** The segments of a restarted run are the continuous run's own from that point: a worker that seeks to segment n and
      walks on writes exactly the packets, times and trims a run from the top writes from segment n on. */
  lemma RestartedSegments(l: Layout, s: Source, damaged: bool, v: View, pkts: seq<Packet>, p0: int,
      landing: CutSeek.Landing)
    requires l.Sound() && Matches(l, s) && GridPackets(l, s, pkts, 0)
    requires l.plan.track.midTrims == [] && PartialTrims(l.plan.trims, l.g) && OnGrid(p0, l.g) &&
        Resumes(l, pkts, landing, p0)
    ensures var (next, at) := Resumed(l, landing, p0);
      var v' := Repositioned(l.plan, v, p0, at);
      var rules := Rules(l.plan.track.id, false, false);
      && next <= |pkts| && v'.cur <= l.N() && v'.out <= p0
      && var (all, end) := Walk(l.plan, damaged, Start, pkts);
         var (rest, restEnd) := Walk(l.plan, damaged, v', pkts[next..]);
         var top := SegmentsOf(CopyFrom(rules, Fresh, all, end), 0, 0);
         var run := SegmentsOf(CopyFrom(rules, Fresh, rest, restEnd), v'.out, p0);
         top.Segmented? && run.Segmented? && top.out == all && run.out == SkipTo(0, p0, top.out)
  {
    RestartIsSuffix(l, s, damaged, v, pkts, p0, landing);
    var (next, at) := Resumed(l, landing, p0);
    var v' := Repositioned(l.plan, v, p0, at);
    var rules := Rules(l.plan.track.id, false, false);
    var all, rest := Walk(l.plan, damaged, Start, pkts).0, Walk(l.plan, damaged, v', pkts[next..]).0;
    LinearWalk(l, s, damaged, pkts);
    EmittedClean(l, s, 0, pkts, 0, 0);
    EmittedShaped(l, s, 0, pkts, 0, 0);
    ShapedSegments(rules, l.g, all, 0, 0);
    RestWalk(l, s, damaged, v, pkts, p0, landing);
    ShapedSegments(rules, l.g, rest, v'.out, p0);
  }

  lemma RestWalk(l: Layout, s: Source, damaged: bool, v: View, pkts: seq<Packet>, p0: int, landing: CutSeek.Landing)
    requires l.Sound() && Matches(l, s) && GridPackets(l, s, pkts, 0)
    requires l.plan.track.midTrims == [] && PartialTrims(l.plan.trims, l.g) && OnGrid(p0, l.g) &&
        Resumes(l, pkts, landing, p0)
    ensures var (next, at) := Resumed(l, landing, p0);
      var v' := Repositioned(l.plan, v, p0, at);
      && next <= |pkts| && v'.cur <= l.N()
      && var rest := Walk(l.plan, damaged, v', pkts[next..]).0; Clean(l.plan.track.id, rest) && Shaped(l.g, rest)
  {
    var i := WindowFor(l.plan.windows, 0, 0, p0).0;
    WindowForAhead(l, 0, p0);
    if i < l.N() {
      TargetOnGrid(l, i, p0);
      LandingBefore(l, s, pkts, landing, l.From(i) + (p0 - l.Ahead(i)));
      SeekShaped(l, s, damaged, v, pkts[landing.next..], p0, landing.at, i, PosAt(l.plan.track.id, pkts, landing.next));
    }
  }

  lemma SeekShaped(l: Layout, s: Source, damaged: bool, v: View, pkts: seq<Packet>, p0: int, at: int, i: nat, q: int)
    requires l.Sound() && Matches(l, s) && l.plan.track.midTrims == [] && GridPackets(l, s, pkts, q) && p0 >= 0
    requires i == WindowFor(l.plan.windows, 0, 0, p0).0 < l.N()
    requires q == RawOf(l.plan.trims, 0, at) && AtPacket(l, s, q) && q <= l.From(i) + (p0 - l.Ahead(i))
    ensures var v' := Repositioned(l.plan, v, p0, at);
      v'.cur <= l.N() && var rest := Walk(l.plan, damaged, v', pkts).0;
          Clean(l.plan.track.id, rest) && Shaped(l.g, rest)
  {
    SeekInStep(l, s, v, p0, at, i, q);
    ShapedFrom(l, s, damaged, Repositioned(l.plan, v, p0, at), pkts, q);
  }

  /** What the view hands on from where it stands in the grid. */
  lemma ShapedFrom(l: Layout, s: Source, damaged: bool, v: View, pkts: seq<Packet>, q: int)
    requires l.Sound() && Matches(l, s) && l.plan.track.midTrims == [] && GridPackets(l, s, pkts, q) &&
        InStep(l, s, v, q)
    ensures var rest := Walk(l.plan, damaged, v, pkts).0; Clean(l.plan.track.id, rest) && Shaped(l.g, rest)
  {
    WalkIsEmitted(l, s, damaged, v, pkts, q);
    EmittedClean(l, s, v.cur, pkts, q, v.out);
    EmittedShaped(l, s, v.cur, pkts, q, v.out);
  }
}
