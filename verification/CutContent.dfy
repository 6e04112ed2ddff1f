/** An accepted plan never fails its own walk, and what the walk hands on is exactly the audio the windows keep. */
module CutContent {
  import opened Container
  import opened CutTimeline
  import opened CutPlan
  import opened CutWalk
  import opened Listening
  import opened GridSource

  // ----- The walk of a grid source -----

  /** A gap leaves the output where it is. */
  lemma GapKeepsOut(l: Layout, i: nat, p: int, e: int)
    requires l.Sound() && i < l.N() && p <= e <= l.From(i)
    ensures Advance(l.plan.windows, i, e) == i && OutAt(l, i, e) == OutAt(l, i, p)
  {
    assert l.WindowSound(i);
  }

  /** A kept packet moves the output by its length, into the next window when it ends this one. */
  lemma KeepMovesOut(l: Layout, i: nat, p: int, e: int)
    requires l.Sound() && i < l.N() && l.From(i) <= p < e && (l.To(i) >= 0 ==> e <= l.To(i))
    ensures OutAt(l, i, p) == l.Ahead(i) + p - l.From(i)
    ensures OutAt(l, Advance(l.plan.windows, i, e), e) == OutAt(l, i, p) + e - p
  {
    assert l.WindowSound(i);
    var c := Advance(l.plan.windows, i, e);
    if l.To(i) >= 0 && e == l.To(i) {
      if i + 1 < l.N() {
        assert l.WindowSound(i + 1) && l.To(i) <= l.From(i + 1);
        assert c == i + 1;
      } else {
        assert c == l.N();
      }
    } else {
      assert c == i;
    }
  }

  /** On the source it was planned for, the view hands on `Emitted` and ends cleanly: no packet straddles a window, no
      trim differs from the planned one, and the source is not short. */
  lemma {:induction false} WalkIsEmitted(l: Layout, s: Source, damaged: bool, v: View, pkts: seq<Packet>, p: int)
    requires l.Sound() && Matches(l, s) && GridPackets(l, s, pkts, p) && InStep(l, s, v, p)
    ensures Walk(l.plan, damaged, v, pkts) == (Emitted(l, s, v.cur, pkts, p, v.out), Eof)
    decreases |pkts|
  {
    if v.cur < l.N() && |pkts| > 0 {
      var pkt, rest := pkts[0], pkts[1..];
      if pkt.track != l.plan.track.id {
        WalkSkips(l.plan, damaged, v, pkts);
        WalkIsEmitted(l, s, damaged, v, rest, p);
      } else {
        PacketEnd(l, s, p, p + pkt.dur);
        if Advance(l.plan.windows, v.cur, p) == l.N() {
          PastTheWindows(l, s, damaged, v, pkts, p);
        } else {
          var step := StepOn(l.plan, v, pkt);
          StepInGrid(l, s, v, pkt, p, p + pkt.dur, Advance(l.plan.windows, v.cur, p));
          WalkIsEmitted(l, s, damaged, step.v, rest, p + pkt.dur);
          WalkOneMore(l, s, damaged, v, pkts, p);
        }
      }
    }
  }

  lemma WalkOneMore(l: Layout, s: Source, damaged: bool, v: View, pkts: seq<Packet>, p: int)
    requires l.g > 0 && |l.tails| == |l.heads| == l.N() && |pkts| > 0 && pkts[0].track == l.plan.track.id &&
        v.cur < l.N()
    requires Advance(l.plan.windows, v.cur, p) < l.N()
    requires var i, e, step := Advance(l.plan.windows, v.cur, p), p + pkts[0].dur, StepOn(l.plan, v, pkts[0]);
      && step.v.cur == i
      && (if e <= l.From(i) then step == Skipped(step.v) && step.v.out == v.out
          else step == Kept(step.v, pkts[0].(padding := PadOf(l, s, i, e), lost := 0, pts := v.out))
               && step.v.out == v.out + pkts[0].dur - PadOf(l, s, i, e))
      && Walk(l.plan, damaged, step.v, pkts[1..]) == (Emitted(l, s, i, pkts[1..], e, step.v.out), Eof)
    ensures Walk(l.plan, damaged, v, pkts) == (Emitted(l, s, v.cur, pkts, p, v.out), Eof)
  {
    if StepOn(l.plan, v, pkts[0]).Skipped? {
      WalkSkips(l.plan, damaged, v, pkts);
    } else {
      WalkKeeps(l.plan, damaged, v, pkts);
    }
  }

  /** The packet after the last window ends the walk. */
  lemma PastTheWindows(l: Layout, s: Source, damaged: bool, v: View, pkts: seq<Packet>, p: int)
    requires l.Sound() && Matches(l, s) && InStep(l, s, v, p) && v.cur < l.N() && p < s.total
    requires |pkts| > 0 && pkts[0].track == l.plan.track.id && pkts[0].lost == 0
    requires Advance(l.plan.windows, v.cur, p) == l.N()
    ensures Walk(l.plan, damaged, v, pkts) == ([], Eof)
  {
    NothingKept(l.plan.windows, v.cur, p);
    WalkSkips(l.plan, damaged, v, pkts);
  }

  lemma NothingKept(ws: seq<Window>, i: nat, p: int)
    requires i <= |ws|
    ensures KeptIn(ws, i, p, p) == 0
    decreases |ws| - i
  {
  }

  /** One packet of a grid source through the view. */
  lemma StepInGrid(l: Layout, s: Source, v: View, pkt: Packet, p: int, e: int, i: nat)
    requires l.Sound() && Matches(l, s) && InStep(l, s, v, p) && v.cur < l.N() && p < s.total
    requires pkt.track == l.plan.track.id && pkt.dur == Min(l.g, s.total - p) && pkt.lost == 0
    requires e == p + pkt.dur && ClampedPad(pkt) == OwnPad(l, s, e)
    requires i == Advance(l.plan.windows, v.cur, p) < l.N()
    ensures var step := StepOn(l.plan, v, pkt);
      && InStep(l, s, step.v, e) && step.v.cur == i
      && if e <= l.From(i) then step == Skipped(step.v) && step.v.out == v.out
         else step == Kept(step.v, pkt.(padding := PadOf(l, s, i, e), lost := 0, pts := v.out))
              && step.v.out == v.out + pkt.dur - PadOf(l, s, i, e)
  {
    PacketEnd(l, s, p, e);
    if e <= l.From(i) {
      StepInGap(l, s, v, pkt, p, e, i);
    } else {
      PacketFits(l, s, i, p, e);
      StepInWindow(l, s, v, pkt, p, e, i, PadOf(l, s, i, e));
    }
  }

  lemma StepInWindow(l: Layout, s: Source, v: View, pkt: Packet, p: int, e: int, i: nat, pad: int)
    requires l.Sound() && Matches(l, s) && InStep(l, s, v, p) && v.cur < l.N() && p < s.total && AtPacket(l, s, e)
    requires pkt.track == l.plan.track.id && pkt.dur == Min(l.g, s.total - p) && e == p + pkt.dur && pkt.lost == 0
    requires i == Advance(l.plan.windows, v.cur, p) < l.N() && l.From(i) <= p < e && (l.To(i) >= 0 ==> e <= l.To(i))
    requires ClampedPad(pkt) == OwnPad(l, s, e) && pad == PadOf(l, s, i, e)
    ensures var step := StepOn(l.plan, v, pkt);
      && InStep(l, s, step.v, e) && step.v.cur == i && step.v.out == v.out + pkt.dur - pad
      && step == Kept(step.v, pkt.(padding := pad, lost := 0, pts := v.out))
  {
    KeepMovesOut(l, i, p, e);
    PadIs(l, s, i, p, e);
    KeptWhole(l.plan, v, pkt, e, i, l.OutEnd(i, e), pad);
  }

  /** A packet inside the window the walk comes to is kept, with the larger of its own trim and the cut's. */
  lemma KeptWhole(plan: Plan, v: View, pkt: Packet, e: int, i: nat, at: int, pad: int)
    requires v.cur < |plan.windows| && pkt.track == plan.track.id && pkt.lost == 0 && v.pos < e == v.pos + pkt.dur
    requires v.havePrev ==> v.prevPad == TrimAt(plan.trims, v.pos)
    requires i == Advance(plan.windows, v.cur, v.pos) < |plan.windows|
    requires plan.windows[i].from <= v.pos && (plan.windows[i].to >= 0 ==> e <= plan.windows[i].to)
    requires at == v.outRaw + pkt.dur && pad == Max(ClampedPad(pkt), TrimAt(plan.track.midTrims, at))
    ensures StepOn(plan, v, pkt)
         == Kept(View(i, e, v.out + pkt.dur - pad, at, ClampedPad(pkt), true),
                 pkt.(padding := pad, lost := 0, pts := v.out))
  {
    NothingKept(plan.windows, v.cur, v.pos);
  }

  lemma StepInGap(l: Layout, s: Source, v: View, pkt: Packet, p: int, e: int, i: nat)
    requires l.Sound() && InStep(l, s, v, p) && v.cur < l.N() && AtPacket(l, s, e)
    requires pkt.track == l.plan.track.id && pkt.dur == e - p > 0 && pkt.lost == 0
    requires e < s.total ==> ClampedPad(pkt) == TrimAt(l.plan.trims, e)
    requires i == Advance(l.plan.windows, v.cur, p) < l.N() && e <= l.From(i)
    ensures var step := StepOn(l.plan, v, pkt);
      InStep(l, s, step.v, e) && step.v.cur == i && step == Skipped(step.v) && step.v.out == v.out
  {
    NothingKept(l.plan.windows, v.cur, p);
    GapKeepsOut(l, i, p, e);
  }

  // ----- What is heard of it -----

  /** Raw sample r lies in window i's audio. */
  ghost predicate InBody(l: Layout, i: nat, r: int)
    requires i < l.N() && |l.tails| == |l.heads| == l.N()
  {
    l.heads[i] <= r && (l.To(i) >= 0 ==> r < l.tails[i])
  }

  /** Raw sample r of the source is heard in a cut whose windows start at the c-th. */
  ghost predicate Sounds(l: Layout, s: Source, c: nat, r: int)
    requires |l.tails| == |l.heads| == l.N()
  {
    r < s.total - s.finalPad && !Inside(l.plan.trims, r) && exists i :: c <= i < l.N() && InBody(l, i, r)
  }

  ghost function Plays(l: Layout, s: Source, c: nat): int -> bool
    requires |l.tails| == |l.heads| == l.N()
  {
    r => Sounds(l, s, c, r)
  }

  /** Of the windows a position has reached, only the first it has not left can hold it. */
  lemma OnlyWindow(l: Layout, s: Source, c: nat, p: int, r: int)
    requires l.Sound() && c <= l.N() && p <= r
    ensures var i := Advance(l.plan.windows, c, p); Sounds(l, s, c, r) == Sounds(l, s, i, r)
  {
    var i := Advance(l.plan.windows, c, p);
    forall j | c <= j < i
      ensures !InBody(l, j, r)
    {
      assert l.WindowSound(j);
    }
  }

  lemma LaterWindow(l: Layout, i: nat, j: nat, r: int)
    requires l.Sound() && i < j < l.N() && r < l.To(i)
    ensures !InBody(l, j, r)
  {
    assert l.WindowSound(j) && l.To(i) <= l.From(j);
  }

  /** Nothing of a packet in a gap is heard. */
  lemma GapIsSilent(l: Layout, s: Source, i: nat, p: int, e: int)
    requires l.Sound() && i < l.N() && e <= l.From(i)
    ensures Select(Plays(l, s, i), p, e) == []
  {
    forall r | p <= r < e
      ensures !Sounds(l, s, i, r)
    {
      forall j | i <= j < l.N()
        ensures !InBody(l, j, r)
      {
        assert l.WindowSound(j) && l.WindowSound(i);
        assert i < j ==> l.To(i) <= l.From(j);
      }
    }
    SelectNone(Plays(l, s, i), p, e);
  }

  /** A source packet's own trim is what of it is not audio. */
  lemma OwnTrim(l: Layout, s: Source, p: int, e: int, r: int)
    requires l.Sound() && Matches(l, s) && AtPacket(l, s, p) && p < s.total && e == p + Min(l.g, s.total - p)
    requires p <= r < e
    ensures 0 <= OwnPad(l, s, e) <= e - p
    ensures r < s.total - s.finalPad && !Inside(l.plan.trims, r) <==> r < e - OwnPad(l, s, e)
  {
    PacketEnd(l, s, p, e);
    if e == s.total {
      assert !Inside(l.plan.trims, r);
    } else {
      TrimOfPacket(l.plan.trims, l.g, p, r);
    }
  }

  /** A kept packet leaves the view with the trim that cuts it down to the window's audio. */
  lemma PadCutsToBody(l: Layout, s: Source, i: nat, p: int, e: int, r: int)
    requires l.Sound() && Matches(l, s) && AtPacket(l, s, p) && p < s.total && e == p + Min(l.g, s.total - p)
    requires i < l.N() && l.From(i) <= p && (l.To(i) >= 0 ==> e <= l.To(i)) && p <= r < e
    ensures 0 <= PadOf(l, s, i, e) <= e - p
    ensures Sounds(l, s, i, r) <==> r < e - PadOf(l, s, i, e)
  {
    var pad := PadOf(l, s, i, e);
    OwnTrim(l, s, p, e, r);
    OneWindowSounds(l, s, i, e, r);
    if OnGrid(e, l.g) && e <= l.heads[i] {
      PacketEnd(l, s, p, e);
      assert pad == l.g == e - p;
    } else {
      HeadOnPacket(l, s, i, p, e);
      BodyOfPacket(l, s, i, p, e, r);
    }
  }

  lemma OneWindowSounds(l: Layout, s: Source, i: nat, e: int, r: int)
    requires l.Sound() && i < l.N() && (l.To(i) >= 0 ==> e <= l.To(i)) && r < e
    ensures Sounds(l, s, i, r) <==> r < s.total - s.finalPad && !Inside(l.plan.trims, r) && InBody(l, i, r)
  {
    forall j | i < j < l.N()
      ensures !InBody(l, j, r)
    {
      assert l.WindowSound(i);
      LaterWindow(l, i, j, r);
    }
  }

  lemma BodyOfPacket(l: Layout, s: Source, i: nat, p: int, e: int, r: int)
    requires l.Sound() && Matches(l, s) && AtPacket(l, s, p) && p < s.total && e == p + Min(l.g, s.total - p)
    requires i < l.N() && l.From(i) <= p && (l.To(i) >= 0 ==> e <= l.To(i)) && l.heads[i] <= p <= r < e
    requires 0 <= OwnPad(l, s, e) <= e - p
    ensures 0 <= PadOf(l, s, i, e) <= e - p
    ensures r < e - OwnPad(l, s, e) && InBody(l, i, r) <==> r < e - PadOf(l, s, i, e)
  {
    var pad, own := PadOf(l, s, i, e), OwnPad(l, s, e);
    if l.To(i) < 0 {
      assert pad == own;
    } else if e < l.To(i) {
      EndBeforeTail(l, s, i, p, e);
      assert pad == own;
    } else if l.tails[i] < e {
      SlopAtTail(l, s, i, p, e);
      assert l.WindowSound(i);
      assert pad == e - l.tails[i];
    } else {
      assert l.WindowSound(i);
      assert pad == own;
    }
  }

  /** Past the discarded pre-roll a packet starts at or after the window's audio. */
  lemma HeadOnPacket(l: Layout, s: Source, i: nat, p: int, e: int)
    requires l.Sound() && Matches(l, s) && AtPacket(l, s, p) && p < s.total && e == p + Min(l.g, s.total - p)
    requires i < l.N() && !(OnGrid(e, l.g) && e <= l.heads[i])
    ensures l.heads[i] <= p
  {
    assert l.WindowSound(i);
    PacketEnd(l, s, p, e);
    if p < l.heads[i] {
      GridGap(p, l.heads[i], l.g);
      if i < l.N() - 1 {
        InnerEnd(l, s, i);
      }
    }
  }

  lemma SlopAtTail(l: Layout, s: Source, i: nat, p: int, e: int)
    requires l.Sound() && Matches(l, s) && AtPacket(l, s, p) && p < s.total && e == p + Min(l.g, s.total - p)
    requires i < l.N() && e == l.To(i) && 0 <= l.To(i) && l.tails[i] < e
    ensures i < l.N() - 1 ==> OwnPad(l, s, e) <= e - l.tails[i] < l.g && e == p + l.g
  {
    if i < l.N() - 1 {
      assert l.WindowSound(i);
      PacketEnd(l, s, p, e);
      InnerEnd(l, s, i);
      SlopCoversTrim(l, i, p);
    }
  }

  lemma EndBeforeTail(l: Layout, s: Source, i: nat, p: int, e: int)
    requires l.Sound() && Matches(l, s) && AtPacket(l, s, p) && p < s.total && e == p + Min(l.g, s.total - p)
    requires i < l.N() && 0 <= l.To(i) && e < l.To(i)
    ensures e <= l.tails[i]
  {
    assert l.WindowSound(i);
    if i < l.N() - 1 {
      PacketEnd(l, s, p, e);
      InnerEnd(l, s, i);
      GridGap(e, l.To(i), l.g);
    }
  }

  /** What the view hands on, once every packet's trim is dropped, is exactly the audio of the windows. */
  lemma {:induction false} EmittedSounds(l: Layout, s: Source, c: nat, pkts: seq<Packet>, p: int, out: int)
    requires l.Sound() && Matches(l, s) && GridPackets(l, s, pkts, p) && AtPacket(l, s, p) && c <= l.N()
    ensures Decoded(Emitted(l, s, c, pkts, p, out)) == Select(Plays(l, s, c), p, s.total)
    decreases |pkts|
  {
    if c == l.N() {
      SelectNone(Plays(l, s, c), p, s.total);
    } else if |pkts| > 0 {
      var pkt, rest := pkts[0], pkts[1..];
      if pkt.track != l.plan.track.id {
        EmittedSounds(l, s, c, rest, p, out);
      } else {
        var i, e := Advance(l.plan.windows, c, p), p + pkt.dur;
        PacketEnd(l, s, p, e);
        SameFromHere(l, s, c, p);
        if i == l.N() {
          SelectNone(Plays(l, s, i), p, s.total);
        } else if e <= l.From(i) {
          EmittedSounds(l, s, i, rest, e, out);
          GapSounds(l, s, c, i, pkts, p, out);
        } else {
          EmittedSounds(l, s, i, rest, e, out + pkt.dur - PadOf(l, s, i, e));
          KeptSounds(l, s, c, i, pkts, p, out);
        }
      }
    }
  }

  /** A packet between windows adds nothing. */
  lemma GapSounds(l: Layout, s: Source, c: nat, i: nat, pkts: seq<Packet>, p: int, out: int)
    requires l.Sound() && AtPacket(l, s, p) && |pkts| > 0 && pkts[0].track == l.plan.track.id && c < l.N()
    requires i == Advance(l.plan.windows, c, p) < l.N() && p <= p + pkts[0].dur <= s.total &&
        p + pkts[0].dur <= l.From(i)
    requires var e := p + pkts[0].dur;
        Decoded(Emitted(l, s, i, pkts[1..], e, out)) == Select(Plays(l, s, i), e, s.total)
    ensures Decoded(Emitted(l, s, c, pkts, p, out)) == Select(Plays(l, s, i), p, s.total)
  {
    var e := p + pkts[0].dur;
    GapIsSilent(l, s, i, p, e);
    SelectSplit(Plays(l, s, i), p, e, s.total);
  }

  /** A kept packet adds what it plays. */
  lemma KeptSounds(l: Layout, s: Source, c: nat, i: nat, pkts: seq<Packet>, p: int, out: int)
    requires l.Sound() && Matches(l, s) && AtPacket(l, s, p) && |pkts| > 0 && pkts[0].track == l.plan.track.id &&
        c < l.N()
    requires p < s.total && pkts[0].dur == Min(l.g, s.total - p) && pkts[0].data == p
    requires i == Advance(l.plan.windows, c, p) < l.N() && p + pkts[0].dur > l.From(i)
    requires var e := p + pkts[0].dur;
      Decoded(Emitted(l, s, i, pkts[1..], e, out + pkts[0].dur - PadOf(l, s, i, e))) ==
          Select(Plays(l, s, i), e, s.total)
    ensures Decoded(Emitted(l, s, c, pkts, p, out)) == Select(Plays(l, s, i), p, s.total)
  {
    var e, pad := p + pkts[0].dur, PadOf(l, s, i, p + pkts[0].dur);
    KeptPacketSounds(l, s, i, pkts[0], p);
    PacketEnd(l, s, p, e);
    EmittedKeeps(l, s, c, i, pkts, p, out, e, pad);
    OneMorePlays(Plays(l, s, i), p, e, s.total, pkts[0].(padding := pad, lost := 0, pts := out),
                 Emitted(l, s, i, pkts[1..], e, out + pkts[0].dur - pad));
  }

  lemma EmittedKeeps(l: Layout, s: Source, c: nat, i: nat, pkts: seq<Packet>, p: int, out: int, e: int, pad: int)
    requires l.g > 0 && |l.tails| == |l.heads| == l.N() && |pkts| > 0 && pkts[0].track == l.plan.track.id && c < l.N()
    requires i == Advance(l.plan.windows, c, p) < l.N() && e == p + pkts[0].dur && e > l.From(i) &&
        pad == PadOf(l, s, i, e)
    ensures Emitted(l, s, c, pkts, p, out)
         == [pkts[0].(padding := pad, lost := 0, pts := out)] + Emitted(l, s, i, pkts[1..], e, out + pkts[0].dur - pad)
  {
  }

  lemma OneMorePlays(plays: int -> bool, p: int, e: int, total: int, pkt: Packet, rest: seq<Packet>)
    requires p <= e <= total && 0 <= pkt.padding <= pkt.dur && Decoded(rest) == Select(plays, e, total)
    requires Run(pkt.data, pkt.data + pkt.dur - pkt.padding) == Select(plays, p, e)
    ensures Decoded([pkt] + rest) == Select(plays, p, total)
  {
    DecodedFirst(pkt, rest);
    SelectSplit(plays, p, e, total);
  }

  lemma DecodedFirst(pkt: Packet, rest: seq<Packet>)
    requires 0 <= pkt.padding <= pkt.dur
    ensures Decoded([pkt] + rest) == Run(pkt.data, pkt.data + pkt.dur - pkt.padding) + Decoded(rest)
  {
    assert ([pkt] + rest)[1..] == rest;
  }

  lemma SameFromHere(l: Layout, s: Source, c: nat, p: int)
    requires l.Sound() && c <= l.N()
    ensures var i := Advance(l.plan.windows, c, p);
      Select(Plays(l, s, c), p, s.total) == Select(Plays(l, s, i), p, s.total)
  {
    var i := Advance(l.plan.windows, c, p);
    forall r | p <= r < s.total
      ensures Plays(l, s, c)(r) == Plays(l, s, i)(r)
    {
      OnlyWindow(l, s, c, p, r);
    }
    SelectSame(Plays(l, s, c), Plays(l, s, i), p, s.total);
  }

  lemma KeptPacketSounds(l: Layout, s: Source, i: nat, pkt: Packet, p: int)
    requires l.Sound() && Matches(l, s) && AtPacket(l, s, p) && p < s.total && pkt.dur == Min(l.g, s.total - p)
    requires pkt.data == p && i < l.N() && (l.To(i) < 0 || p < l.To(i)) && l.From(i) < p + pkt.dur
    ensures var pad := PadOf(l, s, i, p + pkt.dur);
      && 0 <= pad <= pkt.dur
      && Run(pkt.data, pkt.data + pkt.dur - pad) == Select(Plays(l, s, i), p, p + pkt.dur)
  {
    var e := p + pkt.dur;
    var pad := PadOf(l, s, i, e);
    PacketEnd(l, s, p, e);
    PacketFits(l, s, i, p, e);
    forall r | p <= r < e
      ensures Plays(l, s, i)(r) <==> r < e - pad
      ensures 0 <= pad <= pkt.dur
    {
      PadCutsToBody(l, s, i, p, e, r);
    }
    assert Plays(l, s, i)(p) <==> p < e - pad;
    SelectUpTo(Plays(l, s, i), p, e - pad, e);
  }

  // ----- Window by window -----

  /** Where window i's audio ends on this source. */
  function BodyEnd(l: Layout, s: Source, i: nat): int
    requires i < l.N() && |l.tails| == l.N()
  {
    if l.To(i) < 0 then s.total - s.finalPad else Min(l.tails[i], s.total - s.finalPad)
  }

  ghost function Body(l: Layout, s: Source, i: nat): seq<int>
    requires i < l.N() && |l.tails| == |l.heads| == l.N()
  {
    Select(Untrimmed(l.plan.trims), l.heads[i], BodyEnd(l, s, i))
  }

  /** The audio of the windows from the i-th on. */
  ghost function Bodies(l: Layout, s: Source, i: nat): seq<int>
    requires i <= l.N() && |l.tails| == |l.heads| == l.N()
    decreases l.N() - i
  {
    if i == l.N() then [] else Body(l, s, i) + Bodies(l, s, i + 1)
  }

  lemma {:induction false} SoundsAreBodies(l: Layout, s: Source, i: nat, lo: int)
    requires l.Sound() && Matches(l, s) && i <= l.N() && lo <= s.total && (i < l.N() ==> lo <= l.heads[i])
    ensures Select(Plays(l, s, i), lo, s.total) == Bodies(l, s, i)
    decreases l.N() - i
  {
    if i == l.N() {
      SelectNone(Plays(l, s, i), lo, s.total);
    } else {
      var head, end := l.heads[i], BodyEnd(l, s, i);
      BodyInSource(l, s, i);
      SelectSplit(Plays(l, s, i), lo, head, s.total);
      BodySounds(l, s, i, lo);
      if head <= end {
        SelectSplit(Plays(l, s, i), head, end, s.total);
        AfterBody(l, s, i);
        SoundsAreBodies(l, s, i + 1, end);
      } else {
        SelectNone(Plays(l, s, i), head, s.total);
      }
    }
  }

  lemma BodyInSource(l: Layout, s: Source, i: nat)
    requires l.Sound() && Matches(l, s) && i < l.N()
    ensures l.heads[i] < s.total && BodyEnd(l, s, i) <= s.total - s.finalPad
    ensures BodyEnd(l, s, i) < l.heads[i] ==> i == l.N() - 1 && s.total - s.finalPad < l.heads[i]
    ensures i + 1 < l.N() ==> BodyEnd(l, s, i) == l.tails[i] <= l.heads[i + 1]
  {
    assert l.WindowSound(i);
    if i + 1 < l.N() {
      assert l.WindowSound(i + 1) && l.To(i) <= l.From(i + 1);
      InnerEnd(l, s, i);
    }
  }

  lemma BodySounds(l: Layout, s: Source, i: nat, lo: int)
    requires l.Sound() && Matches(l, s) && i < l.N()
    ensures Select(Plays(l, s, i), lo, l.heads[i]) == []
    ensures Select(Plays(l, s, i), l.heads[i], BodyEnd(l, s, i)) == Body(l, s, i)
  {
    var head, end := l.heads[i], BodyEnd(l, s, i);
    assert l.WindowSound(i);
    forall r | r < (if l.To(i) >= 0 then l.To(i) else r + 1)
      ensures Plays(l, s, i)(r) <==> r < s.total - s.finalPad && !Inside(l.plan.trims, r) && InBody(l, i, r)
    {
      OneWindowSounds(l, s, i, r + 1, r);
    }
    SelectNone(Plays(l, s, i), lo, head);
    SelectSame(Plays(l, s, i), Untrimmed(l.plan.trims), head, end);
  }

  lemma AfterBody(l: Layout, s: Source, i: nat)
    requires l.Sound() && Matches(l, s) && i < l.N()
    ensures Select(Plays(l, s, i), BodyEnd(l, s, i), s.total) == Select(Plays(l, s, i + 1), BodyEnd(l, s, i), s.total)
  {
    SelectSame(Plays(l, s, i), Plays(l, s, i + 1), BodyEnd(l, s, i), s.total);
  }
}
