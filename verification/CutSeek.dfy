/** The seekable view of a cut (cutseg.go), and why a restarted segmented run is the suffix of a continuous one. */
module CutSeek {
  import opened Container
  import opened CutTimeline
  import opened CutPlan
  import opened CutWalk
  import opened Listening
  import opened GridSource
  import opened CutContent

  /** What the inner demuxer's seek answers: the index of the next packet it yields, and that packet's own position on
      the timeline it delivers. */
  datatype Landing = Landed(next: nat, at: int) | NotLanded

  datatype Sought = SoughtAt(out: int) | BadSeek | SeekFailed

  /** Which of the windows from the i-th on holds an output position, and where on the output it begins. */
  function WindowFor(ws: seq<Window>, i: nat, outStart: int, target: int): (r: (nat, int))
    requires i <= |ws|
    ensures i <= r.0 <= |ws|
    decreases |ws| - i
  {
    if i == |ws| || ws[i].to < 0 || target < outStart + (ws[i].to - ws[i].from) then (i, outStart)
    else WindowFor(ws, i + 1, outStart + (ws[i].to - ws[i].from), target)
  }

  /** deliveredPos of the source position an output target maps to. */
  function Asked(p: Plan, target: int): int
    requires WindowFor(p.windows, 0, 0, target).0 < |p.windows|
  {
    var (i, outStart) := WindowFor(p.windows, 0, 0, target);
    TrackOf(p.trims, 0, p.windows[i].from + (target - outStart))
  }

  /** The view after a seek to an output target whose inner landing is at delivered position `at`. */
  function Repositioned(p: Plan, v: View, target: int, at: int): View {
    var (i, outStart) := WindowFor(p.windows, 0, 0, target);
    if i == |p.windows| then View(i, 0, target, target, 0, v.havePrev)
    else
      var landed := RawOf(p.trims, 0, at);
      var out := outStart + Max(0, landed - p.windows[i].from);
      View(i, landed, out, out, v.prevPad, false)
  }

  /** cutSeekDemuxer: a cut's view that can reposition, over an inner demuxer that seeks. */
  class CutSeekDemuxer {
    const view: CutDemuxer
    const seek: int -> Landing

    ghost predicate Valid()
      reads view
    {
      view.Valid() && forall x :: seek(x).Landed? ==> seek(x).next <= |view.src|
    }

    constructor (view: CutDemuxer, seek: int -> Landing)
      requires view.Valid() && forall x :: seek(x).Landed? ==> seek(x).next <= |view.src|
      ensures Valid() && this.view == view && this.seek == seek
    {
      this.view, this.seek := view, seek;
    }

    method DeliveredPos(raw: int) returns (delivered: int)
      ensures delivered == TrackOf(view.plan.trims, 0, raw)
    {
      delivered := TrackPos(view.plan.trims, 0, raw);
    }

    method RawPos(delivered: int) returns (raw: int)
      ensures raw == RawOf(view.plan.trims, 0, delivered)
    {
      raw := RawStart(view.plan.trims, 0, delivered);
    }

    method SeekSample(track: int, outTarget: int) returns (sought: Sought)
      requires Valid()
      modifies view
      ensures Valid()
      ensures track != view.plan.track.id || outTarget < 0 ==>
        sought == BadSeek && view.At() == old(view.At()) && view.next == old(view.next)
      ensures track == view.plan.track.id && outTarget >= 0 ==>
        var (i, outStart) := WindowFor(view.plan.windows, 0, 0, outTarget);
        if i == |view.plan.windows| then
          && sought == SoughtAt(outTarget) && view.At() == Repositioned(view.plan, old(view.At()), outTarget, 0)
          && view.next == old(view.next)
        else match seek(Asked(view.plan, outTarget))
          case NotLanded => sought == SeekFailed && view.At() == old(view.At()) && view.next == old(view.next)
          case Landed(next, at) =>
            && view.At() == Repositioned(view.plan, old(view.At()), outTarget, at)
            && view.next == next && sought == SoughtAt(view.out)
    {
      if track != view.plan.track.id || outTarget < 0 {
        return BadSeek;
      }
      var ws := view.plan.windows;
      var outStart := 0;
      var i := 0;
      while i < |ws|
        invariant 0 <= i <= |ws|
        invariant WindowFor(ws, i, outStart, outTarget) == WindowFor(ws, 0, 0, outTarget)
        invariant view.At() == old(view.At()) && view.next == old(view.next)
      {
        var w := ws[i];
        if w.to < 0 {
          break;
        }
        var wlen := w.to - w.from;
        if outTarget < outStart + wlen {
          break;
        }
        outStart := outStart + wlen;
        i := i + 1;
      }
      if i == |ws| {
        view.cur, view.pos, view.out, view.prevPad := |ws|, 0, outTarget, 0;
        view.outRaw := view.out;
        return SoughtAt(outTarget);
      }
      var w := ws[i];
      var asked := DeliveredPos(w.from + (outTarget - outStart));
      var landing := seek(asked);
      if landing.NotLanded? {
        return SeekFailed;
      }
      var landed := RawPos(landing.at);
      view.next := landing.next;
      view.cur, view.pos := i, landed;
      view.out := outStart + Max(0, landed - w.from);
      view.outRaw := view.out;
      view.havePrev := false;
      return SoughtAt(view.out);
    }
  }

  // ----- Where a seek lands the walk -----

  lemma {:induction false} WindowForAhead(l: Layout, i: nat, target: int)
    requires l.Sound() && i <= l.N() && l.Ahead(i) <= target
    ensures var (j, outStart) := WindowFor(l.plan.windows, i, l.Ahead(i), target);
      && outStart == l.Ahead(j) <= target
      && (j < l.N() ==> l.To(j) < 0 || l.From(j) + (target - outStart) < l.To(j))
    decreases l.N() - i
  {
    if i < l.N() {
      assert l.WindowSound(i);
      if l.To(i) >= 0 && target >= l.Ahead(i) + (l.To(i) - l.From(i)) {
        assert l.Ahead(i + 1) == l.Ahead(i) + (l.To(i) - l.From(i));
        WindowForAhead(l, i + 1, target);
      }
    }
  }

  /** Packet starts round-trip between the raw timeline and the delivered one, and keep their order on the way back. */
  lemma StartsRoundTrip(trims: seq<PacketTrim>, g: int, q: int, r: int)
    requires Placed(trims, g) && PartialTrims(trims, g) && OnGrid(q, g) && OnGrid(r, g)
    ensures RawOf(trims, 0, TrackOf(trims, 0, q)) == q
    ensures TrackOf(trims, 0, q) <= TrackOf(trims, 0, r) <==> q <= r
  {
    StartIsHeard(trims, g, q);
    StartIsHeard(trims, g, r);
    RawOfIsTheSample(trims, g, 0, TrackOf(trims, 0, q), q);
    GridIsClear(trims, g, q);
    GridIsClear(trims, g, r);
    if q <= r {
      HeardMonotone(trims, g, q, r);
    } else {
      HeardMonotone(trims, g, r, q);
    }
  }

  /** The raw position of the k-th packet of a source. */
  function PosAt(track: int, pkts: seq<Packet>, k: nat): int
    requires k <= |pkts|
  {
    if k == 0 then 0 else PosAt(track, pkts, k - 1) + if pkts[k - 1].track == track then pkts[k - 1].dur else 0
  }

  /** A landing is at a packet of the track, at or before what was asked. */
  ghost predicate LandsBy(trims: seq<PacketTrim>, track: int, pkts: seq<Packet>, landing: Landing, asked: int) {
    && landing.Landed? && landing.next < |pkts| && pkts[landing.next].track == track
    && landing.at == TrackOf(trims, 0, PosAt(track, pkts, landing.next)) && landing.at <= asked
  }

  lemma {:induction false} GridFrom(l: Layout, s: Source, pkts: seq<Packet>, k: nat)
    requires l.Sound() && Matches(l, s) && GridPackets(l, s, pkts, 0) && k <= |pkts|
    ensures var p := PosAt(l.plan.track.id, pkts, k); GridPackets(l, s, pkts[k..], p) && AtPacket(l, s, p)
  {
    if k == 0 {
      assert pkts[0..] == pkts;
    } else {
      GridFrom(l, s, pkts, k - 1);
      assert pkts[k - 1..][1..] == pkts[k..];
      var p, pkt := PosAt(l.plan.track.id, pkts, k - 1), pkts[k - 1];
      assert pkts[k - 1..][0] == pkt;
      if pkt.track == l.plan.track.id {
        PacketEnd(l, s, p, p + pkt.dur);
      }
    }
  }

  // ----- The walk from there -----

  /** The segmented walk's skip: packets are passed over until their position reaches p0. */
  function SkipTo(pos: int, p0: int, pkts: seq<Packet>): seq<Packet>
    decreases |pkts|
  {
    if |pkts| == 0 || pos >= p0 then pkts else SkipTo(pos + pkts[0].dur, p0, pkts[1..])
  }

  /** What is left of a source at raw position p from its track's packet at raw position r on. */
  function RestAt(track: int, pkts: seq<Packet>, p: int, r: int): seq<Packet>
    decreases |pkts|
  {
    if |pkts| == 0 then []
    else if pkts[0].track != track then RestAt(track, pkts[1..], p, r)
    else if p == r then pkts
    else RestAt(track, pkts[1..], p + pkts[0].dur, r)
  }

  lemma {:induction false} AheadMonotone(l: Layout, i: nat, j: nat)
    requires l.Sound() && i <= j < l.N()
    ensures 0 <= l.Ahead(i) <= l.Ahead(j)
    decreases j
  {
    if i < j {
      AheadMonotone(l, i, j - 1);
      assert l.WindowSound(j - 1);
    } else if i > 0 {
      AheadMonotone(l, 0, i - 1);
      assert l.WindowSound(i - 1);
    }
  }

  lemma {:induction false} EmittedAdvances(l: Layout, s: Source, c: nat, pkts: seq<Packet>, p: int, out: int)
    requires l.g > 0 && |l.tails| == |l.heads| == l.N() && c <= l.N()
    ensures Emitted(l, s, c, pkts, p, out) == Emitted(l, s, Advance(l.plan.windows, c, p), pkts, p, out)
    decreases |pkts|
  {
    if |pkts| > 0 && pkts[0].track != l.plan.track.id {
      EmittedAdvances(l, s, c, pkts[1..], p, out);
    }
  }

  /** A cut without inner trims gives every packet but the last kept one no trim. */
  lemma UntrimmedInside(l: Layout, s: Source, j: nat, p: int, e: int)
    requires l.Sound() && Matches(l, s) && l.plan.track.midTrims == [] && AtPacket(l, s, p) && p < s.total
    requires e == p + Min(l.g, s.total - p) && j < l.N() && l.From(j) < e && (l.To(j) >= 0 ==> e <= l.To(j))
    requires e < s.total && !(j == l.N() - 1 && e == l.To(j))
    ensures PadOf(l, s, j, e) == 0
  {
    PadIs(l, s, j, p, e);
    PacketEnd(l, s, p, e);
    assert l.LooksUp(j);
    assert l.StatedPad(j, e) == l.PlannedPad(j, e);
    assert l.WindowSound(j);
    PadsAreZero(l, s, j, e);
  }

  lemma PadsAreZero(l: Layout, s: Source, j: nat, e: int)
    requires l.Sound() && j < l.N() && l.PlannedPad(j, e) == 0 && e < s.total && !(j == l.N() - 1 && e == l.To(j))
    requires OnGrid(e, l.g)
    ensures PadOf(l, s, j, e) == 0
  {
  }

  /** Wherever the walk stands at or before the target, skipping to it leaves what a walk standing there hands on. */
  lemma {:induction false} SkipReaches(l: Layout, s: Source, c: nat, pkts: seq<Packet>, p: int, out: int, i: nat,
      r: int, p0: int)
    requires l.Sound() && Matches(l, s) && l.plan.track.midTrims == []
    requires GridPackets(l, s, pkts, p) && AtPacket(l, s, p) && c <= i < l.N() && p <= r < s.total
    requires OnGrid(r, l.g) && l.From(i) <= r && (l.To(i) < 0 || r < l.To(i)) && p0 == l.Ahead(i) + r - l.From(i)
    requires out == OutAt(l, Advance(l.plan.windows, c, p), p)
    ensures SkipTo(out, p0, Emitted(l, s, c, pkts, p, out)) ==
        Emitted(l, s, i, RestAt(l.plan.track.id, pkts, p, r), r, p0)
    decreases |pkts|
  {
    WindowReached(l, c, i, p, r);
    var pkt, rest := pkts[0], pkts[1..];
    if pkt.track != l.plan.track.id {
      SkipReaches(l, s, c, rest, p, out, i, r, p0);
    } else if p == r {
      EmittedAdvances(l, s, c, pkts, p, out);
    } else {
      var j, e := Advance(l.plan.windows, c, p), p + pkt.dur;
      PacketEnd(l, s, p, e);
      GridGap(p, r, l.g);
      var next := if e <= l.From(j) then out else out + pkt.dur;
      SkipStep(l, s, c, pkts, p, out, i, r, p0, next);
      SkipReaches(l, s, j, rest, e, next, i, r, p0);
    }
  }

  /** One packet before the target: a gap's leaves the walk's output where it is, a kept one is passed over. */
  lemma SkipStep(l: Layout, s: Source, c: nat, pkts: seq<Packet>, p: int, out: int, i: nat, r: int, p0: int, next: int)
    requires l.Sound() && Matches(l, s) && l.plan.track.midTrims == []
    requires GridPackets(l, s, pkts, p) && AtPacket(l, s, p) && c <= i < l.N() && p < r < s.total
    requires l.From(i) <= r && (l.To(i) < 0 || r < l.To(i)) && p0 == l.Ahead(i) + r - l.From(i)
    requires |pkts| > 0 && pkts[0].track == l.plan.track.id && p + pkts[0].dur <= r
    requires out == OutAt(l, Advance(l.plan.windows, c, p), p)
    requires next == if p + pkts[0].dur <= l.From(Advance(l.plan.windows, c, p)) then out else out + pkts[0].dur
    ensures var j, e := Advance(l.plan.windows, c, p), p + pkts[0].dur;
      && next == OutAt(l, Advance(l.plan.windows, j, e), e)
      && SkipTo(out, p0, Emitted(l, s, c, pkts, p, out)) == SkipTo(next, p0, Emitted(l, s, j, pkts[1..], e, next))
  {
    var pkt, rest, j, e := pkts[0], pkts[1..], Advance(l.plan.windows, c, p), p + pkts[0].dur;
    PacketEnd(l, s, p, e);
    WindowReached(l, c, i, p, r);
    if e <= l.From(j) {
      GapKeepsOut(l, j, p, e);
    } else {
      KeptStep(l, s, j, i, p, e, r, out, p0);
      var first, after := pkt.(padding := 0, lost := 0, pts := out), Emitted(l, s, j, rest, e, out + pkt.dur);
      assert Emitted(l, s, c, pkts, p, out) == [first] + after;
      SkipPasses(out, p0, first, after);
    }
  }

  lemma KeptStep(l: Layout, s: Source, j: nat, i: nat, p: int, e: int, r: int, out: int, p0: int)
    requires l.Sound() && Matches(l, s) && l.plan.track.midTrims == [] && AtPacket(l, s, p) && p < e <= r < s.total
    requires e == p + Min(l.g, s.total - p) && j <= i < l.N() && (l.To(j) < 0 || p < l.To(j)) && l.From(j) < e
    requires l.From(i) <= r && (l.To(i) < 0 || r < l.To(i)) && p0 == l.Ahead(i) + r - l.From(i) && out == OutAt(l, j, p)
    ensures PadOf(l, s, j, e) == 0 && out < p0 && OutAt(l, Advance(l.plan.windows, j, e), e) == out + e - p
  {
    PacketFits(l, s, j, p, e);
    KeepMovesOut(l, j, p, e);
    UntrimmedInside(l, s, j, p, e);
    BeforeTarget(l, j, i, p, r, out, p0);
  }

  lemma SkipPasses(pos: int, p0: int, first: Packet, rest: seq<Packet>)
    requires pos < p0
    ensures SkipTo(pos, p0, [first] + rest) == SkipTo(pos + first.dur, p0, rest)
  {
    assert ([first] + rest)[1..] == rest;
  }

  /** The first window not behind p is not past the target's, and is the target's at the target. */
  lemma WindowReached(l: Layout, c: nat, i: nat, p: int, r: int)
    requires l.Sound() && c <= i < l.N() && p <= r && l.From(i) <= r && (l.To(i) < 0 || r < l.To(i))
    ensures var j := Advance(l.plan.windows, c, p);
      j <= i && (p == r ==> j == i) && (j < i ==> l.To(j) <= l.From(i)) && (l.To(j) < 0 || p < l.To(j))
  {
    var j := Advance(l.plan.windows, c, p);
    if j < i {
      assert l.WindowSound(j) && l.To(j) <= l.From(i);
    }
  }

  lemma BeforeTarget(l: Layout, j: nat, i: nat, p: int, r: int, out: int, p0: int)
    requires l.Sound() && j <= i < l.N() && p < r && l.From(j) <= p && (l.To(j) < 0 || p < l.To(j))
    requires out == l.Ahead(j) + p - l.From(j) && l.From(i) <= r && p0 == l.Ahead(i) + r - l.From(i)
    ensures out < p0
  {
    if j < i {
      assert l.WindowSound(j);
      AheadMonotone(l, j + 1, i);
    }
  }

  // ----- Past the last packet -----

  function Durations(pkts: seq<Packet>): int { if |pkts| == 0 then 0 else pkts[0].dur + Durations(pkts[1..]) }

  lemma {:induction false} SkipsAll(pos: int, p0: int, pkts: seq<Packet>)
    requires (forall k :: 0 <= k < |pkts| ==> pkts[k].dur > 0) && pos + Durations(pkts) <= p0
    ensures SkipTo(pos, p0, pkts) == []
    decreases |pkts|
  {
    if |pkts| > 0 {
      DurationsPositive(pkts[1..]);
      SkipsAll(pos + pkts[0].dur, p0, pkts[1..]);
    }
  }

  lemma {:induction false} DurationsPositive(pkts: seq<Packet>)
    requires forall k :: 0 <= k < |pkts| ==> pkts[k].dur > 0
    ensures Durations(pkts) >= 0
  {
    if |pkts| > 0 {
      DurationsPositive(pkts[1..]);
    }
  }

  lemma OneLonger(pkt: Packet, rest: seq<Packet>)
    requires pkt.dur > 0 && forall k :: 0 <= k < |rest| ==> rest[k].dur > 0
    ensures forall k :: 0 <= k < |rest| + 1 ==> ([pkt] + rest)[k].dur > 0
    ensures Durations([pkt] + rest) == pkt.dur + Durations(rest)
  {
    assert ([pkt] + rest)[1..] == rest;
  }

  /** The walk moves the output to where the source's end puts it. */
  lemma {:induction false} EmittedLength(l: Layout, s: Source, c: nat, pkts: seq<Packet>, p: int, out: int)
    requires l.Sound() && Matches(l, s) && GridPackets(l, s, pkts, p) && AtPacket(l, s, p) && c <= l.N()
    ensures var e := Emitted(l, s, c, pkts, p, out);
      && (forall k :: 0 <= k < |e| ==> e[k].dur > 0)
      && Durations(e) ==
          OutAt(l, Advance(l.plan.windows, c, s.total), s.total) - OutAt(l, Advance(l.plan.windows, c, p), p)
    decreases |pkts|
  {
    if |pkts| == 0 || c == l.N() {
    } else if pkts[0].track != l.plan.track.id {
      EmittedLength(l, s, c, pkts[1..], p, out);
    } else {
      var pkt, rest, i := pkts[0], pkts[1..], Advance(l.plan.windows, c, p);
      var e := p + pkt.dur;
      PacketEnd(l, s, p, e);
      AdvanceOn(l.plan.windows, c, p, s.total);
      if i == l.N() {
      } else if e <= l.From(i) {
        GapKeepsOut(l, i, p, e);
        EmittedLength(l, s, i, rest, e, out);
      } else {
        var pad := PadOf(l, s, i, e);
        PacketFits(l, s, i, p, e);
        KeepMovesOut(l, i, p, e);
        var on := out + pkt.dur - pad;
        EmittedLength(l, s, i, rest, e, on);
        OneLonger(pkt.(padding := pad, lost := 0, pts := out), Emitted(l, s, i, rest, e, on));
      }
    }
  }

  /** A target at or past the end of the packets is at or past the end of the output. */
  lemma TargetPastEnd(l: Layout, s: Source, c: nat, i: nat, p0: int)
    requires l.Sound() && Matches(l, s) && c <= i <= l.N() && l.Ahead(i) <= p0 && (i < l.N() ==> c < l.N())
    requires if i == l.N() then l.To(l.N() - 1) >= 0
        else i == l.N() - 1 && p0 >= l.Ahead(i) + Max(0, s.total - l.From(i))
    ensures OutAt(l, Advance(l.plan.windows, c, s.total), s.total) <= p0
  {
    var j, last := Advance(l.plan.windows, c, s.total), l.N() - 1;
    assert l.WindowSound(last);
    NotInside(l, s, c, j);
    if j == last && i < l.N() {
      assert OutAt(l, j, s.total) == l.Ahead(i) + Max(0, s.total - l.From(i));
    }
  }

  /** The packets reach past every window but the last. */
  lemma NotInside(l: Layout, s: Source, c: nat, j: nat)
    requires l.Sound() && Matches(l, s) && c <= l.N() && j == Advance(l.plan.windows, c, s.total)
    ensures j >= l.N() - 1
  {
    if j < l.N() - 1 {
      assert l.WindowSound(j);
      InnerEnd(l, s, j);
    }
  }

  // ----- The restart -----

  lemma {:induction false} RestFrom(l: Layout, s: Source, pkts: seq<Packet>, k: nat, r: int)
    requires l.Sound() && Matches(l, s) && GridPackets(l, s, pkts, 0) && k <= |pkts| &&
        PosAt(l.plan.track.id, pkts, k) <= r
    ensures RestAt(l.plan.track.id, pkts[k..], PosAt(l.plan.track.id, pkts, k), r) ==
        RestAt(l.plan.track.id, pkts, 0, r)
  {
    if k == 0 {
      assert pkts[0..] == pkts;
    } else {
      GridFrom(l, s, pkts, k - 1);
      assert pkts[k - 1..][1..] == pkts[k..] && pkts[k - 1..][0] == pkts[k - 1];
      var p := PosAt(l.plan.track.id, pkts, k - 1);
      if pkts[k - 1].track == l.plan.track.id {
        PacketEnd(l, s, p, p + pkts[k - 1].dur);
      }
      RestFrom(l, s, pkts, k - 1, r);
    }
  }

  /** A landing at a packet start, at or before the target's own source position. */
  lemma LandingBefore(l: Layout, s: Source, pkts: seq<Packet>, landing: Landing, r: int)
    requires l.Sound() && Matches(l, s) && GridPackets(l, s, pkts, 0) && PartialTrims(l.plan.trims, l.g) &&
        OnGrid(r, l.g)
    requires LandsBy(l.plan.trims, l.plan.track.id, pkts, landing, TrackOf(l.plan.trims, 0, r))
    ensures var q := PosAt(l.plan.track.id, pkts, landing.next);
      && RawOf(l.plan.trims, 0, landing.at) == q <= r && q < s.total && OnGrid(q, l.g)
      && AtPacket(l, s, q) && GridPackets(l, s, pkts[landing.next..], q)
  {
    var q := PosAt(l.plan.track.id, pkts, landing.next);
    GridFrom(l, s, pkts, landing.next);
    assert pkts[landing.next..][0] == pkts[landing.next];
    StartsRoundTrip(l.plan.trims, l.g, q, r);
  }

  /** The walk a seek leaves the view in. */
  lemma SeekInStep(l: Layout, s: Source, v: View, target: int, at: int, i: nat, q: int)
    requires l.Sound() && Matches(l, s) && target >= 0 && i == WindowFor(l.plan.windows, 0, 0, target).0 < l.N()
    requires q == RawOf(l.plan.trims, 0, at) && AtPacket(l, s, q) && q <= l.From(i) + (target - l.Ahead(i))
    ensures var v' := Repositioned(l.plan, v, target, at);
      && InStep(l, s, v', q) && v'.cur == i && v'.out == OutAt(l, Advance(l.plan.windows, i, q), q) <= target
  {
    WindowForAhead(l, 0, target);
    assert Advance(l.plan.windows, i, q) == i;
  }

  /** The index and the window a restart resumes at. */
  function Resumed(l: Layout, landing: Landing, p0: int): (r: (nat, int)) {
    if WindowFor(l.plan.windows, 0, 0, p0).0 == l.N() || landing.NotLanded? then (0, 0) else (landing.next, landing.at)
  }

  /** A target inside the windows needs a landing at a packet at or before it; one past them needs none. */
  ghost predicate Resumes(l: Layout, pkts: seq<Packet>, landing: Landing, p0: int) {
    WindowFor(l.plan.windows, 0, 0, p0).0 < l.N() ==>
      LandsBy(l.plan.trims, l.plan.track.id, pkts, landing, Asked(l.plan, p0))
  }

  /** A restarted segmented cut is the suffix of a continuous one: for a target on the output's grid and a landing on
      any packet at or before it - in its window, in a gap, even windows earlier - the restarted walk, once its packets
      before the target are skipped, hands on exactly the packets, times and trims the walk from the top does from
      there. */
  lemma RestartIsSuffix(l: Layout, s: Source, damaged: bool, v: View, pkts: seq<Packet>, p0: int, landing: Landing)
    requires l.Sound() && Matches(l, s) && GridPackets(l, s, pkts, 0)
    requires l.plan.track.midTrims == [] && PartialTrims(l.plan.trims, l.g) && OnGrid(p0, l.g)
    requires Resumes(l, pkts, landing, p0)
    ensures var (next, at) := Resumed(l, landing, p0);
      var v' := Repositioned(l.plan, v, p0, at);
      && next <= |pkts| && v'.cur <= l.N() && v'.out <= p0
      && Walk(l.plan, damaged, v', pkts[next..]).1 == Eof && Walk(l.plan, damaged, Start, pkts).1 == Eof
      && SkipTo(v'.out, p0, Walk(l.plan, damaged, v', pkts[next..]).0) ==
          SkipTo(0, p0, Walk(l.plan, damaged, Start, pkts).0)
  {
    LinearWalk(l, s, damaged, pkts);
    if WindowFor(l.plan.windows, 0, 0, p0).0 == l.N() {
      PastEveryWindow(l, s, pkts, p0);
    } else {
      LandedRestart(l, s, damaged, v, pkts, p0, landing, WindowFor(l.plan.windows, 0, 0, p0).0);
    }
  }

  lemma PastEveryWindow(l: Layout, s: Source, pkts: seq<Packet>, p0: int)
    requires l.Sound() && Matches(l, s) && GridPackets(l, s, pkts, 0) && p0 >= 0
    requires WindowFor(l.plan.windows, 0, 0, p0).0 == l.N()
    ensures SkipTo(0, p0, Emitted(l, s, 0, pkts, 0, 0)) == []
  {
    WindowForAhead(l, 0, p0);
    LastWindowBounded(l.plan.windows, 0, 0, p0);
    assert l.WindowSound(0) && Advance(l.plan.windows, 0, 0) == 0;
    NothingFrom(l, s, 0, pkts, 0, 0, l.N(), p0);
  }

  lemma LandedRestart(l: Layout, s: Source, damaged: bool, v: View, pkts: seq<Packet>, p0: int, landing: Landing,
      i: nat)
    requires l.Sound() && Matches(l, s) && GridPackets(l, s, pkts, 0)
    requires l.plan.track.midTrims == [] && PartialTrims(l.plan.trims, l.g) && OnGrid(p0, l.g)
    requires i == WindowFor(l.plan.windows, 0, 0, p0).0 < l.N()
    requires LandsBy(l.plan.trims, l.plan.track.id, pkts, landing, Asked(l.plan, p0))
    ensures var v', rest := Repositioned(l.plan, v, p0, landing.at), pkts[landing.next..];
      && v'.cur == i && v'.out <= p0 && Walk(l.plan, damaged, v', rest).1 == Eof
      && SkipTo(v'.out, p0, Walk(l.plan, damaged, v', rest).0) == SkipTo(0, p0, Emitted(l, s, 0, pkts, 0, 0))
  {
    WindowForAhead(l, 0, p0);
    var r := l.From(i) + (p0 - l.Ahead(i));
    TargetOnGrid(l, i, p0);
    LandingBefore(l, s, pkts, landing, r);
    var q := PosAt(l.plan.track.id, pkts, landing.next);
    SeekInStep(l, s, v, p0, landing.at, i, q);
    var v' := Repositioned(l.plan, v, p0, landing.at);
    WalkIsEmitted(l, s, damaged, v', pkts[landing.next..], q);
    SameSuffix(l, s, pkts, landing.next, i, r, p0, v'.out);
  }

  lemma LinearWalk(l: Layout, s: Source, damaged: bool, pkts: seq<Packet>)
    requires l.Sound() && Matches(l, s) && GridPackets(l, s, pkts, 0)
    ensures Walk(l.plan, damaged, Start, pkts) == (Emitted(l, s, 0, pkts, 0, 0), Eof)
    ensures OutAt(l, Advance(l.plan.windows, 0, 0), 0) == 0
  {
    assert l.WindowSound(0);
    assert Advance(l.plan.windows, 0, 0) == 0;
    WalkIsEmitted(l, s, damaged, Start, pkts, 0);
  }

  lemma {:induction false} LastWindowBounded(ws: seq<Window>, i: nat, outStart: int, target: int)
    requires i < |ws| && WindowFor(ws, i, outStart, target).0 == |ws|
    ensures ws[|ws| - 1].to >= 0
    decreases |ws| - i
  {
    if i + 1 < |ws| {
      LastWindowBounded(ws, i + 1, outStart + (ws[i].to - ws[i].from), target);
    }
  }

  lemma {:induction false} TargetOnGrid(l: Layout, i: nat, p0: int)
    requires l.Sound() && i < l.N() && OnGrid(p0, l.g) && l.Ahead(i) <= p0
    ensures OnGrid(l.Ahead(i), l.g) && OnGrid(l.From(i) + (p0 - l.Ahead(i)), l.g)
  {
    assert l.WindowSound(i);
    if i > 0 {
      assert l.WindowSound(i - 1);
      AheadMonotone(l, i - 1, i);
      TargetOnGrid(l, i - 1, p0);
      SumOnGrid(l.To(i - 1), l.From(i - 1), l.g);
      SumOnGrid(l.Ahead(i - 1), l.To(i - 1) - l.From(i - 1), l.g);
    }
    SumOnGrid(p0, l.Ahead(i), l.g);
    SumOnGrid(l.From(i), p0 - l.Ahead(i), l.g);
  }

  /** Nothing the walk hands on from here is at or past the target. */
  lemma NothingFrom(l: Layout, s: Source, c: nat, pkts: seq<Packet>, p: int, out: int, i: nat, p0: int)
    requires l.Sound() && Matches(l, s) && GridPackets(l, s, pkts, p) && AtPacket(l, s, p)
    requires c <= i <= l.N() && l.Ahead(i) <= p0 && (i < l.N() ==> c < l.N())
    requires if i == l.N() then l.To(l.N() - 1) >= 0
        else i == l.N() - 1 && p0 >= l.Ahead(i) + Max(0, s.total - l.From(i))
    requires out == OutAt(l, Advance(l.plan.windows, c, p), p)
    ensures SkipTo(out, p0, Emitted(l, s, c, pkts, p, out)) == []
  {
    EmittedLength(l, s, c, pkts, p, out);
    TargetPastEnd(l, s, c, i, p0);
    SkipsAll(out, p0, Emitted(l, s, c, pkts, p, out));
  }

  lemma SameSuffix(l: Layout, s: Source, pkts: seq<Packet>, k: nat, i: nat, r: int, p0: int, out: int)
    requires l.Sound() && Matches(l, s) && GridPackets(l, s, pkts, 0) && l.plan.track.midTrims == [] && k <= |pkts| &&
        i < l.N()
    requires OnGrid(r, l.g) && l.From(i) <= r && (l.To(i) < 0 || r < l.To(i)) && p0 == l.Ahead(i) + r - l.From(i)
    requires var q := PosAt(l.plan.track.id, pkts, k);
      && q <= r && AtPacket(l, s, q) && GridPackets(l, s, pkts[k..], q) &&
          out == OutAt(l, Advance(l.plan.windows, i, q), q)
    ensures SkipTo(out, p0, Emitted(l, s, i, pkts[k..], PosAt(l.plan.track.id, pkts, k), out))
         == SkipTo(0, p0, Emitted(l, s, 0, pkts, 0, 0))
  {
    var q := PosAt(l.plan.track.id, pkts, k);
    assert l.WindowSound(0) && l.WindowSound(i) && Advance(l.plan.windows, 0, 0) == 0;
    AheadMonotone(l, 0, i);
    if r < s.total {
      SkipReaches(l, s, 0, pkts, 0, 0, i, r, p0);
      SkipReaches(l, s, i, pkts[k..], q, out, i, r, p0);
      RestFrom(l, s, pkts, k, r);
    } else {
      if i < l.N() - 1 {
        InnerEnd(l, s, i);
      }
      NothingFrom(l, s, 0, pkts, 0, 0, i, p0);
      NothingFrom(l, s, i, pkts[k..], q, out, i, p0);
    }
  }
}
