/** Plan and trailer agree: a copy of the walked packets settles to the length, delay and padding the plan stated. */
module CutTrailer {
  import opened Container
  import opened CutTimeline
  import opened CutPlan
  import opened CutWalk
  import opened Listening
  import opened GridSource
  import opened CutLayout
  import opened CutContent
  import opened CutCopy
  import opened CutLength
  import opened CutListening
  import opened CutLaws
  import opened Remux

  /** Where the last packet a walk hands on ends. */
  function LastEnd(l: Layout, s: Source): int
    requires l.N() > 0
  {
    if l.To(l.N() - 1) < 0 then s.total else Min(l.To(l.N() - 1), s.total)
  }

  /** The walk hands on a last packet, the one ending there, with that packet's own trim. */
  lemma {:induction false} EmittedLast(l: Layout, s: Source, c: nat, pkts: seq<Packet>, p: int, out: int)
    requires l.Sound() && Matches(l, s) && GridPackets(l, s, pkts, p) && AtPacket(l, s, p) && c < l.N() &&
        p < LastEnd(l, s)
    ensures var walked := Emitted(l, s, c, pkts, p, out);
      |walked| > 0 && walked[|walked| - 1].padding == OwnPad(l, s, LastEnd(l, s))
    decreases |pkts|
  {
    var pkt, rest := pkts[0], pkts[1..];
    if pkt.track != l.plan.track.id {
      EmittedLast(l, s, c, rest, p, out);
    } else {
      var i, e := Advance(l.plan.windows, c, p), p + pkt.dur;
      PacketEnd(l, s, p, e);
      NotPastLast(l, s, c, p, e);
      if e < LastEnd(l, s) {
        EmittedLast(l, s, i, rest, e, if e <= l.From(i) then out else out + pkt.dur - PadOf(l, s, i, e));
      } else {
        LastPad(l, s, e);
        NothingLeft(l, s, i, rest, e, out + pkt.dur - PadOf(l, s, i, e));
      }
    }
  }

  lemma NotPastLast(l: Layout, s: Source, c: nat, p: int, e: int)
    requires l.Sound() && Matches(l, s) && AtPacket(l, s, p) && c < l.N() && p < LastEnd(l, s)
    requires e == p + Min(l.g, s.total - p)
    ensures var i := Advance(l.plan.windows, c, p);
      i < l.N() && e <= LastEnd(l, s) && (e == LastEnd(l, s) ==> i == l.N() - 1 && l.From(i) < e)
  {
    var i, last := Advance(l.plan.windows, c, p), l.N() - 1;
    assert l.WindowSound(last);
    PacketEnd(l, s, p, e);
    if l.To(last) >= 0 && l.To(last) < s.total && l.To(last) < e {
      GridGap(p, l.To(last), l.g);
    }
    if i < last {
      assert l.WindowSound(i) && l.To(i) <= l.From(last);
      if l.To(i) < e {
        GridGap(p, l.To(i), l.g);
      }
    }
  }

  lemma LastPad(l: Layout, s: Source, e: int)
    requires l.Sound() && Matches(l, s) && e == LastEnd(l, s)
    ensures PadOf(l, s, l.N() - 1, e) == OwnPad(l, s, e)
  {
    assert l.WindowSound(l.N() - 1);
  }

  // ----- The balance of the last window -----

  /** The last window's audio ends within it, at or past its head. */
  lemma LastBody(l: Layout, s: Source)
    requires l.Sound() && Matches(l, s)
    ensures var i := l.N() - 1; l.heads[i] <= BodyEnd(l, s, i) && l.heads[i] < LastEnd(l, s)
  {
    var i := l.N() - 1;
    assert l.WindowSound(i);
    if s.last < l.heads[i] {
      GridGap(s.last, l.heads[i], l.g);
    }
  }

  /** What the last packet decodes past the audio is what its trim drops. */
  lemma LastBalance(l: Layout, s: Source, k: nat)
    requires l.Sound() && Matches(l, s) && k <= |l.plan.trims|
    requires CountedTrims(l.plan.trims, k, LastEnd(l, s))
    ensures Heard(l.plan.trims, BodyEnd(l, s, l.N() - 1)) + OwnPad(l, s, LastEnd(l, s)) ==
        LastEnd(l, s) - SumTo(l.plan.trims, k)
  {
    if LastEnd(l, s) == s.total {
      EndBalance(l, s, k);
    } else {
      LastBodyIs(l, s);
      BoundaryBalance(l.plan.trims, l.g, LastEnd(l, s), k);
    }
  }

  lemma EndBalance(l: Layout, s: Source, k: nat)
    requires l.Sound() && Matches(l, s) && k <= |l.plan.trims| && LastEnd(l, s) == s.total
    requires CountedTrims(l.plan.trims, k, LastEnd(l, s))
    ensures Heard(l.plan.trims, BodyEnd(l, s, l.N() - 1)) + OwnPad(l, s, LastEnd(l, s)) ==
        LastEnd(l, s) - SumTo(l.plan.trims, k)
  {
    assert l.WindowSound(l.N() - 1);
    BeforeIs(l.plan.trims, l.g, s.total - s.finalPad, |l.plan.trims|);
    assert k == |l.plan.trims|;
  }

  lemma LastBodyIs(l: Layout, s: Source)
    requires l.Sound() && Matches(l, s) && LastEnd(l, s) != s.total
    ensures BodyEnd(l, s, l.N() - 1) == LastEnd(l, s) &&
        OwnPad(l, s, LastEnd(l, s)) == TrimAt(l.plan.trims, LastEnd(l, s))
  {
    var e := LastEnd(l, s);
    assert l.WindowSound(l.N() - 1);
    if s.last < e {
      GridGap(s.last, e, l.g);
    }
  }

  lemma BoundaryBalance(trims: seq<PacketTrim>, g: int, e: int, k: nat)
    requires Placed(trims, g) && k <= |trims|
    requires CountedTrims(trims, k, e)
    ensures Heard(trims, e) + TrimAt(trims, e) == e - SumTo(trims, k)
  {
    if k < |trims| && trims[k].End() == e {
      TrimAtIs(trims, e, k);
      BeforeIs(trims, g, e, k + 1);
    } else {
      TrimAtNone(trims, e);
      BeforeIs(trims, g, e, k);
    }
  }

  lemma LastEndIs(c: Cut, l: Layout, s: Source, last: nat)
    requires 0 < c.N() == |c.spans| && c.g > 0 && l == LayoutOf(c) && last == c.N() - 1
    requires !c.open ==> c.at[last].su >= 0
    ensures LastEnd(l, s) == if c.open then s.total else Min(c.at[last].su, s.total)
  {
    assert l.plan.windows == c.Windows() && l.plan.windows[last] == c.WindowOf(last);
  }

  /** The trims the cut counts are those ending before its last packet does. */
  ghost predicate CountedTrims(trims: seq<PacketTrim>, k: nat, end: int) {
    && k <= |trims| && (forall j :: 0 <= j < k ==> trims[j].End() < end)
    && (forall j :: k <= j < |trims| ==> end <= trims[j].End())
  }

  lemma TrimsBeforeLast(c: Cut, s: Source, last: nat, end: int, k: nat)
    requires c.Laid() && TrimsCovered(c.track) && !c.UnknownEnd() && s.last < s.total && last == c.N() - 1
    requires forall j :: 0 <= j < |c.track.midTrims| ==> c.track.midTrims[j].End() <= s.last
    requires end == if c.open then s.total else Min(c.at[last].su, s.total)
    requires k == Before(c.track.midTrims, c.at[last].dt)
    ensures CountedTrims(c.track.midTrims, k, end)
  {
    var b := c.at[last];
    assert c.TailLaid(last);
    if c.open {
      TrimsBeforeOpen(c, k);
    } else {
      TrimsBeforeClosed(c.track.midTrims, c.g, b, s, k);
    }
  }

  lemma TrimsBeforeClosed(trims: seq<PacketTrim>, g: int, b: Bounds, s: Source, k: nat)
    requires Placed(trims, g) && !Inside(trims, b.dt - 1) && OnGrid(b.su, g) && b.dt <= b.su < b.dt + g &&
        k == Before(trims, b.dt)
    requires s.last < s.total && forall j :: 0 <= j < |trims| ==> trims[j].End() <= s.last
    ensures CountedTrims(trims, k, Min(b.su, s.total))
  {
    TrimsAroundTail(trims, g, b.dt, b.su, k);
  }

  lemma TrimsAroundTail(trims: seq<PacketTrim>, g: int, dt: int, su: int, k: nat)
    requires Placed(trims, g) && !Inside(trims, dt - 1) && OnGrid(su, g) && dt <= su < dt + g && k == Before(trims, dt)
    ensures forall j :: 0 <= j < k ==> trims[j].End() < dt
    ensures forall j :: k <= j < |trims| ==> su <= trims[j].End()
  {
    BeforeSplits(trims, g, dt);
    forall j | 0 <= j < k
      ensures trims[j].End() < dt
    {
      NotAnEnd(trims, g, dt, j);
    }
    forall j | k <= j < |trims|
      ensures su <= trims[j].End()
    {
      GridGap2(su, trims[j].End(), g, dt);
    }
  }

  lemma GridGap2(su: int, x: int, g: int, dt: int)
    requires g > 0 && OnGrid(su, g) && OnGrid(x, g) && dt <= su < dt + g && dt < x
    ensures su <= x
  {
    if x < su {
      GridGap(x, su, g);
    }
  }

  lemma TrimsBeforeOpen(c: Cut, k: nat)
    requires c.Laid() && TrimsCovered(c.track) && !c.UnknownEnd() && c.open
    requires k == Before(c.track.midTrims, c.at[c.N() - 1].dt)
    ensures k == |c.track.midTrims|
  {
    var trims, i, b := c.track.midTrims, c.N() - 1, c.at[c.N() - 1];
    assert c.TailLaid(i);
    if k < |trims| && !c.LastToEnd() {
      var e :| OnGrid(e, c.g) && b.dt <= e < b.dt + c.g && b.su < e;
      if trims[k].End() < e {
        GridGap(trims[k].End(), e, c.g);
      }
    }
  }

  // ----- The lengths -----

  /** The last window's packets play its audio and the slop the plan pads with, less however far they fall short of the
      plan's end. */
  lemma LastNet(c: Cut, l: Layout, s: Source, last: nat, end: int, k: nat)
    requires c.Laid() && TrimsCovered(c.track) && l == LayoutOf(c) && l.Sound() && Fits(c, s) && !c.UnknownEnd()
    requires last == c.N() - 1 && end == LastEnd(l, s) && k == Before(c.track.midTrims, c.at[last].dt)
    ensures Heard(c.track.midTrims, BodyEnd(l, s, last)) + OwnPad(l, s, end) == end - SumTo(c.track.midTrims, k)
  {
    LastCounted(c, l, s, last, end, k);
    LastNetAt(l, s, last, end, k, c.track.midTrims);
  }

  lemma LastNetAt(l: Layout, s: Source, last: nat, end: int, k: nat, trims: seq<PacketTrim>)
    requires l.Sound() && Matches(l, s) && last == l.N() - 1 && end == LastEnd(l, s) && CountedTrims(trims, k, end)
    requires trims == l.plan.trims
    ensures Heard(trims, BodyEnd(l, s, last)) + OwnPad(l, s, end) == end - SumTo(trims, k)
  {
    LastBalance(l, s, k);
  }

  lemma LastCounted(c: Cut, l: Layout, s: Source, last: nat, end: int, k: nat)
    requires c.Laid() && TrimsCovered(c.track) && l == LayoutOf(c) && l.Sound() && Fits(c, s) && !c.UnknownEnd()
    requires last == c.N() - 1 && end == LastEnd(l, s) && k == Before(c.track.midTrims, c.at[last].dt)
    ensures l.plan.trims == c.track.midTrims && last == l.N() - 1 && CountedTrims(c.track.midTrims, k, end)
  {
    LastEndIn(c, l, s, last);
    TrimsBeforeLast(c, s, last, end, k);
  }

  lemma LastEndIn(c: Cut, l: Layout, s: Source, last: nat)
    requires c.Laid() && l == LayoutOf(c) && l.Sound() && Fits(c, s) && !c.UnknownEnd() && last == c.N() - 1
    ensures l.plan.trims == c.track.midTrims && last == l.N() - 1 && s.last < s.total
    ensures LastEnd(l, s) == if c.open then s.total else Min(c.at[last].su, s.total)
  {
    assert c.TailLaid(last);
    LastEndIs(c, l, s, last);
  }

  lemma LastNetFrom(c: Cut, bodyEnd: int, pad: int, end: int)
    requires 0 < c.N() == |c.spans| && !c.UnknownEnd()
    requires Heard(c.track.midTrims, bodyEnd) + pad ==
        end - SumTo(c.track.midTrims, Before(c.track.midTrims, c.at[c.N() - 1].dt))
    ensures var i, trims := c.N() - 1, c.track.midTrims;
      Heard(trims, bodyEnd) - Heard(trims, c.at[i].hd) + pad == Net(c, i) + c.Padding() + end - c.at[i].su
  {
  }

  /** The walked windows' audio, as long as the spans' but for the last. */
  lemma {:induction false} BodiesLength(net: seq<int>, from: seq<int>, late: seq<int>, k: nat)
    requires |from| == |late| == |net| > 0 && k < |net|
    requires forall j :: 0 <= j < |net| - 1 ==> late[j] - from[j] == net[j]
    ensures Lengths(from, late, k) == SumInts(net, |net| - 1) - SumInts(net, k) + late[|net| - 1] - from[|net| - 1]
    decreases |net| - k
  {
    if k < |net| - 1 {
      BodiesLength(net, from, late, k + 1);
    } else {
      assert Lengths(from, late, k + 1) == 0;
    }
  }

  lemma InnerNet(c: Cut, l: Layout, s: Source, j: nat)
    requires c.Laid() && TrimsCovered(c.track) && l == LayoutOf(c) && l.Sound() && Fits(c, s) && j < c.N() - 1
    ensures BodyEnd(l, s, j) == LandEnd(c, j) && HeadsOn(c)[j] <= EndsOn(c, l, s)[j]
    ensures EndsOn(c, l, s)[j] - HeadsOn(c)[j] == Net(c, j)
  {
    InnerTailMeets(c, l, s, j);
    BodyInSource(l, s, j);
    assert l.plan.windows[j] == c.WindowOf(j);
    WindowShape(c, j);
    TailsMeet(c, s, Tos(c, s), EndsOn(c, l, s));
  }

  /** The raw samples a copy of the walk counts: the planned ones, and what the last packet runs past the planned
      end. */
  lemma WalkLength(c: Cut, s: Source, walked: seq<Packet>)
    requires c.Laid() && TrimsCovered(c.track) && LayoutOf(c).Sound() && Fits(c, s) && !c.UnknownEnd()
    requires Decoded(walked) == Stretches(c.track, HeadsOn(c), EndsOn(c, LayoutOf(c), s), 0)
    ensures |Decoded(walked)| + OwnPad(LayoutOf(c), s, LastEnd(LayoutOf(c), s))
         == c.Samples() + c.Delay() + c.Padding() + LastEnd(LayoutOf(c), s) - c.at[c.N() - 1].su
  {
    var l := LayoutOf(c);
    AllNet(c, l, s, HeadsOn(c), EndsOn(c, l, s), Nets(c));
    LastForward(c, l, s);
    var bodyEnd, end := BodyEnd(l, s, c.N() - 1), LastEnd(l, s);
    var pad := OwnPad(l, s, end);
    LastNet(c, l, s, c.N() - 1, end, Before(c.track.midTrims, c.at[c.N() - 1].dt));
    LastNetFrom(c, bodyEnd, pad, end);
    PlannedNet(c, c.N() - 1);
    LastTrack(c, l, s, bodyEnd);
    LengthsAdd(c.track, HeadsOn(c), EndsOn(c, l, s), Nets(c), c.N() - 1, pad, c.Padding() + end - c.at[c.N() - 1].su);
  }

  /** Every walked window but the last plays its span. */
  ghost predicate PlaysNets(from: seq<int>, late: seq<int>, net: seq<int>) {
    |from| == |late| == |net| && forall j :: 0 <= j < |net| - 1 ==> from[j] <= late[j] && late[j] - from[j] == net[j]
  }

  lemma AllNet(c: Cut, l: Layout, s: Source, from: seq<int>, late: seq<int>, net: seq<int>)
    requires c.Laid() && TrimsCovered(c.track) && l == LayoutOf(c) && l.Sound() && Fits(c, s)
    requires from == HeadsOn(c) && late == EndsOn(c, l, s) && net == Nets(c)
    ensures PlaysNets(from, late, net)
  {
    forall j | 0 <= j < |net| - 1
      ensures from[j] <= late[j] && late[j] - from[j] == net[j]
    {
      InnerNetAt(c, l, s, j, from[j], late[j], net[j]);
    }
  }

  lemma InnerNetAt(c: Cut, l: Layout, s: Source, j: nat, from: int, late: int, net: int)
    requires c.Laid() && TrimsCovered(c.track) && l == LayoutOf(c) && l.Sound() && Fits(c, s) && j < c.N() - 1
    requires from == HeadsOn(c)[j] && late == EndsOn(c, l, s)[j] && net == Net(c, j)
    ensures from <= late && late - from == net
  {
    InnerNet(c, l, s, j);
  }

  /** The walk's length: every window's span, and of the last what its packets run past the planned end. */
  lemma LengthsAdd(track: Track, from: seq<int>, late: seq<int>, net: seq<int>, last: int, pad: int, over: int)
    requires |net| > 0 && PlaysNets(from, late, net) && from[|net| - 1] <= late[|net| - 1]
    requires late[|net| - 1] - from[|net| - 1] + pad == net[|net| - 1] + over && last == |net| - 1
    ensures |Stretches(track, from, late, 0)| + pad == SumInts(net, last) + net[last] + over
  {
    assert NoneBackward(from, late, 0);
    StretchesLength(track, from, late, 0);
    BodiesLength(net, from, late, 0);
  }

  lemma LastTrack(c: Cut, l: Layout, s: Source, bodyEnd: int)
    requires 0 < c.N() == l.N() == |l.tails| && bodyEnd == BodyEnd(l, s, c.N() - 1)
    ensures var i, trims := c.N() - 1, c.track.midTrims;
      EndsOn(c, l, s)[i] - HeadsOn(c)[i] == Heard(trims, bodyEnd) - Heard(trims, c.at[i].hd)
  {
  }

  lemma LastForward(c: Cut, l: Layout, s: Source)
    requires c.Laid() && l == LayoutOf(c) && l.Sound() && Fits(c, s)
    ensures HeadsOn(c)[c.N() - 1] <= EndsOn(c, l, s)[c.N() - 1]
  {
    var last := c.N() - 1;
    var head, end := c.at[last].hd, BodyEnd(l, s, last);
    LastShape(c, l, s, head, end);
    ForwardOnTrack(c, l, s, last, head, end);
  }

  lemma LastShape(c: Cut, l: Layout, s: Source, head: int, end: int)
    requires c.Laid() && l == LayoutOf(c) && l.Sound() && Fits(c, s)
    requires head == c.at[c.N() - 1].hd && end == BodyEnd(l, s, c.N() - 1)
    ensures Placed(c.track.midTrims, c.g) && OnGrid(head, c.g) && head <= end && l.N() == |l.tails| == c.N()
  {
    LastBody(l, s);
    LastHead(c, l);
  }

  lemma LastHead(c: Cut, l: Layout)
    requires c.Laid() && l == LayoutOf(c)
    ensures Placed(c.track.midTrims, c.g) && OnGrid(c.at[c.N() - 1].hd, c.g)
    ensures l.N() == c.N() == |l.heads| && l.heads[l.N() - 1] == c.at[c.N() - 1].hd
  {
    WindowShape(c, c.N() - 1);
  }

  lemma OnTrack(c: Cut, l: Layout, s: Source, i: nat, head: int, end: int)
    requires l.N() == |l.tails| == c.N() && i < c.N() && head == c.at[i].hd && end == BodyEnd(l, s, i)
    ensures HeadsOn(c)[i] == TrackOf(c.track.midTrims, c.track.delay, head)
    ensures EndsOn(c, l, s)[i] == TrackOf(c.track.midTrims, c.track.delay, end)
  {
  }

  lemma ForwardOnTrack(c: Cut, l: Layout, s: Source, i: nat, head: int, end: int)
    requires l.N() == |l.tails| == c.N() && i < c.N() && head == c.at[i].hd && end == BodyEnd(l, s, i)
    requires Placed(c.track.midTrims, c.g) && OnGrid(head, c.g) && head <= end
    ensures HeadsOn(c)[i] <= EndsOn(c, l, s)[i]
  {
    OnTrack(c, l, s, i, head, end);
    Onward(c.track.midTrims, c.g, c.track.delay, head, end);
  }

  lemma Onward(trims: seq<PacketTrim>, g: int, delay: int, head: int, end: int)
    requires Placed(trims, g) && OnGrid(head, g) && head <= end
    ensures TrackOf(trims, delay, head) <= TrackOf(trims, delay, end)
  {
    GridIsClear(trims, g, head);
    HeardMonotone(trims, g, head, end);
  }

  lemma PlannedNet(c: Cut, last: nat)
    requires c.Laid() && TrimsCovered(c.track) && !c.UnknownEnd() && last == c.N() - 1
    ensures c.Samples() + c.Delay() == NetTo(c, last) + Net(c, last)
  {
    AllNetOut(c);
    NetsPlanned(c, last);
  }

  lemma NetsPlanned(c: Cut, last: nat)
    requires c.g > 0 && 0 < c.N() == |c.spans| && !c.UnknownEnd() && NetsOut(Kepts(c), Nets(c), c.Padding())
    requires last == c.N() - 1
    ensures c.Samples() + c.Delay() == NetTo(c, last) + Net(c, last)
  {
    CutLength.PlannedFrom(c);
    NetStep(c, last);
  }

  // ----- The agreement -----

  /** What a muxer is told before the copy: the plan's track, its length left out where nothing confirms it. */
  ghost predicate Declares(declared: Track, plan: Track) {
    declared == plan || ((!plan.samplesExact || plan.samplesAdvisory) && declared == plan.(samples := -1))
  }

  /** The arithmetic of the agreement: a run `over` samples longer than planned settles as planned only when it is
      none. */
  lemma TrailerOfRun(declared: Track, plan: Track, run: Counted, over: int)
    requires Declares(declared, plan) && !plan.codec.Flac? && !plan.codec.Alac?
    requires plan.samples >= 0 && plan.delay >= 0 && plan.padding >= 0 && plan.padding + over >= 0 &&
        run.lastPadding >= 0
    requires run.samples == plan.samples + plan.delay + plan.padding + over && (run.lastPadding > 0 ==> run.trimmed)
    requires !plan.samplesExact || plan.samplesAdvisory ==>
      over >= 0 && (over == 0 && plan.padding == 0 ==> run.lastPadding == 0)
    ensures RemuxTrailer(declared, run) == Trailer(plan.samples, plan.delay, plan.padding) <==> over == 0
    ensures declared == plan && plan.samplesExact && !plan.samplesAdvisory ==>
      RemuxTrailer(declared, run).samples == plan.samples && RemuxTrailer(declared, run).delay == plan.delay
  {
  }

  /** What a copy of the walk counts. */
  lemma WalkCounts(c: Cut, s: Source, damaged: bool, pkts: seq<Packet>, r: Rules, walked: seq<Packet>)
    requires c.Laid() && LayoutOf(c).Sound() && Fits(c, s) && GridPackets(LayoutOf(c), s, pkts, 0) &&
        r.track == c.track.id
    requires walked == Walk(c.ToPlan(), damaged, Start, pkts).0
    requires r.perPacketTrims || TrimmedAtEnd(walked)
    ensures var copied, pad := CopyFrom(r, Fresh, walked, Eof), OwnPad(LayoutOf(c), s, LastEnd(LayoutOf(c), s));
      && copied.Copied? && copied.out == walked && copied.run.samples == |Decoded(walked)| + pad
      && copied.run.lastPadding == pad >= 0 && (pad > 0 ==> copied.run.trimmed)
  {
    var l := LayoutOf(c);
    StartInStep(l, s);
    WalkIsEmitted(l, s, damaged, Start, pkts, 0);
    EmittedClean(l, s, 0, pkts, 0, 0);
    LastBody(l, s);
    assert l.WindowSound(l.N() - 1);
    EmittedLast(l, s, 0, pkts, 0, 0);
    assert l.plan.track.id == c.track.id;
    CleanCounts(r, walked, OwnPad(l, s, LastEnd(l, s)));
  }

  lemma CleanCounts(r: Rules, walked: seq<Packet>, pad: int)
    requires Clean(r.track, walked) && |walked| > 0 && walked[|walked| - 1].padding == pad
    requires r.perPacketTrims || TrimmedAtEnd(walked)
    ensures var copied := CopyFrom(r, Fresh, walked, Eof);
      && copied.Copied? && copied.out == walked && copied.run.samples == |Decoded(walked)| + pad
      && copied.run.lastPadding == pad >= 0 && (pad > 0 ==> copied.run.trimmed)
  {
    CleanCopy(r, Fresh, walked);
    assert Fresh.out + walked == walked;
    CopyKeepsTimeline(r, Fresh, walked, Eof);
    CleanPlaying(r.track, walked);
    FinalIsLast(r.track, walked, 0);
  }

  /** The packets end where the plan has them end. */
  predicate EndsAsPlanned(c: Cut, s: Source)
    requires c.N() > 0
  {
    if c.open then s.total == EndOfDecode(c.track) else c.at[c.N() - 1].su <= s.total
  }

  /** The trailer of a copied walk is the plan's exactly where the packets end as planned, and states an exact plan's
      length and delay wherever they end. */
  ghost predicate Agrees(plan: Plan, declared: Track, copied: Copied, ends: bool) {
    && copied.Copied?
    && (RemuxTrailer(declared, copied.run) == Trailer(plan.track.samples, plan.track.delay, plan.track.padding) <==>
        ends)
    && (declared == plan.track && plan.track.samplesExact && !plan.track.samplesAdvisory ==>
        RemuxTrailer(declared, copied.run).samples == plan.track.samples
        && RemuxTrailer(declared, copied.run).delay == plan.track.delay)
  }

  /** Plan and trailer agree: copying the walked packets and settling their trailer gives back exactly the planned
      length, delay and padding if and only if the source's packets end where the plan has them end. */
  lemma PlanAndTrailerAgree(track: Track, spliceTrims: bool, spans: seq<Span>, grid: int, s: Source, damaged: bool,
                            pkts: seq<Packet>, r: Rules, declared: Track, c: Cut, plan: Plan)
    requires Accepted(track, spliceTrims, spans, grid) && grid > 0 && |spans| > 0
    requires c == CutOf(track, spliceTrims, spans, grid) && Planned(plan) == AnswerTo(track, spliceTrims, spans, grid)
    requires c.N() == |c.spans| && |plan.landed| == |spans| && Holds(c, s) && GridPackets(LayoutOf(c), s, pkts, 0)
    requires plan.landed[|spans| - 1].to != TO_END && plan.track.samples >= 0 && Declares(declared, plan.track)
    requires r.track == track.id && (r.perPacketTrims || TrimmedAtEnd(Walk(plan, damaged, Start, pkts).0))
    ensures c.N() > 0
    ensures var (walked, end) := Walk(plan, damaged, Start, pkts);
      var copied := CopyFrom(r, Fresh, walked, end);
      && end == Eof && copied.Copied? && copied.out == walked && Agrees(plan, declared, copied, EndsAsPlanned(c, s))
  {
    var a := AskOf(track, spliceTrims, spans, grid);
    AcceptedIsLaid(track, spliceTrims, spans, grid);
    HoldsFits(a, c, s);
    LandingToEnd(c, c.Landings());
    PlanIs(c);
    TrailerAgrees(c, s, damaged, pkts, r, declared);
  }

  lemma TrailerAgrees(c: Cut, s: Source, damaged: bool, pkts: seq<Packet>, r: Rules, declared: Track)
    requires c.Laid() && TrimsCovered(c.track) && LayoutOf(c).Sound() && Holds(c, s) && Fits(c, s) && !c.UnknownEnd()
    requires GridPackets(LayoutOf(c), s, pkts, 0) && c.Samples() >= 0 && Declares(declared, c.CutTrack()) &&
        OnAllowlist(c.track.codec)
    requires r.track == c.track.id && (r.perPacketTrims || TrimmedAtEnd(Walk(c.ToPlan(), damaged, Start, pkts).0))
    ensures var (walked, end) := Walk(c.ToPlan(), damaged, Start, pkts);
      var copied := CopyFrom(r, Fresh, walked, end);
      && end == Eof && copied.Copied? && copied.out == walked &&
          Agrees(c.ToPlan(), declared, copied, EndsAsPlanned(c, s))
  {
    WalkPlaysBodies(c, s, damaged, pkts);
    var walked := Walk(c.ToPlan(), damaged, Start, pkts).0;
    WalkCounts(c, s, damaged, pkts, r, walked);
    WalkLength(c, s, walked);
    PlanIs(c);
    TrackIs(c, c.CutTrack());
    SettlesAsPlanned(c, s, declared, CopyFrom(r, Fresh, walked, Eof).run);
  }

  lemma SettlesAsPlanned(c: Cut, s: Source, declared: Track, run: Counted)
    requires c.Laid() && TrimsCovered(c.track) && LayoutOf(c).Sound() && Holds(c, s) && Fits(c, s) && !c.UnknownEnd()
    requires c.Samples() >= 0 && Declares(declared, c.CutTrack()) && OnAllowlist(c.track.codec)
    requires var l := LayoutOf(c);
      && run.samples == c.Samples() + c.Delay() + c.Padding() + LastEnd(l, s) - c.at[c.N() - 1].su
      && run.lastPadding == OwnPad(l, s, LastEnd(l, s)) >= 0 && (run.lastPadding > 0 ==> run.trimmed)
    ensures RemuxTrailer(declared, run) == Trailer(c.Samples(), c.Delay(), c.Padding()) <==> EndsAsPlanned(c, s)
    ensures var t := c.CutTrack();
      declared == t && t.samplesExact && !t.samplesAdvisory ==>
        RemuxTrailer(declared, run).samples == t.samples && RemuxTrailer(declared, run).delay == t.delay
  {
    var l, last, t := LayoutOf(c), c.N() - 1, c.CutTrack();
    var end := LastEnd(l, s);
    var over := end - c.at[last].su;
    HeadsMeet(c);
    TrackIs(c, t);
    Overrun(c, s, l, last, end, over, run.lastPadding);
    TrailerOfRun(declared, t, run, over);
  }

  /** How far the last packet runs past the planned end, or falls short of it. */
  lemma Overrun(c: Cut, s: Source, l: Layout, last: nat, end: int, over: int, pad: int)
    requires c.Laid() && l == LayoutOf(c) && l.Sound() && Holds(c, s) && Fits(c, s) && !c.UnknownEnd()
    requires last == c.N() - 1 && end == LastEnd(l, s) && over == end - c.at[last].su && pad == OwnPad(l, s, end)
    ensures c.Padding() >= 0 && c.Padding() + over >= 0 && (over == 0 <==> EndsAsPlanned(c, s))
    ensures c.LastToEnd() ==> over >= 0 && (over == 0 && c.Padding() == 0 ==> pad == 0)
  {
    assert c.TailLaid(last);
    LastEndIs(c, l, s, last);
  }

  lemma TrackIs(c: Cut, t: Track)
    requires 0 < c.N() == |c.spans| && c.g > 0 && t == c.CutTrack() && !c.UnknownEnd()
    ensures t.samples == c.Samples() && t.delay == c.Delay() && t.padding == c.Padding() && t.codec == c.track.codec
    ensures c.Padding() == c.at[c.N() - 1].su - c.at[c.N() - 1].dt
    ensures (!t.samplesExact || t.samplesAdvisory) ==> c.LastToEnd()
  {
  }

  /** A copy of unknown length settles to what a listener hears of it, exactly when the header's padding is none or the
      source's own tail trim, or nothing of the walk is heard. */
  ghost predicate SettlesAsHeard(plan: Plan, walked: seq<Packet>, copied: Copied, padding: int, fin: int) {
    && copied.Copied?
    && (RemuxTrailer(plan.track, copied.run).samples == |Listened(plan.track, walked)| <==>
        padding == 0 || padding == fin || |Decoded(walked)| + Max(0, fin - padding) <= plan.track.delay)
  }

  /** A cut of unknown length settles to what a listener hears of it, exactly when the header's padding agrees with the
      source's own tail trim. */
  lemma UnknownLengthSettles(track: Track, spliceTrims: bool, spans: seq<Span>, grid: int, s: Source, damaged: bool,
                             pkts: seq<Packet>, r: Rules, c: Cut, plan: Plan)
    requires Accepted(track, spliceTrims, spans, grid) && grid > 0 && |spans| > 0
    requires c == CutOf(track, spliceTrims, spans, grid) && Planned(plan) == AnswerTo(track, spliceTrims, spans, grid)
    requires c.N() == |c.spans| && |plan.landed| == |spans| && Holds(c, s) && GridPackets(LayoutOf(c), s, pkts, 0)
    requires plan.landed[|spans| - 1].to == TO_END
    requires r.track == track.id && (r.perPacketTrims || TrimmedAtEnd(Walk(plan, damaged, Start, pkts).0))
    ensures var (walked, end) := Walk(plan, damaged, Start, pkts);
      SettlesAsHeard(plan, walked, CopyFrom(r, Fresh, walked, end), track.padding, s.finalPad)
  {
    AcceptedFits(track, spliceTrims, spans, grid, s, c, plan);
    UnknownSettles(c, s, damaged, pkts, r, plan);
  }

  lemma AcceptedFits(track: Track, spliceTrims: bool, spans: seq<Span>, grid: int, s: Source, c: Cut, plan: Plan)
    requires Accepted(track, spliceTrims, spans, grid) && grid > 0 && |spans| > 0
    requires c == CutOf(track, spliceTrims, spans, grid) && Planned(plan) == AnswerTo(track, spliceTrims, spans, grid)
    requires c.N() == |c.spans| && |plan.landed| == |spans| && Holds(c, s)
    ensures c.Laid() && TrimsCovered(c.track) && LayoutOf(c).Sound() && Fits(c, s)
    ensures c.track == track && plan == c.ToPlan() && OnAllowlist(c.track.codec)
    ensures plan.landed[|spans| - 1].to == TO_END <==> c.UnknownEnd()
  {
    AcceptedIsLaid(track, spliceTrims, spans, grid);
    HoldsFits(AskOf(track, spliceTrims, spans, grid), c, s);
    PlanIs(c);
    LandingToEnd(c, plan.landed);
  }

  lemma UnknownSettles(c: Cut, s: Source, damaged: bool, pkts: seq<Packet>, r: Rules, plan: Plan)
    requires c.Laid() && TrimsCovered(c.track) && LayoutOf(c).Sound() && Fits(c, s) &&
        GridPackets(LayoutOf(c), s, pkts, 0)
    requires c.UnknownEnd() && OnAllowlist(c.track.codec) && plan == c.ToPlan()
    requires r.track == c.track.id && (r.perPacketTrims || TrimmedAtEnd(Walk(plan, damaged, Start, pkts).0))
    ensures var (walked, end) := Walk(plan, damaged, Start, pkts);
      SettlesAsHeard(plan, walked, CopyFrom(r, Fresh, walked, end), c.track.padding, s.finalPad)
  {
    PlanIs(c);
    WalkPlaysBodies(c, s, damaged, pkts);
    var walked := Walk(c.ToPlan(), damaged, Start, pkts).0;
    WalkCounts(c, s, damaged, pkts, r, walked);
    assert c.TailLaid(c.N() - 1);
    LastEndIs(c, LayoutOf(c), s, c.N() - 1);
    HeadsMeet(c);
    OpenSettles(c, s, walked, CopyFrom(r, Fresh, walked, Eof).run);
  }

  lemma OpenSettles(c: Cut, s: Source, walked: seq<Packet>, run: Counted)
    requires 0 < c.N() == |c.spans| && c.g > 0 && c.UnknownEnd() && c.Delay() >= 0 && OnAllowlist(c.track.codec)
    requires run.samples == |Decoded(walked)| + s.finalPad && run.lastPadding == s.finalPad >= 0
    requires (s.finalPad > 0 ==> run.trimmed) && c.track.padding >= 0
    ensures RemuxTrailer(c.CutTrack(), run).samples == |Listened(c.CutTrack(), walked)| <==>
      c.track.padding == 0 || c.track.padding == s.finalPad
      || |Decoded(walked)| + Max(0, s.finalPad - c.track.padding) <= c.Delay()
  {
    var t := c.CutTrack();
    assert t.samples == -1 && t.delay == c.Delay() && t.padding == c.track.padding && t.codec == c.track.codec;
    DropLength(Decoded(walked), c.Delay());
    TrailerOfOpen(t, run, |Decoded(walked)|, s.finalPad);
  }

  lemma TrailerOfOpen(t: Track, run: Counted, decoded: nat, fin: int)
    requires t.samples == -1 && t.delay >= 0 && t.padding >= 0 && !t.codec.Flac? && !t.codec.Alac?
    requires run.samples == decoded + fin && run.lastPadding == fin >= 0 && (fin > 0 ==> run.trimmed)
    ensures RemuxTrailer(t, run).samples == Max(0, decoded - t.delay) <==>
      t.padding == 0 || t.padding == fin || decoded + Max(0, fin - t.padding) <= t.delay
  {
  }

  // ----- Where they part -----

  /** One span of an AAC track without trims, snapped. */
  lemma OneSpan(t: Track, span: Span, b: Bounds)
    requires t.codec == AacLc && t.delay == 0 && t.padding >= 0 && t.midPadding == 0 && t.midTrims == [] &&
        ValidSpans(t, [span])
    requires b.hd < b.su || b.su < 0
    requires var a := AskOf(t, false, [span], 1024);
        a.BoundsOf(0) == b && (a.MergedEnd(0) >= 0 ==> b.hd < a.MergedEnd(0))
    ensures Accepted(t, false, [span], 1024)
    ensures var a, c := AskOf(t, false, [span], 1024), CutOf(t, false, [span], 1024);
      && c.at == [b] && c.spans == [span] && c.track == t && c.g == 1024 && !c.splice &&
          c.open == (a.LastToEnd() || a.TailClamped())
      && AnswerTo(t, false, [span], 1024) == Planned(c.ToPlan())
  {
    var a := AskOf(t, false, [span], 1024);
    assert a.KeepsPackets(0);
    assert a.Snapped().at == [b];
  }

  /** A source of one packet. */
  function OnePacket(): seq<Packet> { [Packet(0, 0, 0, 1024, 0, 0)] }

  lemma OnePacketOnGrid(l: Layout, s: Source)
    requires l.g == 1024 && l.plan.track.id == 0 && l.plan.trims == [] && s == Source(0, 1024, 0)
    ensures GridPackets(l, s, OnePacket(), 0)
  {
    assert OnePacket()[1..] == [];
  }

  const Short: Track := Track(0, AacLc, OtherConfig, 1000, 0, 0, 0, [], true, false)

  const Unmeasured: Track := Track(0, AacLc, OtherConfig, -1, 0, 100, 0, [], false, false)

  /** What a copy of the walk of that packet counts. */
  function RunOf(plan: Plan): Copied {
    var (walked, end) := Walk(plan, false, Start, OnePacket());
    CopyFrom(Rules(0, true, false), Fresh, walked, end)
  }

  /** A clamped tail whose packets run past the end the header declares: the plan pads to sample 1000, the packet to
      1024, and the copy's trailer states more padding than planned. */
  lemma ClampedTailParts()
    ensures var spans := [Span(0, 900)];
      && Accepted(Short, false, spans, 1024)
      && var plan := AnswerTo(Short, false, spans, 1024).plan;
         && RunOf(plan).Copied?
         && RemuxTrailer(plan.track, RunOf(plan).run) != Trailer(plan.track.samples, plan.track.delay,
             plan.track.padding)
  {
    var span := Span(0, 900);
    ShortRequest(AskOf(Short, false, [span], 1024));
    OneSpan(Short, span, Bounds(0, 900, 0, 1000, 0));
    AcceptedIsLaid(Short, false, [span], 1024);
    var c, s := CutOf(Short, false, [span], 1024), Source(0, 1024, 0);
    HoldsFits(AskOf(Short, false, [span], 1024), c, s);
    ClampedParts(c, s);
  }

  lemma ClampedParts(c: Cut, s: Source)
    requires c.Laid() && TrimsCovered(c.track) && LayoutOf(c).Sound() && Fits(c, s) && Holds(c, s) &&
        s == Source(0, 1024, 0)
    requires c.track == Short && c.spans == [Span(0, 900)] && c.at == [Bounds(0, 900, 0, 1000, 0)] && c.g == 1024 &&
        c.open
    ensures var plan := c.ToPlan();
      && RunOf(plan).Copied?
      && RemuxTrailer(plan.track, RunOf(plan).run) != Trailer(plan.track.samples, plan.track.delay, plan.track.padding)
  {
    OnePacketOnGrid(LayoutOf(c), s);
    ShortPlan(c, c.Landings());
    PlanIs(c);
    TrailerAgrees(c, s, false, OnePacket(), Rules(0, true, false), c.CutTrack());
  }

  lemma ShortPlan(c: Cut, landed: seq<Span>)
    requires c.Laid() && TrimsCovered(c.track) && c.track == Short && c.spans == [Span(0, 900)] &&
        landed == c.Landings()
    requires c.at == [Bounds(0, 900, 0, 1000, 0)]
    ensures landed == [Span(0, 900)] && c.CutTrack().samples == 900
  {
    assert landed[0] == c.Landing(0);
    SamplesAreLanded(c);
    assert LandedTo(landed, 1) == LandedTo(landed, 0) + 900;
  }

  lemma ShortRequest(a: Ask)
    requires a == AskOf(Short, false, [Span(0, 900)], 1024)
    ensures ValidSpans(Short, a.spans) && a.BoundsOf(0) == Bounds(0, 900, 0, 1000, 0) && a.MergedEnd(0) == 1024
    ensures !a.LastToEnd() && a.TailClamped()
  {
    assert SpanOk(Short, a.spans, 0);
    assert a.Df(0) == 0 && a.Dt(0) == 900 && a.Hd(0) == 0;
    assert SnapGridUp(900, 1024) == 1024;
  }

  /** A track of unknown length whose header pads 100 samples that its only packet does not: a listener hears all 1024,
      and the copy settles to 924. */
  lemma UnmeasuredParts()
    ensures var spans := [Span(0, TO_END)];
      && Accepted(Unmeasured, false, spans, 1024)
      && var plan := AnswerTo(Unmeasured, false, spans, 1024).plan;
         && RunOf(plan).Copied?
         && RemuxTrailer(plan.track, RunOf(plan).run).samples != |Listened(plan.track,
             Walk(plan, false, Start, OnePacket()).0)|
  {
    var span, s := Span(0, TO_END), Source(0, 1024, 0);
    UnmeasuredRequest(AskOf(Unmeasured, false, [span], 1024));
    OneSpan(Unmeasured, span, Bounds(0, -1, 0, -1, 0));
    var c := CutOf(Unmeasured, false, [span], 1024);
    AcceptedIsLaid(Unmeasured, false, [span], 1024);
    OnePacketOnGrid(LayoutOf(c), s);
    PlanIs(c);
    UnmeasuredPlan(c, s);
    UnknownLengthSettles(Unmeasured, false, [span], 1024, s, false, OnePacket(), Rules(0, true, false), c, c.ToPlan());
  }

  lemma UnmeasuredRequest(a: Ask)
    requires a == AskOf(Unmeasured, false, [Span(0, TO_END)], 1024)
    ensures ValidSpans(Unmeasured, a.spans) && a.BoundsOf(0) == Bounds(0, -1, 0, -1, 0) && a.MergedEnd(0) == -1 &&
        a.LastToEnd()
  {
    assert SpanOk(Unmeasured, a.spans, 0);
    assert a.Df(0) == 0 && a.Dt(0) == -1 && a.Hd(0) == 0;
  }

  lemma UnmeasuredPlan(c: Cut, s: Source)
    requires c.Laid() && TrimsCovered(c.track) && LayoutOf(c).Sound() && c.track == Unmeasured &&
        c.spans == [Span(0, TO_END)]
    requires c.at == [Bounds(0, -1, 0, -1, 0)] && s == Source(0, 1024, 0) && GridPackets(LayoutOf(c), s, OnePacket(), 0)
    ensures c.Landings()[0].to == TO_END && c.CutTrack().delay == 0
    ensures |Decoded(Walk(c.ToPlan(), false, Start, OnePacket()).0)| > 0
  {
    assert c.Landings()[0] == c.Landing(0) && c.Delay() == 0;
    assert c.TailLaid(0);
    WalkPlaysBodies(c, s, false, OnePacket());
    LastBody(LayoutOf(c), s);
    StretchesLength(c.track, HeadsOn(c), EndsOn(c, LayoutOf(c), s), 0);
  }
}
