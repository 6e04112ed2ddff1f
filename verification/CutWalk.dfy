/** The cut's view of a demuxer (cut.go): a source's packets filtered to the plan's windows and retimed to be
    contiguous. */
module CutWalk {
  import opened Container
  import opened CutTimeline
  import opened CutPlan

  /** Why a read fails. */
  datatype Refusal = HoleInWindow | TrimMismatch | Straddle | ShortSource(blind: bool)

  /** What a read answers. */
  datatype Read = Got(pkt: Packet) | Eof | Fail(why: Refusal)

  /** Where a walk stands: its window, how far it has read the source, how far it has written the output with and
      without the trims, and what the packet before it trimmed. */
  datatype View = View(cur: nat, pos: int, out: int, outRaw: int, prevPad: int, havePrev: bool)

  datatype Step = Skipped(v: View) | Kept(v: View, pkt: Packet) | Refused(v: View, why: Refusal)

  const Start: View := View(0, 0, 0, 0, 0, false)

  /** The first window from `cur` on that does not end at or before `start`. */
  function Advance(ws: seq<Window>, cur: nat, start: int): (c: nat)
    requires cur <= |ws|
    ensures cur <= c <= |ws|
    ensures forall j :: cur <= j < c ==> 0 <= ws[j].to <= start
    ensures c < |ws| ==> ws[c].to < 0 || start < ws[c].to
    decreases |ws| - cur
  {
    if cur < |ws| && 0 <= ws[cur].to <= start then Advance(ws, cur + 1, start) else cur
  }

  /** How much of the source range [from, end) one window keeps, and all of them from the i-th on. */
  function KeptOf(w: Window, from: int, end: int): int {
    var hi := if w.to >= 0 then Min(end, w.to) else end;
    var lo := Max(from, w.from);
    if hi > lo then hi - lo else 0
  }

  function KeptIn(ws: seq<Window>, i: nat, from: int, end: int): int
    requires i <= |ws|
    decreases |ws| - i
  {
    if i == |ws| then 0 else KeptOf(ws[i], from, end) + KeptIn(ws, i + 1, from, end)
  }

  /** One source packet through the view. */
  function StepOn(p: Plan, v: View, pkt: Packet): Step
    requires v.cur < |p.windows|
  {
    var start := v.pos + pkt.lost;
    var end := start + pkt.dur;
    if pkt.track != p.track.id then Skipped(v)
    else if KeptIn(p.windows, v.cur, v.pos, start) > 0 then Refused(v, HoleInWindow)
    else if v.havePrev && TrimAt(p.trims, start) != v.prevPad then Refused(v.(pos := end), TrimMismatch)
    else PassOn(p, v.(pos := end), start, pkt)
  }

  /** A packet with its source trim as planned: the windows it has left behind, and what the one it is in makes of
      it. */
  function PassOn(p: Plan, v: View, start: int, pkt: Packet): Step
    requires v.cur <= |p.windows|
  {
    Deliver(p, v.(cur := Advance(p.windows, v.cur, start), prevPad := ClampedPad(pkt), havePrev := true), start, pkt)
  }

  /** The packet [start, v.pos) against the window the walk is in. */
  function Deliver(p: Plan, v: View, start: int, pkt: Packet): Step
    requires v.cur <= |p.windows|
  {
    if v.cur == |p.windows| || v.pos <= p.windows[v.cur].from then Skipped(v)
    else if start < p.windows[v.cur].from || (p.windows[v.cur].to >= 0 && v.pos > p.windows[v.cur].to) then
      Refused(v, Straddle)
    else
      var pad := Max(v.prevPad, TrimAt(p.track.midTrims, v.outRaw + pkt.dur));
      Kept(v.(out := v.out + pkt.dur - pad, outRaw := v.outRaw + pkt.dur),
          pkt.(padding := pad, lost := 0, pts := v.out))
  }

  /** The answer when the source runs out of packets: short of the held end it fails, unless damage says why. */
  function EndOfPackets(p: Plan, v: View, damaged: bool): Read {
    if v.pos >= p.lastEnd || damaged then Eof else Fail(ShortSource(p.blind))
  }

  /** One read: the answer, the view after it, and how many source packets it took. */
  function ReadFrom(p: Plan, damaged: bool, v: View, pkts: seq<Packet>): (r: (Read, View, nat))
    requires v.cur <= |p.windows|
    ensures r.2 <= |pkts| && r.1.cur <= |p.windows| && (r.0.Got? ==> r.2 > 0)
    decreases |pkts|
  {
    if v.cur == |p.windows| then (Eof, v, 0)
    else if |pkts| == 0 then (EndOfPackets(p, v, damaged), v, 0)
    else match StepOn(p, v, pkts[0])
      case Skipped(v') =>
        var (answer, v'', n) := ReadFrom(p, damaged, v', pkts[1..]);
        (answer, v'', n + 1)
      case Kept(v', pkt) => (Got(pkt), v', 1)
      case Refused(v', why) => (Fail(why), v', 1)
  }

  /** Every packet the view hands on, and how it ends. */
  function Walk(p: Plan, damaged: bool, v: View, pkts: seq<Packet>): (seq<Packet>, Read)
    requires v.cur <= |p.windows|
    decreases |pkts|
  {
    var (answer, v', n) := ReadFrom(p, damaged, v, pkts);
    if answer.Got? then
      var (rest, end) := Walk(p, damaged, v', pkts[n..]);
      ([answer.pkt] + rest, end)
    else ([], answer)
  }

  /** A list plannedTrim can search: in order, no trim empty. */
  ghost predicate Ordered(trims: seq<PacketTrim>) {
    && (forall i :: 0 <= i < |trims| ==> trims[i].samples > 0)
    && (forall i, j :: 0 <= i < j < |trims| ==> trims[i].End() <= trims[j].pos)
  }

  /** cutDemuxer: the view over an inner demuxer that yields `src`. */
  class CutDemuxer {
    const plan: Plan
    const src: seq<Packet>
    /** The inner demuxer meets damage after the view is made. */
    const damaged: bool
    var next: nat
    var cur: nat
    var pos: int
    var out: int
    var outRaw: int
    var prevPad: int
    var havePrev: bool

    ghost predicate Valid()
      reads this
    {
      next <= |src| && cur <= |plan.windows| && Ordered(plan.trims) && Ordered(plan.track.midTrims)
    }

    ghost function At(): View
      reads this
    {
      View(cur, pos, out, outRaw, prevPad, havePrev)
    }

    /** The view stands where a step leaves it, and answers what the step says. */
    ghost predicate Answers(step: Step, answer: Read, passed: bool)
      reads this
    {
      && At() == step.v
      && (passed <==> step.Skipped?)
      && (step.Kept? ==> answer == Got(step.pkt))
      && (step.Refused? ==> answer == Fail(step.why))
    }

    constructor (plan: Plan, src: seq<Packet>, damaged: bool)
      requires Ordered(plan.trims) && Ordered(plan.track.midTrims)
      ensures Valid() && this.plan == plan && this.src == src && this.damaged == damaged
      ensures next == 0 && At() == Start
    {
      this.plan, this.src, this.damaged := plan, src, damaged;
      next, cur, pos, out, outRaw, prevPad, havePrev := 0, 0, 0, 0, 0, 0, false;
    }

    method KeptInWindows(from: int, end: int) returns (n: int)
      requires Valid()
      ensures n == KeptIn(plan.windows, cur, from, end)
    {
      n := 0;
      var i := cur;
      while i < |plan.windows|
        invariant cur <= i <= |plan.windows|
        invariant n + KeptIn(plan.windows, i, from, end) == KeptIn(plan.windows, cur, from, end)
      {
        n := n + KeptOf(plan.windows[i], from, end);
        i := i + 1;
      }
    }

    /** Leaves the windows that end at or before `start` behind. */
    method AdvanceTo(start: int)
      requires Valid()
      modifies this`cur
      ensures Valid() && cur == Advance(plan.windows, old(cur), start)
    {
      while cur < |plan.windows| && plan.windows[cur].to >= 0 && start >= plan.windows[cur].to
        invariant cur <= |plan.windows|
        invariant Advance(plan.windows, cur, start) == Advance(plan.windows, old(cur), start)
      {
        cur := cur + 1;
      }
    }

    /** One packet of the inner demuxer: nothing when the view passes over it. */
    method Take(pkt: Packet) returns (answer: Read, passed: bool)
      requires Valid() && cur < |plan.windows|
      modifies this`cur, this`pos, this`out, this`outRaw, this`prevPad, this`havePrev
      ensures Valid()
      ensures Answers(StepOn(plan, old(At()), pkt), answer, passed)
    {
      answer, passed := Eof, true;
      if pkt.track != plan.track.id {
        return;
      }
      var kept := KeptInWindows(pos, pos + pkt.lost);
      if kept > 0 {
        return Fail(HoleInWindow), false;
      }
      var start := pos + pkt.lost;
      var end := start + pkt.dur;
      pos := end;
      if havePrev {
        var planned := PlannedTrim(plan.trims, start);
        if planned != prevPad {
          return Fail(TrimMismatch), false;
        }
      }
      answer, passed := PassFrom(start, pkt);
    }

    method PassFrom(start: int, pkt: Packet) returns (answer: Read, passed: bool)
      requires Valid()
      modifies this`cur, this`out, this`outRaw, this`prevPad, this`havePrev
      ensures Valid()
      ensures Answers(PassOn(plan, old(At()), start, pkt), answer, passed)
    {
      prevPad, havePrev := Min(Max(pkt.padding, 0), pkt.dur), true;
      AdvanceTo(start);
      answer, passed := DeliverFrom(start, pkt);
    }

    /** The packet [start, pos) against the window the walk is in. */
    method DeliverFrom(start: int, pkt: Packet) returns (answer: Read, passed: bool)
      requires Valid()
      modifies this`out, this`outRaw
      ensures Valid()
      ensures Answers(Deliver(plan, old(At()), start, pkt), answer, passed)
    {
      answer, passed := Eof, true;
      if cur == |plan.windows| {
        return;
      }
      var w := plan.windows[cur];
      if pos <= w.from {
        return;
      }
      if start < w.from || (w.to >= 0 && pos > w.to) {
        return Fail(Straddle), false;
      }
      var planned := PlannedTrim(plan.track.midTrims, outRaw + pkt.dur);
      var pad := Max(prevPad, planned);
      answer, passed := Got(pkt.(padding := pad, lost := 0, pts := out)), false;
      outRaw := outRaw + pkt.dur;
      out := out + pkt.dur - pad;
    }

    method ReadPacket() returns (answer: Read)
      requires Valid()
      modifies this
      ensures Valid()
      ensures var (a, v, n) := ReadFrom(plan, damaged, old(At()), src[old(next)..]);
        answer == a && At() == v && next == old(next) + n
    {
      while true
        invariant Valid() && old(next) <= next
        invariant var (a, v, n) := ReadFrom(plan, damaged, old(At()), src[old(next)..]);
          var (a', v', n') := ReadFrom(plan, damaged, At(), src[next..]);
          a' == a && v' == v && old(next) + n == next + n'
        decreases |src| - next
      {
        if cur == |plan.windows| {
          return Eof;
        }
        if next == |src| {
          return if pos >= plan.lastEnd || damaged then Eof else Fail(ShortSource(plan.blind));
        }
        assert src[next..][1..] == src[next + 1..];
        var passed;
        answer, passed := Take(src[next]);
        next := next + 1;
        if !passed {
          return;
        }
      }
    }
  }

  // ----- Any source at all -----

  /** The raw position and the window of every packet a walk hands on. */
  datatype Place = Place(start: int, end: int, window: nat)

  ghost function Places(p: Plan, v: View, pkts: seq<Packet>): seq<Place>
    requires v.cur <= |p.windows|
    decreases |pkts|
  {
    if v.cur == |p.windows| || |pkts| == 0 then []
    else match StepOn(p, v, pkts[0])
      case Skipped(v') => Places(p, v', pkts[1..])
      case Kept(v', pkt) => [Place(v.pos + pkts[0].lost, v'.pos, v'.cur)] + Places(p, v', pkts[1..])
      case Refused(_, _) => []
  }

  /** Packets lie whole inside their windows, in order and without overlap, and windows are visited in order. */
  ghost predicate InOrder(ws: seq<Window>, places: seq<Place>, from: int, cur: nat) {
    && (forall k :: 0 <= k < |places| ==>
      && cur <= places[k].window < |ws| && from <= places[k].start <= places[k].end
      && ws[places[k].window].from <= places[k].start
      && (ws[places[k].window].to >= 0 ==> places[k].end <= ws[places[k].window].to))
    && (forall j, k :: 0 <= j < k < |places| ==>
      places[j].window <= places[k].window && places[j].end <= places[k].start)
  }

  ghost predicate Plausible(pkts: seq<Packet>) {
    forall k :: 0 <= k < |pkts| ==> pkts[k].dur >= 0 && pkts[k].lost >= 0
  }

  /** Whatever the source's packets are, every one the view returns lies whole inside a window, and the walk hands on
      one packet per such place; anything else is an error, never a silent splice inside a packet. */
  lemma {:induction false} NoSilentSplice(p: Plan, damaged: bool, v: View, pkts: seq<Packet>)
    requires v.cur <= |p.windows| && Plausible(pkts)
    ensures Whole(p, damaged, v, pkts)
    decreases |pkts|
  {
    if v.cur < |p.windows| && |pkts| > 0 {
      var step := StepOn(p, v, pkts[0]);
      if !step.Refused? {
        StepMoves(p, v, pkts[0]);
        NoSilentSplice(p, damaged, step.v, pkts[1..]);
        if step.Skipped? {
          SkippedPlaces(p, damaged, v, pkts);
        } else {
          KeptPlaces(p, damaged, v, pkts);
        }
      }
    }
  }

  /** The walk hands on one packet a place, each place whole inside its window. */
  ghost predicate Whole(p: Plan, damaged: bool, v: View, pkts: seq<Packet>)
    requires v.cur <= |p.windows|
  {
    InOrder(p.windows, Places(p, v, pkts), v.pos, v.cur) && SameLengths(Walk(p, damaged, v, pkts).0, Places(p, v, pkts))
  }

  lemma SkippedPlaces(p: Plan, damaged: bool, v: View, pkts: seq<Packet>)
    requires v.cur < |p.windows| && |pkts| > 0 && StepOn(p, v, pkts[0]).Skipped?
    requires var step := StepOn(p, v, pkts[0]);
        v.pos <= step.v.pos && v.cur <= step.v.cur <= |p.windows| && Whole(p, damaged, step.v, pkts[1..])
    ensures Whole(p, damaged, v, pkts)
  {
    var step := StepOn(p, v, pkts[0]);
    WalkSkips(p, damaged, v, pkts);
    Later(p.windows, Places(p, step.v, pkts[1..]), step.v.pos, step.v.cur, v.pos, v.cur);
  }

  lemma KeptPlaces(p: Plan, damaged: bool, v: View, pkts: seq<Packet>)
    requires v.cur < |p.windows| && |pkts| > 0 && StepOn(p, v, pkts[0]).Kept? && pkts[0].dur >= 0 && pkts[0].lost >= 0
    requires var step := StepOn(p, v, pkts[0]); step.v.cur <= |p.windows| && Whole(p, damaged, step.v, pkts[1..])
    ensures Whole(p, damaged, v, pkts)
  {
    var step, rest := StepOn(p, v, pkts[0]), pkts[1..];
    StepMoves(p, v, pkts[0]);
    WalkKeeps(p, damaged, v, pkts);
    PlacesKeep(p, v, pkts);
    var first := Place(v.pos + pkts[0].lost, step.v.pos, step.v.cur);
    OneMore(p.windows, first, Places(p, step.v, rest), step.pkt, Walk(p, damaged, step.v, rest).0, v.pos, v.cur);
  }

  lemma PlacesKeep(p: Plan, v: View, pkts: seq<Packet>)
    requires v.cur < |p.windows| && |pkts| > 0 && StepOn(p, v, pkts[0]).Kept? &&
        StepOn(p, v, pkts[0]).v.cur <= |p.windows|
    ensures var step := StepOn(p, v, pkts[0]);
      Places(p, v, pkts) == [Place(v.pos + pkts[0].lost, step.v.pos, step.v.cur)] + Places(p, step.v, pkts[1..])
  {
  }

  lemma OneMore(ws: seq<Window>, first: Place, places: seq<Place>, pkt: Packet, pkts: seq<Packet>, from: int, cur: nat)
    requires cur <= first.window < |ws| && from <= first.start <= first.end && ws[first.window].from <= first.start
    requires ws[first.window].to >= 0 ==> first.end <= ws[first.window].to
    requires InOrder(ws, places, first.end, first.window) && SameLengths(pkts, places) &&
        pkt.dur == first.end - first.start
    ensures InOrder(ws, [first] + places, from, cur) && SameLengths([pkt] + pkts, [first] + places)
  {
    FirstPlace(ws, first, places, from, cur);
    FirstLength(pkt, pkts, first, places);
  }

  lemma Later(ws: seq<Window>, places: seq<Place>, from: int, cur: nat, from0: int, cur0: nat)
    requires InOrder(ws, places, from, cur) && from0 <= from && cur0 <= cur
    ensures InOrder(ws, places, from0, cur0)
  {
  }

  lemma FirstLength(pkt: Packet, pkts: seq<Packet>, first: Place, places: seq<Place>)
    requires SameLengths(pkts, places) && pkt.dur == first.end - first.start
    ensures SameLengths([pkt] + pkts, [first] + places)
  {
  }

  ghost predicate SameLengths(pkts: seq<Packet>, places: seq<Place>) {
    |pkts| == |places| && forall k :: 0 <= k < |pkts| ==> pkts[k].dur == places[k].end - places[k].start
  }

  lemma StepMoves(p: Plan, v: View, pkt: Packet)
    requires v.cur < |p.windows| && pkt.dur >= 0 && pkt.lost >= 0
    ensures var step := StepOn(p, v, pkt); !step.Refused? ==> v.pos <= step.v.pos && v.cur <= step.v.cur <= |p.windows|
    ensures var step := StepOn(p, v, pkt); step.Kept? ==>
      && step.v.cur < |p.windows| && p.windows[step.v.cur].from <= v.pos + pkt.lost
      && step.v.pos == v.pos + pkt.lost + pkt.dur && step.pkt.dur == pkt.dur
      && (p.windows[step.v.cur].to >= 0 ==> step.v.pos <= p.windows[step.v.cur].to)
  {
  }

  lemma FirstPlace(ws: seq<Window>, first: Place, rest: seq<Place>, from: int, cur: nat)
    requires cur <= first.window < |ws| && from <= first.start <= first.end && ws[first.window].from <= first.start
    requires ws[first.window].to >= 0 ==> first.end <= ws[first.window].to
    requires InOrder(ws, rest, first.end, first.window)
    ensures InOrder(ws, [first] + rest, from, cur)
  {
  }

  /** A packet the view passes over leaves the rest of the walk as it is. */
  lemma WalkSkips(p: Plan, damaged: bool, v: View, pkts: seq<Packet>)
    requires v.cur < |p.windows| && |pkts| > 0 && StepOn(p, v, pkts[0]).Skipped?
    ensures Walk(p, damaged, v, pkts) == Walk(p, damaged, StepOn(p, v, pkts[0]).v, pkts[1..])
  {
    var v' := StepOn(p, v, pkts[0]).v;
    var n := ReadFrom(p, damaged, v', pkts[1..]).2;
    assert pkts[1..][n..] == pkts[n + 1..];
  }

  lemma WalkKeeps(p: Plan, damaged: bool, v: View, pkts: seq<Packet>)
    requires v.cur < |p.windows| && |pkts| > 0 && StepOn(p, v, pkts[0]).Kept?
    ensures var step := StepOn(p, v, pkts[0]);
      Walk(p, damaged, v, pkts) ==
          ([step.pkt] + Walk(p, damaged, step.v, pkts[1..]).0, Walk(p, damaged, step.v, pkts[1..]).1)
  {
  }

  // ----- Holes -----

  ghost predicate InWindow(w: Window, r: int) { w.from <= r && (w.to < 0 || r < w.to) }

  /** The raw positions of [from, end) a window holds. */
  ghost function PositionsIn(w: Window, from: int, end: int): set<int> { set r | from <= r < end && InWindow(w, r) }

  /** What a window keeps of a range is how many of its positions it holds. */
  lemma {:induction false} KeptCounts(w: Window, from: int, end: int)
    ensures KeptOf(w, from, end) == |PositionsIn(w, from, end)|
    decreases end - from
  {
    if from >= end {
      assert PositionsIn(w, from, end) == {};
    } else {
      var last, rest := end - 1, PositionsIn(w, from, end - 1);
      KeptCounts(w, from, last);
      assert PositionsIn(w, from, end) == if InWindow(w, last) then rest + {last} else rest;
    }
  }

  /** And the windows from the i-th on keep nothing of a range exactly when no position of it is in any of them. */
  lemma {:induction false} KeptNothing(ws: seq<Window>, i: nat, from: int, end: int)
    requires i <= |ws|
    ensures KeptIn(ws, i, from, end) >= 0
    ensures KeptIn(ws, i, from, end) == 0 <==> forall j :: i <= j < |ws| ==> PositionsIn(ws[j], from, end) == {}
    decreases |ws| - i
  {
    if i < |ws| {
      KeptNothing(ws, i + 1, from, end);
      KeptCounts(ws[i], from, end);
    }
  }

  ghost predicate Ascending(ws: seq<Window>) { forall i, j :: 0 <= i < j < |ws| ==> ws[i].from <= ws[j].from }

  /** Each place begins where the one before it ends, or where its window does when that is later: nothing of a window
      is left out between the first packet of it that is handed on and the last. */
  ghost predicate Seamless(ws: seq<Window>, places: seq<Place>, pos: int)
    decreases |places|
  {
    |places| == 0 ||
    (places[0].window < |ws| && places[0].start == Max(pos, ws[places[0].window].from)
     && Seamless(ws, places[1..], places[0].end))
  }

  /** Whatever the source's packets are, a walk over windows in order never slides over a hole: what it hands on of each
      window runs on from the window's first sample, or from where the walk stood in it, without a gap. */
  lemma {:induction false} NoSilentHole(p: Plan, v: View, pkts: seq<Packet>)
    requires v.cur <= |p.windows| && Plausible(pkts) && Ascending(p.windows)
    ensures Seamless(p.windows, Places(p, v, pkts), v.pos)
    ensures forall k :: 0 <= k < |Places(p, v, pkts)| ==> v.cur <= Places(p, v, pkts)[k].window < |p.windows|
    decreases |pkts|
  {
    if v.cur < |p.windows| && |pkts| > 0 {
      var step, rest := StepOn(p, v, pkts[0]), pkts[1..];
      if !step.Refused? {
        StepMoves(p, v, pkts[0]);
        NoSilentHole(p, step.v, rest);
        if step.Skipped? {
          assert Places(p, v, pkts) == Places(p, step.v, rest);
          SkippedBefore(p, v, pkts[0], Places(p, step.v, rest));
        } else {
          PlacesKeep(p, v, pkts);
          KeptAtOnce(p, v, pkts[0]);
          var first := Place(v.pos + pkts[0].lost, step.v.pos, step.v.cur);
          assert ([first] + Places(p, step.v, rest))[1..] == Places(p, step.v, rest);
        }
      }
    }
  }

  /** A packet that is passed over ends by the start of the window ahead. */
  lemma {:induction false} SkippedBefore(p: Plan, v: View, pkt: Packet, places: seq<Place>)
    requires v.cur < |p.windows| && pkt.dur >= 0 && pkt.lost >= 0 && StepOn(p, v, pkt).Skipped?
    requires Ascending(p.windows)
    requires StepOn(p, v, pkt).v.cur <= |p.windows| && Seamless(p.windows, places, StepOn(p, v, pkt).v.pos)
    requires forall k :: 0 <= k < |places| ==> StepOn(p, v, pkt).v.cur <= places[k].window < |p.windows|
    ensures Seamless(p.windows, places, v.pos)
  {
    if |places| > 0 && pkt.track == p.track.id {
      var v' := StepOn(p, v, pkt).v;
      assert v.pos <= v'.pos <= p.windows[v'.cur].from <= p.windows[places[0].window].from;
    }
  }

  /** A packet that is kept follows on, or starts its window. */
  lemma KeptAtOnce(p: Plan, v: View, pkt: Packet)
    requires v.cur < |p.windows| && pkt.dur >= 0 && pkt.lost >= 0 && StepOn(p, v, pkt).Kept?
    ensures var step := StepOn(p, v, pkt);
      step.v.cur < |p.windows| && v.pos + pkt.lost == Max(v.pos, p.windows[step.v.cur].from)
  {
    var start, i := v.pos + pkt.lost, StepOn(p, v, pkt).v.cur;
    StepMoves(p, v, pkt);
    KeptNothing(p.windows, v.cur, v.pos, start);
    var w := p.windows[i];
    assert start > Max(v.pos, w.from) ==> start - 1 in PositionsIn(w, v.pos, start);
  }

  // ----- The end -----

  /** How far a track's packets reach, holes included. */
  function Reaching(track: int, pkts: seq<Packet>): int {
    if |pkts| == 0 then 0
    else (if pkts[0].track == track then pkts[0].lost + pkts[0].dur else 0) + Reaching(track, pkts[1..])
  }

  lemma {:induction false} ReachingPositive(track: int, pkts: seq<Packet>)
    requires Plausible(pkts)
    ensures Reaching(track, pkts) >= 0
  {
    if |pkts| > 0 {
      ReachingPositive(track, pkts[1..]);
    }
  }

  /** The audio a plan is held to lies inside its last window. */
  ghost predicate HeldInside(p: Plan) {
    |p.windows| > 0 && (p.windows[|p.windows| - 1].to < 0 || p.lastEnd <= p.windows[|p.windows| - 1].to)
  }

  lemma StepStays(p: Plan, v: View, pkt: Packet)
    requires HeldInside(p) && v.cur < |p.windows| && pkt.dur >= 0 && pkt.lost >= 0
    requires pkt.track == p.track.id ==> v.pos + pkt.lost < p.lastEnd
    ensures var step := StepOn(p, v, pkt); !step.Refused? ==> step.v.cur < |p.windows|
  {
    var last, start := |p.windows| - 1, v.pos + pkt.lost;
    assert pkt.track == p.track.id ==> p.windows[last].to < 0 || start < p.windows[last].to;
  }

  /** Packets that stop short of what a plan is held to do not end a walk cleanly, unless damage says why. */
  lemma {:induction false} ShortWalkFails(p: Plan, v: View, pkts: seq<Packet>)
    requires HeldInside(p) && v.cur < |p.windows| && Plausible(pkts) && v.pos + Reaching(p.track.id, pkts) < p.lastEnd
    ensures Walk(p, false, v, pkts).1 != Eof
    decreases |pkts|
  {
    if |pkts| > 0 {
      var step, rest := StepOn(p, v, pkts[0]), pkts[1..];
      ReachingPositive(p.track.id, rest);
      StepStays(p, v, pkts[0]);
      if !step.Refused? {
        ShortWalkFails(p, step.v, rest);
        if step.Skipped? {
          WalkSkips(p, false, v, pkts);
        } else {
          WalkKeeps(p, false, v, pkts);
        }
      }
    }
  }

  /** Whatever the walk reads on from position `pos` and window `cur`, the packet before each one of the track trims
      what the plan's source does there: `prev` is what the packet before trims, -1 ahead of the first. */
  ghost predicate TrimsAsPlanned(p: Plan, cur: nat, pos: int, prev: int, pkts: seq<Packet>)
    requires cur <= |p.windows|
    decreases |pkts|
  {
    cur == |p.windows| || |pkts| == 0 ||
    (if pkts[0].track != p.track.id then TrimsAsPlanned(p, cur, pos, prev, pkts[1..])
     else
       var start := pos + pkts[0].lost;
       && (prev < 0 || prev == TrimAt(p.trims, start))
       && TrimsAsPlanned(p, Advance(p.windows, cur, start), start + pkts[0].dur, ClampedPad(pkts[0]), pkts[1..]))
  }

  /** A walk that ends cleanly has read only packets that trim what the plan's source does, where it does. */
  lemma {:induction false} CleanWalkTrims(p: Plan, damaged: bool, v: View, pkts: seq<Packet>, prev: int)
    requires v.cur <= |p.windows| && Plausible(pkts) && Walk(p, damaged, v, pkts).1 == Eof
    requires prev == (if v.havePrev then v.prevPad else -1) && (v.havePrev ==> v.prevPad >= 0)
    ensures TrimsAsPlanned(p, v.cur, v.pos, prev, pkts)
    decreases |pkts|
  {
    if v.cur < |p.windows| && |pkts| > 0 {
      var step, rest := StepOn(p, v, pkts[0]), pkts[1..];
      assert !step.Refused?;
      StepMoves(p, v, pkts[0]);
      if step.Skipped? {
        WalkSkips(p, damaged, v, pkts);
      } else {
        WalkKeeps(p, damaged, v, pkts);
      }
      CleanWalkTrims(p, damaged, step.v, rest, if pkts[0].track == p.track.id then ClampedPad(pkts[0]) else prev);
    }
  }
}
