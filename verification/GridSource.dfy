/** A cut's view over a source on the grid it was planned for: what the walk hands on, packet by packet.

    A `Layout` is the part of a plan the walk depends on, said window by window; CutContent derives one from every
    accepted request. */
module GridSource {
  import opened Container
  import opened CutTimeline
  import opened CutPlan
  import opened CutWalk
  import opened Listening

  /** A plan with, for every window, where its audio starts (`heads`) and where a discarded tail begins (`tails`). */
  datatype Layout = Layout(g: int, plan: Plan, heads: seq<int>, tails: seq<int>) {

    function N(): nat { |plan.windows| }

    function From(i: nat): int requires i < N() { plan.windows[i].from }

    function To(i: nat): int requires i < N() { plan.windows[i].to }

    /** The output's raw length of the first i windows. */
    function Ahead(i: nat): int
      requires i <= N()
    {
      if i == 0 then 0 else Ahead(i - 1) + To(i - 1) - From(i - 1)
    }

    /** The trim the plan states for the packet of window i ending at raw position e. */
    function PlannedPad(i: nat, e: int): int
      requires i < N() && g > 0 && |tails| == |heads| == N()
    {
      if !OnGrid(e, g) then 0
      else if e <= heads[i] then g
      else if e == To(i) && i == N() - 1 then 0
      else if e == To(i) && tails[i] < e then e - tails[i]
      else TrimAt(plan.trims, e)
    }

    ghost predicate WindowSound(i: nat)
      requires i < N() && g > 0 && |tails| == |heads| == N()
    {
      && OnGrid(From(i), g) && 0 <= From(i) <= heads[i] && OnGrid(heads[i], g)
      && (if i < N() - 1 then To(i) >= 0 else To(i) >= 0 ==> tails[i] == To(i))
      && (To(i) >= 0 ==>
        && heads[i] < tails[i] <= To(i) < tails[i] + g && OnGrid(To(i), g)
        && Clear(plan.trims, tails[i]) && (tails[i] < To(i) ==> !Inside(plan.trims, tails[i] - 1)))
    }

    ghost predicate Sound() {
      && Placed(plan.trims, g) && N() > 0 && |tails| == |heads| == N()
      && (forall i :: 0 <= i < N() ==> WindowSound(i))
      && (forall i, j :: 0 <= i < j < N() ==> To(i) <= From(j))
      && (forall i :: 0 <= i < N() ==> LooksUp(i))
    }

    /** The trim the cut track states for window i's packet ending at e is the one the plan means. */
    ghost predicate LooksUp(i: nat)
      requires i < N() && g > 0 && |tails| == |heads| == N()
    {
      forall e :: From(i) < e && (To(i) >= 0 ==> e <= To(i)) ==>
        StatedPad(i, e) == PlannedPad(i, e)
    }

    /** Where window i's packet ending at raw position e ends on the output's raw timeline, and the trim stated
        there. */
    function OutEnd(i: nat, e: int): int requires i < N() { Ahead(i) + (e - From(i)) }

    function StatedPad(i: nat, e: int): int requires i < N() { TrimAt(plan.track.midTrims, OutEnd(i, e)) }
  }

  /** A source on the grid: its last packet is [last, total), of which `finalPad` samples are that packet's own trim. */
  datatype Source = Source(last: int, total: int, finalPad: int)

  /** The source the plan was made for: every packet lasts g except a last one of at most g, the inner trims are the
      planned ones and something follows each, and the packets reach past the last head and to the end the cut is held
      to. */
  ghost predicate Matches(l: Layout, s: Source)
    requires l.Sound()
  {
    && OnGrid(s.last, l.g) && 0 <= s.last < s.total <= s.last + l.g && 0 <= s.finalPad <= s.total - s.last
    && (forall i :: 0 <= i < |l.plan.trims| ==> l.plan.trims[i].End() <= s.last)
    && l.plan.lastEnd <= s.total && l.heads[l.N() - 1] < s.total
  }

  /** The trim a source packet ending at e carries. */
  function OwnPad(l: Layout, s: Source, e: int): int { if e == s.total then s.finalPad else TrimAt(l.plan.trims, e) }

  /** The packets left of the source at raw position p, packets of other tracks among them. */
  ghost predicate GridPackets(l: Layout, s: Source, pkts: seq<Packet>, p: int) {
    if |pkts| == 0 then p == s.total
    else if pkts[0].track != l.plan.track.id then GridPackets(l, s, pkts[1..], p)
    else
      && p < s.total && pkts[0].dur == Min(l.g, s.total - p) && pkts[0].lost == 0 && pkts[0].data == p
      && ClampedPad(pkts[0]) == OwnPad(l, s, p + pkts[0].dur)
      && GridPackets(l, s, pkts[1..], p + pkts[0].dur)
  }

  /** The raw position p is a packet's start, or the end. */
  ghost predicate AtPacket(l: Layout, s: Source, p: int) requires l.g > 0 {
    0 <= p <= s.total && (p < s.total ==> OnGrid(p, l.g))
  }

  /** The trim a kept packet of window i ending at e leaves the view with. */
  function PadOf(l: Layout, s: Source, i: nat, e: int): int
    requires i < l.N() && l.g > 0 && |l.tails| == |l.heads| == l.N()
  {
    if OnGrid(e, l.g) && e <= l.heads[i] then l.g
    else if i < l.N() - 1 && e == l.To(i) && l.tails[i] < e then e - l.tails[i]
    else OwnPad(l, s, e)
  }

  /** What the view hands on from raw position p and window c: every packet a window holds, retimed from `out`. */
  function Emitted(l: Layout, s: Source, c: nat, pkts: seq<Packet>, p: int, out: int): seq<Packet>
    requires l.g > 0 && |l.tails| == |l.heads| == l.N() && c <= l.N()
    decreases |pkts|
  {
    if |pkts| == 0 || c == l.N() then []
    else if pkts[0].track != l.plan.track.id then Emitted(l, s, c, pkts[1..], p, out)
    else
      var i, e := Advance(l.plan.windows, c, p), p + pkts[0].dur;
      if i == l.N() then []
      else if e <= l.From(i) then Emitted(l, s, i, pkts[1..], e, out)
      else
        var pad := PadOf(l, s, i, e);
        [pkts[0].(padding := pad, lost := 0, pts := out)] + Emitted(l, s, i, pkts[1..], e, out + pkts[0].dur - pad)
  }

  /** The output's raw position when the walk stands at p, the windows before c behind it. */
  function OutAt(l: Layout, c: nat, p: int): int
    requires c <= l.N()
  {
    if c == l.N() then l.Ahead(c) else l.Ahead(c) + Max(0, p - l.From(c))
  }

  ghost predicate InStep(l: Layout, s: Source, v: View, p: int)
    requires l.Sound()
  {
    && v.cur <= l.N() && v.pos == p && AtPacket(l, s, p)
    && v.outRaw == OutAt(l, Advance(l.plan.windows, v.cur, p), p)
    && (v.havePrev && p < s.total ==> v.prevPad == TrimAt(l.plan.trims, p))
  }

  lemma AdvanceOn(ws: seq<Window>, c: nat, p: int, q: int)
    requires c <= |ws| && p <= q
    ensures Advance(ws, Advance(ws, c, p), q) == Advance(ws, c, q)
    decreases |ws| - c
  {
  }

  /** Where the next packet of a grid source ends. */
  lemma PacketEnd(l: Layout, s: Source, p: int, e: int)
    requires l.Sound() && Matches(l, s) && AtPacket(l, s, p) && p < s.total && e == p + Min(l.g, s.total - p)
    ensures p < e <= p + l.g && AtPacket(l, s, e)
    ensures e == s.total ==> p == s.last
    ensures e < s.total ==> e == p + l.g && e <= s.last
    ensures OnGrid(e, l.g) ==> e == p + l.g
  {
    if p != s.last {
      if p < s.last {
        GridGap(p, s.last, l.g);
      } else {
        GridGap(s.last, p, l.g);
      }
    }
    NextOnGrid(p, l.g);
    if OnGrid(e, l.g) {
      GridGap(p, e, l.g);
    }
    if e < s.total && s.last < e {
      GridGap(s.last, e, l.g);
    }
  }

  /** A packet a window does not pass over lies whole inside it. */
  lemma PacketFits(l: Layout, s: Source, i: nat, p: int, e: int)
    requires l.Sound() && Matches(l, s) && AtPacket(l, s, p) && p < s.total && e == p + Min(l.g, s.total - p)
    requires i < l.N() && (l.To(i) < 0 || p < l.To(i)) && l.From(i) < e
    ensures l.From(i) <= p && (l.To(i) >= 0 ==> e <= l.To(i))
  {
    assert l.WindowSound(i);
    if p < l.From(i) {
      GridGap(p, l.From(i), l.g);
    }
    if l.To(i) >= 0 {
      GridGap(p, l.To(i), l.g);
    }
  }

  /** The trims of a grid source: the one on a packet is the one that ends with it. */
  lemma TrimOfPacket(trims: seq<PacketTrim>, g: int, p: int, r: int)
    requires Placed(trims, g) && OnGrid(p, g) && p <= r < p + g
    ensures 0 <= TrimAt(trims, p + g) <= g
    ensures Inside(trims, r) <==> r >= p + g - TrimAt(trims, p + g)
  {
    NextOnGrid(p, g);
    if EndsAt(trims, p + g) {
      var j :| 0 <= j < |trims| && trims[j].End() == p + g;
      TrimAtIs(trims, p + g, j);
      if Inside(trims, r) {
        var k :| 0 <= k < |trims| && trims[k].pos <= r < trims[k].End();
        TrimHolding(trims, g, p, r, k);
      }
    } else {
      TrimAtNone(trims, p + g);
      if Inside(trims, r) {
        var k :| 0 <= k < |trims| && trims[k].pos <= r < trims[k].End();
        TrimHolding(trims, g, p, r, k);
      }
    }
  }

  lemma TrimHolding(trims: seq<PacketTrim>, g: int, p: int, r: int, k: nat)
    requires Placed(trims, g) && OnGrid(p, g) && p <= r < p + g && k < |trims| && trims[k].pos <= r < trims[k].End()
    ensures trims[k].End() == p + g
  {
    var end := trims[k].End();
    NextOnGrid(p, g);
    GridGap(p, end, g);
    if p + g < end {
      GridGap(p + g, end, g);
    }
  }

  lemma {:induction false} TrimAtBounded(trims: seq<PacketTrim>, g: int, e: int)
    requires Placed(trims, g)
    ensures 0 <= TrimAt(trims, e) <= g
  {
    if EndsAt(trims, e) {
      var j :| 0 <= j < |trims| && trims[j].End() == e;
      TrimAtIs(trims, e, j);
    } else {
      TrimAtNone(trims, e);
    }
  }

  /** The trim the view gives a packet: the larger of its own and the plan's. */
  lemma PadIs(l: Layout, s: Source, i: nat, p: int, e: int)
    requires l.Sound() && Matches(l, s) && AtPacket(l, s, p) && p < s.total && e == p + Min(l.g, s.total - p)
    requires i < l.N() && l.From(i) < e && (l.To(i) >= 0 ==> e <= l.To(i))
    ensures Max(OwnPad(l, s, e), l.StatedPad(i, e)) == PadOf(l, s, i, e)
  {
    var trims, own, planned := l.plan.trims, OwnPad(l, s, e), l.PlannedPad(i, e);
    assert l.LooksUp(i);
    assert l.StatedPad(i, e) == planned;
    assert l.WindowSound(i);
    PacketEnd(l, s, p, e);
    TrimAtBounded(trims, l.g, e);
    if e == s.total {
      TotalIsUntrimmed(l, s);
    }
    if !OnGrid(e, l.g) {
      assert PadOf(l, s, i, e) == own && planned == 0;
    } else if e <= l.heads[i] {
    } else if e == l.To(i) && i < l.N() - 1 && l.tails[i] < e {
      SlopCoversTrim(l, i, p);
      InnerEnd(l, s, i);
    }
  }

  lemma TotalIsUntrimmed(l: Layout, s: Source)
    requires l.Sound() && Matches(l, s)
    ensures TrimAt(l.plan.trims, s.total) == 0
  {
    TrimAtNone(l.plan.trims, s.total);
  }

  /** An interior window ends before the source does. */
  lemma InnerEnd(l: Layout, s: Source, i: nat)
    requires l.Sound() && Matches(l, s) && i < l.N() - 1
    ensures l.To(i) <= s.last
  {
    assert l.WindowSound(i) && l.WindowSound(l.N() - 1);
    if s.last < l.To(i) {
      GridGap(s.last, l.To(i), l.g);
    }
  }

  /** A tail slop reaches back at least as far as a trim on its packet. */
  lemma SlopCoversTrim(l: Layout, i: nat, p: int)
    requires l.Sound() && i < l.N() && l.To(i) >= 0 && l.tails[i] < l.To(i) && OnGrid(p, l.g) && l.To(i) == p + l.g
    ensures TrimAt(l.plan.trims, l.To(i)) <= l.To(i) - l.tails[i] < l.g
  {
    assert l.WindowSound(i);
    TrimOfPacket(l.plan.trims, l.g, p, l.tails[i] - 1);
  }
}
