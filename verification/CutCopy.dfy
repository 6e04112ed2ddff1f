/** A cut's walk, as the packet copy sees it. */
module CutCopy {
  import opened Container
  import opened CutPlan
  import opened CutWalk
  import opened GridSource
  import opened CutContent
  import opened Remux

  /** Every packet handed on is the cut track's, whole, and trimmed by no more than it holds. */
  lemma {:induction false} EmittedClean(l: Layout, s: Source, c: nat, pkts: seq<Packet>, p: int, out: int)
    requires l.Sound() && Matches(l, s) && GridPackets(l, s, pkts, p) && AtPacket(l, s, p) && c <= l.N()
    ensures Clean(l.plan.track.id, Emitted(l, s, c, pkts, p, out))
    decreases |pkts|
  {
    if c < l.N() && |pkts| > 0 {
      var pkt, rest := pkts[0], pkts[1..];
      if pkt.track != l.plan.track.id {
        EmittedClean(l, s, c, rest, p, out);
      } else {
        var i, e := Advance(l.plan.windows, c, p), p + pkt.dur;
        if i < l.N() {
          PacketEnd(l, s, p, e);
          if e <= l.From(i) {
            EmittedClean(l, s, i, rest, e, out);
          } else {
            PacketFits(l, s, i, p, e);
            PadCutsToBody(l, s, i, p, e, p);
            EmittedClean(l, s, i, rest, e, out + pkt.dur - PadOf(l, s, i, e));
          }
        }
      }
    }
  }

  /** Past the source's end or the last window's nothing is handed on. */
  lemma {:induction false} NothingLeft(l: Layout, s: Source, c: nat, pkts: seq<Packet>, p: int, out: int)
    requires l.Sound() && Matches(l, s) && GridPackets(l, s, pkts, p) && c < l.N()
    requires p == s.total || (c == l.N() - 1 && 0 <= p == l.To(c))
    ensures Emitted(l, s, c, pkts, p, out) == []
    decreases |pkts|
  {
    if |pkts| > 0 && pkts[0].track != l.plan.track.id {
      NothingLeft(l, s, c, pkts[1..], p, out);
    }
  }
}
