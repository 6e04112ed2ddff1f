/** The two timelines a cut works between (cut.go): the raw one, which counts every sample the packets last for, and
    the track's, which counts only those that are played. */
module CutTimeline {
  import opened Container

  /** Trims at the tails of distinct packets of a g-sample grid, in ascending order. */
  ghost predicate Placed(trims: seq<PacketTrim>, g: int) {
    && g > 0
    && (forall i :: 0 <= i < |trims| ==> 0 < trims[i].samples <= g && 0 <= trims[i].pos && OnGrid(trims[i].End(), g))
    && (forall i, j :: 0 <= i < j < |trims| ==> trims[i].End() <= trims[j].pos)
  }

  /** The raw sample r is one a trim removes. */
  ghost predicate Inside(trims: seq<PacketTrim>, r: int) {
    exists i :: 0 <= i < |trims| && trims[i].pos <= r < trims[i].End()
  }

  /** The boundary before raw sample r does not fall within a trim. */
  ghost predicate Clear(trims: seq<PacketTrim>, r: int) {
    forall i :: 0 <= i < |trims| ==> r <= trims[i].pos || trims[i].End() <= r
  }

  /** The number of leading trims that end at or before raw. */
  function Before(trims: seq<PacketTrim>, raw: int): (k: nat)
    ensures k <= |trims|
  {
    BeforeFrom(trims, 0, raw)
  }

  function BeforeFrom(trims: seq<PacketTrim>, i: nat, raw: int): (k: nat)
    requires i <= |trims|
    ensures i <= k <= |trims|
    ensures forall j :: i <= j < k ==> trims[j].End() <= raw
    ensures k < |trims| ==> raw < trims[k].End()
    decreases |trims| - i
  {
    if i < |trims| && trims[i].End() <= raw then BeforeFrom(trims, i + 1, raw) else i
  }

  /** The raw samples before `raw` that no trim removes, when `raw` is not within a trim. */
  function Heard(trims: seq<PacketTrim>, raw: int): int { raw - SumTo(trims, Before(trims, raw)) }

  /** A raw position on the track's timeline. */
  function TrackOf(trims: seq<PacketTrim>, delay: int, raw: int): int { Heard(trims, raw) - delay }

  /** The raw position reached from `raw` by stepping over every trim from the i-th on that begins at or before it. */
  function Stepped(trims: seq<PacketTrim>, i: nat, raw: int): int
    requires i <= |trims|
    decreases |trims| - i
  {
    if i < |trims| && trims[i].pos <= raw then Stepped(trims, i + 1, raw + trims[i].samples) else raw
  }

  /** The raw position of track sample t. */
  function RawOf(trims: seq<PacketTrim>, delay: int, t: int): int { Stepped(trims, 0, t + delay) }

  /** One past the raw position of the last sample of a span ending at t. */
  function RawEndOf(trims: seq<PacketTrim>, delay: int, t: int): int { RawOf(trims, delay, t - 1) + 1 }

  /** rawStart: where on the raw timeline track sample t is. */
  method RawStart(trims: seq<PacketTrim>, delay: int, t: int) returns (raw: int)
    ensures raw == RawOf(trims, delay, t)
  {
    raw := t + delay;
    var i := 0;
    while i < |trims|
      invariant 0 <= i <= |trims|
      invariant Stepped(trims, i, raw) == RawOf(trims, delay, t)
    {
      if trims[i].pos > raw {
        break;
      }
      raw := raw + trims[i].samples;
      i := i + 1;
    }
  }

  /** rawEnd: where a span that ends at t stops on the raw timeline, just past its last sample. */
  method RawEnd(trims: seq<PacketTrim>, delay: int, t: int) returns (raw: int)
    ensures raw == RawEndOf(trims, delay, t)
  {
    raw := RawStart(trims, delay, t - 1);
    raw := raw + 1;
  }

  /** trackPos: which track sample is the first at or past a packet boundary. */
  method TrackPos(trims: seq<PacketTrim>, delay: int, raw: int) returns (t: int)
    ensures t == TrackOf(trims, delay, raw)
  {
    t := raw - delay;
    var i := 0;
    while i < |trims|
      invariant 0 <= i <= |trims|
      invariant t == raw - delay - SumTo(trims, i)
      invariant BeforeFrom(trims, i, raw) == Before(trims, raw)
    {
      if trims[i].End() > raw {
        break;
      }
      t := t - trims[i].samples;
      i := i + 1;
    }
  }

  /** trimsWithin: the trims inside the raw range [from, to), a negative `to` meaning to the end. */
  method TrimsWithin(trims: seq<PacketTrim>, from: int, to: int, ghost g: int) returns (out: seq<PacketTrim>)
    requires Placed(trims, g) && Clear(trims, from) && (to < 0 || from <= to)
    ensures out == trims[Before(trims, from)..(if to < 0 then |trims| else Before(trims, to))]
  {
    out := [];
    ghost var lo := Before(trims, from);
    BeforeSplits(trims, g, from);
    if to >= 0 {
      BeforeSplits(trims, g, to);
    }
    var i := 0;
    while i < |trims|
      invariant 0 <= i <= |trims|
      invariant out == if i <= lo then [] else trims[lo..i]
      invariant to >= 0 ==> i <= Max(lo, Before(trims, to))
    {
      if trims[i].pos >= from {
        if to >= 0 && trims[i].End() > to {
          break;
        }
        out := out + [trims[i]];
      }
      i := i + 1;
    }
  }

  /** The trim ending at raw position `end`, 0 when none does. */
  function TrimAt(trims: seq<PacketTrim>, end: int): int {
    if |trims| == 0 then 0
    else if trims[|trims| - 1].End() == end then trims[|trims| - 1].samples
    else TrimAt(trims[..|trims| - 1], end)
  }

  /** plannedTrim: the same answer by binary search, for a list in order. */
  method PlannedTrim(trims: seq<PacketTrim>, end: int) returns (samples: int)
    requires forall i :: 0 <= i < |trims| ==> trims[i].samples > 0
    requires forall i, j :: 0 <= i < j < |trims| ==> trims[i].End() <= trims[j].pos
    ensures samples == TrimAt(trims, end)
  {
    var lo, hi := 0, |trims|;
    while lo < hi
      invariant 0 <= lo <= hi <= |trims|
      invariant forall i :: 0 <= i < lo ==> trims[i].pos < end
      invariant forall i :: hi <= i < |trims| ==> trims[i].pos >= end
    {
      var mid := (lo + hi) / 2;
      if trims[mid].pos >= end {
        hi := mid;
      } else {
        lo := mid + 1;
      }
    }
    if lo > 0 && trims[lo - 1].End() == end {
      samples := trims[lo - 1].samples;
      TrimAtIs(trims, end, lo - 1);
    } else {
      samples := 0;
      TrimAtNone(trims, end);
    }
  }

  /** placeableTrims: whether a track's inner trims can be planned around on a g-sample grid. */
  method PlaceableTrims(track: Track, g: int) returns (ok: bool)
    requires g > 0
    ensures ok <==> Placeable(track, g)
  {
    var complete := MidTrimsComplete(track);
    if !complete || track.midPadding >= MAX_CUT_SAMPLE {
      return false;
    }
    var trims := track.midTrims;
    var prev := 0;
    for i := 0 to |trims|
      invariant prev == if i == 0 then 0 else trims[i - 1].End()
      invariant Placed(trims[..i], g)
    {
      var tr := trims[i];
      if tr.End() >= 0 {
        OnGridIsMultiple(tr.End(), g);
      }
      if tr.samples <= 0 || tr.samples > g || tr.pos < prev || tr.End() % g != 0 {
        return false;
      }
      prev := tr.End();
    }
    assert trims == trims[..|trims|];
    return true;
  }

  /** What the planner refuses a span, a delay, a grid or an inner padding for reaching. */
  const MAX_CUT_SAMPLE: int := 0x2000_0000_0000_0000

  ghost predicate Placeable(track: Track, g: int) {
    Sum(track.midTrims) == track.midPadding && track.midPadding < MAX_CUT_SAMPLE && Placed(track.midTrims, g)
  }

  /** The nearest packet boundary at or before x, and at or after it. */
  function SnapGridDown(x: int, g: int): (r: int)
    requires g > 0
    ensures OnGrid(r, g) && 0 <= r && (x >= 0 ==> r <= x < r + g) && (x < 0 ==> r == 0)
  {
    if x <= 0 then 0 else MultipleOnGrid(x / g, g); x / g * g
  }

  function SnapGridUp(x: int, g: int): (r: int)
    requires g > 0
    ensures OnGrid(r, g) && 0 <= r && x <= r && (x >= 0 ==> r < x + g)
  {
    if x <= 0 then 0 else MultipleOnGrid((x + g - 1) / g, g); (x + g - 1) / g * g
  }

  /** x is a multiple of g, at or past zero: said by counting down, so that proofs stay linear. */
  predicate OnGrid(x: int, g: int)
    decreases x
  {
    g > 0 && x >= 0 && (x == 0 || OnGrid(x - g, g))
  }

  lemma {:induction false} OnGridIsMultiple(x: int, g: int)
    requires g > 0 && x >= 0
    ensures OnGrid(x, g) <==> x % g == 0
    decreases x
  {
    if x >= g {
      OnGridIsMultiple(x - g, g);
      ModDown(x, g);
    }
  }

  lemma ModDown(x: int, g: int)
    requires g > 0
    ensures (x - g) % g == x % g
  {
    var q := x / g;
    assert x == g * q + x % g;
    DivUnique(x - g, g, q - 1);
  }

  /** The quotient of x by g is the one whose multiple is the last at or before x. */
  lemma DivUnique(x: int, g: int, k: int)
    requires g > 0 && k * g <= x < k * g + g
    ensures x / g == k && x % g == x - k * g
  {
    var q := x / g;
    assert x == g * q + x % g;
    assert q < k ==> g * (q + 1) <= g * k;
    assert q > k ==> g * (k + 1) <= g * q;
  }

  lemma {:induction false} MultipleOnGrid(k: nat, g: int)
    requires g > 0
    ensures OnGrid(k * g, g)
  {
    if k > 0 {
      MultipleOnGrid(k - 1, g);
      assert k * g - g == (k - 1) * g;
      assert k * g >= g;
    }
  }

  // ----- Lookups -----

  ghost predicate EndsAt(trims: seq<PacketTrim>, end: int) {
    exists i :: 0 <= i < |trims| && trims[i].End() == end
  }

  lemma {:induction false} TrimAtNone(trims: seq<PacketTrim>, end: int)
    requires !EndsAt(trims, end)
    ensures TrimAt(trims, end) == 0
  {
    if |trims| > 0 {
      assert trims[|trims| - 1].End() != end;
      TrimAtNone(trims[..|trims| - 1], end);
    }
  }

  lemma {:induction false} TrimAtIs(trims: seq<PacketTrim>, end: int, k: nat)
    requires k < |trims| && trims[k].End() == end
    requires forall j :: k < j < |trims| ==> trims[j].End() != end
    ensures TrimAt(trims, end) == trims[k].samples
  {
    if k < |trims| - 1 {
      TrimAtIs(trims[..|trims| - 1], end, k);
    }
  }

  // ----- Where trims lie -----

  lemma BeforeSplits(trims: seq<PacketTrim>, g: int, raw: int)
    requires Placed(trims, g)
    ensures forall i :: 0 <= i < Before(trims, raw) ==> trims[i].End() <= raw
    ensures forall i :: Before(trims, raw) <= i < |trims| ==> raw < trims[i].End()
  {
  }

  /** A split of the trims around raw is the only one. */
  lemma BeforeIs(trims: seq<PacketTrim>, g: int, raw: int, k: nat)
    requires Placed(trims, g) && k <= |trims|
    requires k > 0 ==> trims[k - 1].End() <= raw
    requires k < |trims| ==> raw < trims[k].End()
    ensures Before(trims, raw) == k
  {
    assert forall j :: 0 <= j < k ==> trims[j].End() <= trims[k - 1].End();
  }

  lemma BeforeMonotone(trims: seq<PacketTrim>, g: int, x: int, y: int)
    requires Placed(trims, g) && x <= y
    ensures Before(trims, x) <= Before(trims, y)
  {
    assert forall j :: 0 <= j < Before(trims, x) ==> trims[j].End() <= x;
  }

  lemma {:induction false} SumToMonotone(trims: seq<PacketTrim>, g: int, i: nat, j: nat)
    requires Placed(trims, g) && i <= j <= |trims|
    ensures SumTo(trims, i) <= SumTo(trims, j)
    decreases j
  {
    if i < j {
      SumToMonotone(trims, g, i, j - 1);
    }
  }

  /** The trims between x and y fit between them, and leave x itself when x is not trimmed. */
  lemma {:induction false} TrimsFit(trims: seq<PacketTrim>, g: int, x: int, k: nat)
    requires Placed(trims, g) && Clear(trims, x) && Before(trims, x) < k <= |trims|
    ensures SumTo(trims, k) - SumTo(trims, Before(trims, x))
         <= trims[k - 1].End() - x - (if Inside(trims, x) then 0 else 1)
    decreases k
  {
    var b := Before(trims, x);
    BeforeSplits(trims, g, x);
    assert x <= trims[b].pos;
    if !Inside(trims, x) {
      assert x < trims[b].pos;
    }
    if k - 1 > b {
      TrimsFit(trims, g, x, k - 1);
      assert trims[k - 2].End() <= trims[k - 1].pos;
    }
  }

  /** Positions keep their order from the raw timeline to the track's, strictly after a sample that is heard. */
  lemma HeardMonotone(trims: seq<PacketTrim>, g: int, x: int, y: int)
    requires Placed(trims, g) && x <= y && Clear(trims, x)
    ensures Heard(trims, x) <= Heard(trims, y)
    ensures x < y && !Inside(trims, x) ==> Heard(trims, x) < Heard(trims, y)
    ensures Heard(trims, y) - Heard(trims, x) <= y - x
  {
    BeforeMonotone(trims, g, x, y);
    SumToMonotone(trims, g, Before(trims, x), Before(trims, y));
    if Before(trims, x) < Before(trims, y) {
      TrimsFit(trims, g, x, Before(trims, y));
      BeforeSplits(trims, g, y);
    }
  }

  lemma {:induction false} SteppedLands(trims: seq<PacketTrim>, g: int, i: nat, raw: int)
    requires Placed(trims, g) && i <= |trims| && (i > 0 ==> trims[i - 1].End() <= raw)
    ensures var r := Stepped(trims, i, raw); !Inside(trims, r) && Heard(trims, r) == raw - SumTo(trims, i) && raw <= r
    decreases |trims| - i
  {
    if i < |trims| && trims[i].pos <= raw {
      SteppedLands(trims, g, i + 1, raw + trims[i].samples);
    } else {
      if i < |trims| {
        assert raw < trims[i].End();
      }
      BeforeIs(trims, g, raw, i);
      forall j | 0 <= j < |trims|
        ensures !(trims[j].pos <= raw < trims[j].End())
      {
        if i < j {
          assert trims[i].End() <= trims[j].pos;
        } else if j < i - 1 {
          assert trims[j].End() <= trims[i - 1].pos;
        }
      }
    }
  }

  /** rawStart names the sample: track sample t is the raw sample no trim removes that has t + delay heard ones before
      it, and no other raw sample is. */
  lemma RawOfIsTheSample(trims: seq<PacketTrim>, g: int, delay: int, t: int, r: int)
    requires Placed(trims, g)
    ensures r == RawOf(trims, delay, t) <==> !Inside(trims, r) && Heard(trims, r) == t + delay
  {
    SteppedLands(trims, g, 0, t + delay);
    var s := RawOf(trims, delay, t);
    if !Inside(trims, r) && Heard(trims, r) == t + delay && r != s {
      if r < s {
        OutsideIsClear(trims, g, r);
        HeardMonotone(trims, g, r, s);
      } else {
        OutsideIsClear(trims, g, s);
        HeardMonotone(trims, g, s, r);
      }
      assert false;
    }
  }

  lemma OutsideIsClear(trims: seq<PacketTrim>, g: int, r: int)
    requires Placed(trims, g) && !Inside(trims, r)
    ensures Clear(trims, r) && Clear(trims, r + 1)
  {
    forall i | 0 <= i < |trims|
      ensures (r <= trims[i].pos || trims[i].End() <= r) && (r + 1 <= trims[i].pos || trims[i].End() <= r + 1)
    {
      assert !(trims[i].pos <= r < trims[i].End());
    }
  }

  /** The mappings undo each other, keep order, and never name a trimmed sample. */
  lemma TimelinesAreInverse(trims: seq<PacketTrim>, g: int, delay: int, t: int, u: int, raw: int)
    requires Placed(trims, g) && t < u
    ensures TrackOf(trims, delay, RawOf(trims, delay, t)) == t
    ensures TrackOf(trims, delay, RawEndOf(trims, delay, u)) == u
    ensures RawOf(trims, delay, t) < RawEndOf(trims, delay, u) <= RawOf(trims, delay, u)
    ensures !Inside(trims, RawOf(trims, delay, t)) && Clear(trims, RawEndOf(trims, delay, u))
    ensures !Inside(trims, raw) ==> RawOf(trims, delay, TrackOf(trims, delay, raw)) == raw
  {
    HeadIsInverse(trims, g, delay, t);
    TailIsInverse(trims, g, delay, u);
    RawOfIsTheSample(trims, g, delay, TrackOf(trims, delay, raw), raw);
    if t < u - 1 {
      RawOfMonotone(trims, g, delay, t, u - 1);
    }
  }

  lemma HeadIsInverse(trims: seq<PacketTrim>, g: int, delay: int, t: int)
    requires Placed(trims, g)
    ensures TrackOf(trims, delay, RawOf(trims, delay, t)) == t && !Inside(trims, RawOf(trims, delay, t))
  {
    RawOfIsTheSample(trims, g, delay, t, RawOf(trims, delay, t));
  }

  lemma TailIsInverse(trims: seq<PacketTrim>, g: int, delay: int, u: int)
    requires Placed(trims, g)
    ensures TrackOf(trims, delay, RawEndOf(trims, delay, u)) == u && Clear(trims, RawEndOf(trims, delay, u))
    ensures RawOf(trims, delay, u - 1) < RawEndOf(trims, delay, u) <= RawOf(trims, delay, u)
  {
    var last := RawOf(trims, delay, u - 1);
    HeadIsInverse(trims, g, delay, u - 1);
    OutsideIsClear(trims, g, last);
    NextHeard(trims, g, last);
    RawOfMonotone(trims, g, delay, u - 1, u);
  }

  lemma RawOfMonotone(trims: seq<PacketTrim>, g: int, delay: int, t: int, u: int)
    requires Placed(trims, g) && t < u
    ensures RawOf(trims, delay, t) < RawOf(trims, delay, u)
  {
    var r, s := RawOf(trims, delay, t), RawOf(trims, delay, u);
    RawOfIsTheSample(trims, g, delay, t, r);
    RawOfIsTheSample(trims, g, delay, u, s);
    if s <= r {
      OutsideIsClear(trims, g, s);
      HeardMonotone(trims, g, s, r);
    }
  }

  lemma NextHeard(trims: seq<PacketTrim>, g: int, r: int)
    requires Placed(trims, g) && !Inside(trims, r)
    ensures Heard(trims, r + 1) == Heard(trims, r) + 1
  {
    var b := Before(trims, r);
    BeforeSplits(trims, g, r);
    if b < |trims| {
      assert r < trims[b].pos;
    }
    BeforeIs(trims, g, r + 1, b);
  }

  /** A packet boundary is never within a trim. */
  lemma GridIsClear(trims: seq<PacketTrim>, g: int, x: int)
    requires Placed(trims, g) && OnGrid(x, g)
    ensures Clear(trims, x)
  {
    forall i | 0 <= i < |trims|
      ensures x <= trims[i].pos || trims[i].End() <= x
    {
      var end := trims[i].End();
      if x < end {
        GridGap(x, end, g);
      }
    }
  }

  lemma {:induction false} GridGap(x: int, y: int, g: int)
    requires g > 0 && OnGrid(x, g) && OnGrid(y, g) && x < y
    ensures x + g <= y
    decreases x
  {
    if x > 0 {
      GridGap(x - g, y - g, g);
    }
  }

  lemma NextOnGrid(p: int, g: int)
    requires g > 0 && OnGrid(p, g)
    ensures OnGrid(p + g, g)
  {
  }

  lemma {:induction false} SumOnGrid(x: int, y: int, g: int)
    requires g > 0 && OnGrid(x, g) && OnGrid(y, g)
    ensures OnGrid(x + y, g) && (y <= x ==> OnGrid(x - y, g))
    decreases y
  {
    if y > 0 {
      SumOnGrid(x, y - g, g);
      NextOnGrid(x + (y - g), g);
      if y <= x && x - (y - g) > 0 {
        assert OnGrid(x - (y - g) - g, g);
      }
    }
  }

  /** No trim empties a packet. */
  ghost predicate PartialTrims(trims: seq<PacketTrim>, g: int) {
    forall i :: 0 <= i < |trims| ==> trims[i].samples < g
  }

  /** A packet's start is then a sample that is heard, so a landing names one packet. */
  lemma StartIsHeard(trims: seq<PacketTrim>, g: int, p: int)
    requires Placed(trims, g) && PartialTrims(trims, g) && OnGrid(p, g)
    ensures !Inside(trims, p)
  {
    if Inside(trims, p) {
      var i :| 0 <= i < |trims| && trims[i].pos <= p < trims[i].End();
      GridGap(p, trims[i].End(), g);
    }
  }
}
