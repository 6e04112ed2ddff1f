/** What a reader hears: the raw samples a run of packets delivers, each named by its position on the source's raw
    timeline, once every packet's own trim, the delay and the padding are dropped. */
module Listening {
  import opened Container
  import opened CutTimeline

  /** The positions of [lo, hi) that satisfy p, in order. */
  ghost function Select(p: int -> bool, lo: int, hi: int): seq<int>
    decreases hi - lo
  {
    if lo >= hi then [] else Select(p, lo, hi - 1) + (if p(hi - 1) then [hi - 1] else [])
  }

  /** The positions of [lo, hi). */
  ghost function Run(lo: int, hi: int): seq<int>
    decreases hi - lo
  {
    if lo >= hi then [] else Run(lo, hi - 1) + [hi - 1]
  }

  /** The track samples [from, end), as raw positions. */
  ghost function TrackSamples(trims: seq<PacketTrim>, delay: int, from: int, end: int): seq<int>
    decreases end - from
  {
    if from >= end then [] else TrackSamples(trims, delay, from, end - 1) + [RawOf(trims, delay, end - 1)]
  }

  /** What the packets deliver once each one's own trim is dropped. */
  ghost function Decoded(pkts: seq<Packet>): seq<int> {
    if |pkts| == 0 then [] else Run(pkts[0].data, pkts[0].data + pkts[0].dur - ClampedPad(pkts[0])) + Decoded(pkts[1..])
  }

  function Drop<T>(s: seq<T>, n: int): seq<T> { if n <= 0 then s else if n >= |s| then [] else s[n..] }

  function Take<T>(s: seq<T>, n: int): seq<T> { if n <= 0 then [] else if n >= |s| then s else s[..n] }

  /** What a listener hears of a track: the delay dropped, and the stated length taken when there is one. */
  ghost function Listened(t: Track, pkts: seq<Packet>): seq<int> {
    var d := Drop(Decoded(pkts), t.delay);
    if t.samples < 0 then d else Take(d, t.samples)
  }

  ghost function Untrimmed(trims: seq<PacketTrim>): int -> bool { r => !Inside(trims, r) }

  // ----- Select -----

  lemma {:induction false} SelectSplit(p: int -> bool, lo: int, mid: int, hi: int)
    requires lo <= mid <= hi
    ensures Select(p, lo, hi) == Select(p, lo, mid) + Select(p, mid, hi)
    decreases hi - mid
  {
    if mid < hi {
      SelectSplit(p, lo, mid, hi - 1);
    }
  }

  /** Labels in strictly ascending order: nothing comes twice, or back. */
  ghost predicate Climbs(labels: seq<int>) {
    forall a, b :: 0 <= a < b < |labels| ==> labels[a] < labels[b]
  }

  lemma {:induction false} SelectClimbs(p: int -> bool, lo: int, hi: int)
    ensures Climbs(Select(p, lo, hi))
    ensures forall i :: 0 <= i < |Select(p, lo, hi)| ==> Select(p, lo, hi)[i] < hi
    decreases hi - lo
  {
    if lo < hi {
      SelectClimbs(p, lo, hi - 1);
    }
  }

  lemma {:induction false} SelectSame(p: int -> bool, q: int -> bool, lo: int, hi: int)
    requires forall r :: lo <= r < hi ==> p(r) == q(r)
    ensures Select(p, lo, hi) == Select(q, lo, hi)
    decreases hi - lo
  {
    if lo < hi {
      SelectSame(p, q, lo, hi - 1);
    }
  }

  lemma {:induction false} SelectNone(p: int -> bool, lo: int, hi: int)
    requires forall r :: lo <= r < hi ==> !p(r)
    ensures Select(p, lo, hi) == []
    decreases hi - lo
  {
    if lo < hi {
      SelectNone(p, lo, hi - 1);
    }
  }

  lemma {:induction false} SelectAll(p: int -> bool, lo: int, hi: int)
    requires forall r :: lo <= r < hi ==> p(r)
    ensures Select(p, lo, hi) == Run(lo, hi)
    decreases hi - lo
  {
    if lo < hi {
      SelectAll(p, lo, hi - 1);
    }
  }

  /** A stretch heard up to a point and not after it. */
  lemma SelectUpTo(p: int -> bool, lo: int, mid: int, hi: int)
    requires lo <= hi && mid <= hi
    requires forall r :: lo <= r < hi ==> (p(r) <==> r < mid)
    ensures Select(p, lo, hi) == Run(lo, mid)
  {
    if lo <= mid {
      SelectSplit(p, lo, mid, hi);
      SelectAll(p, lo, mid);
      SelectNone(p, mid, hi);
    } else {
      SelectNone(p, lo, hi);
    }
  }

  lemma {:induction false} DecodedAppend(a: seq<Packet>, b: seq<Packet>)
    ensures Decoded(a + b) == Decoded(a) + Decoded(b)
  {
    if |a| == 0 {
      assert a + b == b;
    } else {
      assert (a + b)[1..] == a[1..] + b;
      DecodedAppend(a[1..], b);
    }
  }

  // ----- Raw stretches as stretches of the track -----

  /** Between two positions outside every trim, the untrimmed raw samples are the track's own, in order. */
  lemma {:induction false} UntrimmedIsTrack(trims: seq<PacketTrim>, g: int, delay: int, lo: int, hi: int)
    requires Placed(trims, g) && lo <= hi && Clear(trims, lo) && Clear(trims, hi)
    ensures Select(Untrimmed(trims), lo, hi) ==
        TrackSamples(trims, delay, TrackOf(trims, delay, lo), TrackOf(trims, delay, hi))
    decreases hi - lo
  {
    if lo == hi {
      assert Select(Untrimmed(trims), lo, hi) == [];
    } else if Inside(trims, hi - 1) {
      var mid := BackOverTrim(trims, g, lo, hi);
      UntrimmedIsTrack(trims, g, delay, lo, mid);
      assert TrackOf(trims, delay, mid) == TrackOf(trims, delay, hi);
    } else {
      OutsideIsClear(trims, g, hi - 1);
      UntrimmedIsTrack(trims, g, delay, lo, hi - 1);
      OneMoreHeard(trims, g, delay, lo, hi);
    }
  }

  lemma OneMoreHeard(trims: seq<PacketTrim>, g: int, delay: int, lo: int, hi: int)
    requires Placed(trims, g) && lo < hi && Clear(trims, lo) && !Inside(trims, hi - 1)
    requires Select(Untrimmed(trims), lo, hi - 1)
          == TrackSamples(trims, delay, TrackOf(trims, delay, lo), TrackOf(trims, delay, hi - 1))
    ensures Select(Untrimmed(trims), lo, hi)
         == TrackSamples(trims, delay, TrackOf(trims, delay, lo), TrackOf(trims, delay, hi))
  {
    var from, end := TrackOf(trims, delay, lo), TrackOf(trims, delay, hi);
    LastHeard(trims, g, delay, lo, hi);
    assert TrackOf(trims, delay, hi - 1) == end - 1;
    SelectLast(Untrimmed(trims), lo, hi);
    TrackSamplesLast(trims, delay, from, end);
  }

  lemma SelectLast(p: int -> bool, lo: int, hi: int)
    requires lo < hi && p(hi - 1)
    ensures Select(p, lo, hi) == Select(p, lo, hi - 1) + [hi - 1]
  {
  }

  lemma TrackSamplesLast(trims: seq<PacketTrim>, delay: int, from: int, end: int)
    requires from < end
    ensures TrackSamples(trims, delay, from, end)
         == TrackSamples(trims, delay, from, end - 1) + [RawOf(trims, delay, end - 1)]
  {
  }

  lemma BackOverTrim(trims: seq<PacketTrim>, g: int, lo: int, hi: int) returns (mid: int)
    requires Placed(trims, g) && lo < hi && Clear(trims, lo) && Clear(trims, hi) && Inside(trims, hi - 1)
    ensures lo <= mid < hi && Clear(trims, mid) && Heard(trims, mid) == Heard(trims, hi)
    ensures Select(Untrimmed(trims), lo, hi) == Select(Untrimmed(trims), lo, mid)
  {
    var j :| 0 <= j < |trims| && trims[j].pos <= hi - 1 < trims[j].End();
    mid := trims[j].pos;
    TrimIsSilent(trims, g, j);
    SelectSplit(Untrimmed(trims), lo, mid, hi);
    SelectNone(Untrimmed(trims), mid, hi);
  }

  lemma LastHeard(trims: seq<PacketTrim>, g: int, delay: int, lo: int, hi: int)
    requires Placed(trims, g) && lo < hi && Clear(trims, lo) && !Inside(trims, hi - 1)
    ensures TrackOf(trims, delay, lo) < TrackOf(trims, delay, hi) == TrackOf(trims, delay, hi - 1) + 1
    ensures RawOf(trims, delay, TrackOf(trims, delay, hi - 1)) == hi - 1
  {
    NextHeard(trims, g, hi - 1);
    HeardMonotone(trims, g, lo, hi - 1);
    RawOfIsTheSample(trims, g, delay, TrackOf(trims, delay, hi - 1), hi - 1);
  }

  lemma TrimIsSilent(trims: seq<PacketTrim>, g: int, j: nat)
    requires Placed(trims, g) && j < |trims|
    ensures Clear(trims, trims[j].pos)
    ensures Heard(trims, trims[j].End()) == Heard(trims, trims[j].pos)
    ensures forall r :: trims[j].pos <= r < trims[j].End() ==> Inside(trims, r)
  {
    BeforeIs(trims, g, trims[j].pos, j);
    BeforeIs(trims, g, trims[j].End(), j + 1);
    forall i | 0 <= i < |trims|
      ensures trims[j].pos <= trims[i].pos || trims[i].End() <= trims[j].pos
    {
    }
  }

  lemma {:induction false} TrackSamplesLength(trims: seq<PacketTrim>, delay: int, from: int, end: int)
    ensures |TrackSamples(trims, delay, from, end)| == Max(0, end - from)
    decreases end - from
  {
    if from < end {
      TrackSamplesLength(trims, delay, from, end - 1);
    }
  }
}
