/** The packet copy (remux.go): what it writes, what it counts, and the trailer that settles an output's length. */
module Remux {
  import opened Container
  import opened CutPlan
  import opened CutWalk
  import opened Listening

  // ----- Holes -----

  /** The largest legal FLAC block. */
  const MAX_BLOCK: int := 65535

  /** The payload of n silent samples: they decode to the labels [-n, 0), none of them a sample of the source. */
  function Hushed(n: int): int { -n }

  /** `left` samples of silence from time `at`, in frames of the stream's block size. */
  function SilentFrames(track: int, at: int, left: int, block: int): seq<Packet>
    requires block > 0
    decreases left
  {
    if left <= 0 then []
    else
      var n := Min(Min(left, block), MAX_BLOCK);
      [Packet(track, 0, 0, n, at, Hushed(n))] + SilentFrames(track, at + n, left - n, block)
  }

  /** The block size a hole is filled at: the previous packet's length, or this one's when there is none. */
  function BlockOf(lastDur: int, pkt: Packet): int { if lastDur <= 0 then pkt.dur else lastDur }

  /** fillHole: the silent frames for the samples damage took before a packet. */
  method FillHole(pkt: Packet, lastDur: int) returns (frames: seq<Packet>)
    requires BlockOf(lastDur, pkt) > 0
    ensures frames == SilentFrames(pkt.track, pkt.pts - pkt.lost, pkt.lost, BlockOf(lastDur, pkt))
  {
    var bs := lastDur;
    if bs <= 0 {
      bs := pkt.dur;
    }
    frames := [];
    var at, left := pkt.pts - pkt.lost, pkt.lost;
    ghost var all := SilentFrames(pkt.track, at, left, bs);
    while left > 0
      invariant frames + SilentFrames(pkt.track, at, left, bs) == all
    {
      var n := Min(Min(left, bs), MAX_BLOCK);
      var frame := Packet(pkt.track, 0, 0, n, at, Hushed(n));
      SilenceUnrolls(pkt.track, at, left, bs, frames, n);
      frames := frames + [frame];
      at, left := at + n, left - n;
    }
  }

  lemma SilenceUnrolls(track: int, at: int, left: int, block: int, frames: seq<Packet>, n: int)
    requires block > 0 && left > 0 && n == Min(Min(left, block), MAX_BLOCK)
    ensures frames + SilentFrames(track, at, left, block)
         == frames + [Packet(track, 0, 0, n, at, Hushed(n))] + SilentFrames(track, at + n, left - n, block)
  {
  }

  /** The length a track's packets play for, holes included. */
  function Playing(track: int, pkts: seq<Packet>): int {
    if |pkts| == 0 then 0
    else
      (if pkts[0].track == track then Max(pkts[0].lost, 0) + pkts[0].dur - ClampedPad(pkts[0]) else 0) +
      Playing(track, pkts[1..])
  }

  /** Legal untrimmed frames, end to end from one time to another. */
  ghost predicate EndToEnd(frames: seq<Packet>, at: int, end: int, longest: int) {
    if |frames| == 0 then at == end
    else
      && frames[0].pts == at && 0 < frames[0].dur <= longest && frames[0].padding == 0 && frames[0].lost == 0
      && EndToEnd(frames[1..], at + frames[0].dur, end, longest)
  }

  /** The silence fills its hole exactly: legal frames, end to end, from where the hole begins to where it ends. */
  lemma {:induction false} SilenceFills(track: int, at: int, left: int, block: int)
    requires block > 0 && left >= 0
    ensures EndToEnd(SilentFrames(track, at, left, block), at, at + left, Min(block, MAX_BLOCK))
    ensures Playing(track, SilentFrames(track, at, left, block)) == left
    decreases left
  {
    if left > 0 {
      var n := Min(Min(left, block), MAX_BLOCK);
      var rest := SilentFrames(track, at + n, left - n, block);
      SilenceFills(track, at + n, left - n, block);
      assert SilentFrames(track, at, left, block)[1..] == rest;
    }
  }

  // ----- The copy -----

  /** What a copy counted: the raw samples it moved, its final packet's trim, and whether any packet stated one. */
  datatype Counted = Counted(samples: int, lastPadding: int, trimmed: bool)

  datatype CopyRefusal = HoleUncarried | InnerTrim | SourceFailed(why: Refusal)

  datatype Copied = Copied(run: Counted, out: seq<Packet>) | Uncopied(why: CopyRefusal, out: seq<Packet>)

  /** A copy under way: the previous packet's trim and length beside what it counted and wrote. */
  datatype Copy = Copy(run: Counted, prevPad: int, lastDur: int, out: seq<Packet>)

  const Fresh: Copy := Copy(Counted(0, 0, false), 0, 0, [])

  datatype Rules = Rules(track: int, perPacketTrims: bool, fillsHoles: bool)

  /** A hole's silence ahead of its packet. */
  function Filled(c: Copy, pkt: Packet): Copy {
    if pkt.lost > 0 && BlockOf(c.lastDur, pkt) > 0 then
      c.(run := c.run.(samples := c.run.samples + pkt.lost),
         out := c.out + SilentFrames(pkt.track, pkt.pts - pkt.lost, pkt.lost, BlockOf(c.lastDur, pkt)))
    else c
  }

  /** The packet itself; the writer states no hole, the silence before it stands for one. */
  function Written(c: Copy, pkt: Packet): Copy {
    var pad := Max(pkt.padding, 0);
    Copy(Counted(c.run.samples + pkt.dur - Min(pad, pkt.dur), pad, c.run.trimmed || pad > 0), Min(pad, pkt.dur),
        pkt.dur, c.out + [pkt.(lost := 0)])
  }

  function CopyFrom(r: Rules, c: Copy, pkts: seq<Packet>, end: Read): Copied
    decreases |pkts|
  {
    if |pkts| == 0 then
      if end.Fail? then Uncopied(SourceFailed(end.why), c.out)
      else Copied(c.run.(samples := c.run.samples + c.prevPad), c.out)
    else
      var pkt := pkts[0];
      if pkt.track != r.track then CopyFrom(r, c, pkts[1..], end)
      else if pkt.lost > 0 && !r.fillsHoles then Uncopied(HoleUncarried, c.out)
      else if c.prevPad > 0 && !r.perPacketTrims then Uncopied(InnerTrim, Filled(c, pkt).out)
      else CopyFrom(r, Written(Filled(c, pkt), pkt), pkts[1..], end)
  }

  /** A stream whose holes have a block size to be filled at. */
  ghost predicate Fillable(pkts: seq<Packet>) { forall k :: 0 <= k < |pkts| && pkts[k].lost > 0 ==> pkts[k].dur > 0 }

  /** copyPackets: copies what a demuxer that yields `pkts` and then `end` hands on. */
  method CopyPackets(r: Rules, pkts: seq<Packet>, end: Read) returns (copied: Copied)
    requires Fillable(pkts)
    ensures copied == CopyFrom(r, Fresh, pkts, end)
  {
    var run := Counted(0, 0, false);
    var prevPad, lastDur := 0, 0;
    var out: seq<Packet> := [];
    var i := 0;
    while i < |pkts|
      invariant 0 <= i <= |pkts|
      decreases |pkts| - i
      invariant CopyFrom(r, Copy(run, prevPad, lastDur, out), pkts[i..], end) == CopyFrom(r, Fresh, pkts, end)
    {
      var pkt := pkts[i];
      assert pkts[i..][1..] == pkts[i + 1..];
      i := i + 1;
      if pkt.track != r.track {
        continue;
      }
      if pkt.lost > 0 {
        if !r.fillsHoles {
          return Uncopied(HoleUncarried, out);
        }
        var frames := FillHole(pkt, lastDur);
        out := out + frames;
        run := run.(samples := run.samples + pkt.lost);
      }
      lastDur := pkt.dur;
      if prevPad > 0 && !r.perPacketTrims {
        return Uncopied(InnerTrim, out);
      }
      var pad := Max(pkt.padding, 0);
      run := Counted(run.samples + pkt.dur - Min(pad, pkt.dur), pad, run.trimmed || pad > 0);
      prevPad := Min(pad, pkt.dur);
      out := out + [pkt.(lost := 0)];
    }
    if end.Fail? {
      return Uncopied(SourceFailed(end.why), out);
    }
    return Copied(run.(samples := run.samples + prevPad), out);
  }

  /** The same copy over a cut's view, one read at a time. */
  method CopyView(r: Rules, demux: CutDemuxer) returns (copied: Copied)
    requires demux.Valid() && r.track == demux.plan.track.id
    modifies demux
    ensures demux.Valid()
    ensures var (pkts, end) := Walk(demux.plan, demux.damaged, old(demux.At()), demux.src[old(demux.next)..]);
      copied == CopyFrom(r, Fresh, pkts, end)
  {
    var c := Fresh;
    ghost var (pkts, end) := Walk(demux.plan, demux.damaged, demux.At(), demux.src[demux.next..]);
    while true
      invariant demux.Valid()
      invariant var (rest, last) := Walk(demux.plan, demux.damaged, demux.At(), demux.src[demux.next..]);
        last == end && CopyFrom(r, c, rest, last) == CopyFrom(r, Fresh, pkts, end)
      decreases |demux.src| - demux.next
    {
      ghost var ahead := demux.src[demux.next..];
      ghost var was := demux.next;
      var answer := demux.ReadPacket();
      assert demux.src[demux.next..] == ahead[demux.next - was..];
      match answer {
        case Eof =>
          return Copied(c.run.(samples := c.run.samples + c.prevPad), c.out);
        case Fail(why) =>
          return Uncopied(SourceFailed(why), c.out);
        case Got(pkt) =>
          if pkt.track == r.track {
            if pkt.lost > 0 && !r.fillsHoles {
              return Uncopied(HoleUncarried, c.out);
            }
            if c.prevPad > 0 && !r.perPacketTrims {
              return Uncopied(InnerTrim, Filled(c, pkt).out);
            }
            c := Written(Filled(c, pkt), pkt);
          }
      }
    }
  }

  // ----- What a copy counts -----

  /** The trim of a track's final packet, `prev` when it has none left. */
  function FinalPad(track: int, pkts: seq<Packet>, prev: int): int
    decreases |pkts|
  {
    if |pkts| == 0 then prev
        else FinalPad(track, pkts[1..], if pkts[0].track == track then ClampedPad(pkts[0]) else prev)
  }

  lemma {:induction false} PlayingAppend(track: int, a: seq<Packet>, b: seq<Packet>)
    ensures Playing(track, a + b) == Playing(track, a) + Playing(track, b)
  {
    if |a| == 0 {
      assert a + b == b;
    } else {
      assert (a + b)[1..] == a[1..] + b;
      PlayingAppend(track, a[1..], b);
    }
  }

  /** The copy keeps the timeline, holes and all: what it writes plays for as long as what it read, and what it counts
      is that and the final packet's trim. */
  lemma {:induction false} CopyKeepsTimeline(r: Rules, c: Copy, pkts: seq<Packet>, end: Read)
    requires Fillable(pkts) && CopyFrom(r, c, pkts, end).Copied?
    ensures var copied := CopyFrom(r, c, pkts, end);
      && Playing(r.track, copied.out) == Playing(r.track, c.out) + Playing(r.track, pkts)
      && copied.run.samples == c.run.samples + Playing(r.track, pkts) + FinalPad(r.track, pkts, c.prevPad)
    decreases |pkts|
  {
    if |pkts| > 0 {
      var pkt := pkts[0];
      if pkt.track != r.track {
        CopyKeepsTimeline(r, c, pkts[1..], end);
      } else {
        var next := Written(Filled(c, pkt), pkt);
        OneCopied(r, c, pkt);
        CopyKeepsTimeline(r, next, pkts[1..], end);
      }
    }
  }

  lemma OneCopied(r: Rules, c: Copy, pkt: Packet)
    requires pkt.track == r.track && (pkt.lost > 0 ==> pkt.dur > 0)
    ensures var next, adds := Written(Filled(c, pkt), pkt), Max(pkt.lost, 0) + pkt.dur - ClampedPad(pkt);
      && Playing(r.track, next.out) == Playing(r.track, c.out) + adds
      && next.run.samples == c.run.samples + adds && next.prevPad == ClampedPad(pkt)
  {
    var filled, bare := Filled(c, pkt), pkt.(lost := 0);
    if pkt.lost > 0 {
      var frames := SilentFrames(pkt.track, pkt.pts - pkt.lost, pkt.lost, BlockOf(c.lastDur, pkt));
      SilenceFills(pkt.track, pkt.pts - pkt.lost, pkt.lost, BlockOf(c.lastDur, pkt));
      PlayingAppend(r.track, c.out, frames);
    }
    PlayingAppend(r.track, filled.out, [bare]);
    assert Playing(r.track, [bare][1..]) == 0;
  }

  /** Silence comes in frames no longer than the packet before it, whose length is `block`, 0 ahead of the first. */
  ghost predicate Blocked(pkts: seq<Packet>, block: int) {
    |pkts| == 0 ||
    (if pkts[0].data >= 0 then Blocked(pkts[1..], pkts[0].dur)
     else (block > 0 ==> pkts[0].dur <= block) && Blocked(pkts[1..], block))
  }

  ghost function LastBlock(pkts: seq<Packet>, block: int): int {
    if |pkts| == 0 then block else LastBlock(pkts[1..], if pkts[0].data >= 0 then pkts[0].dur else block)
  }

  lemma {:induction false} BlockedAppend(a: seq<Packet>, b: seq<Packet>, block: int)
    requires Blocked(a, block) && Blocked(b, LastBlock(a, block))
    ensures Blocked(a + b, block) && LastBlock(a + b, block) == LastBlock(b, LastBlock(a, block))
    decreases |a|
  {
    if |a| == 0 {
      assert a + b == b;
    } else {
      assert (a + b)[1..] == a[1..] + b;
      BlockedAppend(a[1..], b, if a[0].data >= 0 then a[0].dur else block);
    }
  }

  lemma {:induction false} SilenceIsBlocked(track: int, at: int, left: int, block: int, last: int)
    requires block > 0 && (last > 0 ==> block == last)
    ensures Blocked(SilentFrames(track, at, left, block), last)
    ensures LastBlock(SilentFrames(track, at, left, block), last) == last
    decreases left
  {
    if left > 0 {
      var n := Min(Min(left, block), MAX_BLOCK);
      var rest := SilentFrames(track, at + n, left - n, block);
      SilenceIsBlocked(track, at + n, left - n, block, last);
      assert SilentFrames(track, at, left, block)[1..] == rest;
    }
  }

  /** A copy fills a hole at the stream's own block size, which is that of the packet before it. */
  lemma {:induction false} CopyKeepsBlocks(r: Rules, c: Copy, pkts: seq<Packet>, end: Read)
    requires Fillable(pkts) && CopyFrom(r, c, pkts, end).Copied? && forall p :: p in pkts ==> p.data >= 0
    requires Blocked(c.out, 0) && LastBlock(c.out, 0) == c.lastDur
    ensures Blocked(CopyFrom(r, c, pkts, end).out, 0)
    decreases |pkts|
  {
    if |pkts| > 0 {
      var pkt, rest := pkts[0], pkts[1..];
      if pkt.track == r.track {
        OneBlocked(c, pkt);
        CopyKeepsBlocks(r, Written(Filled(c, pkt), pkt), rest, end);
      } else {
        CopyKeepsBlocks(r, c, rest, end);
      }
    }
  }

  lemma OneBlocked(c: Copy, pkt: Packet)
    requires pkt.data >= 0 && (pkt.lost > 0 ==> pkt.dur > 0) && Blocked(c.out, 0) && LastBlock(c.out, 0) == c.lastDur
    ensures var next := Written(Filled(c, pkt), pkt); Blocked(next.out, 0) && LastBlock(next.out, 0) == next.lastDur
  {
    var filled, bare, block := Filled(c, pkt), pkt.(lost := 0), BlockOf(c.lastDur, pkt);
    if pkt.lost > 0 {
      SilenceIsBlocked(pkt.track, pkt.pts - pkt.lost, pkt.lost, block, c.lastDur);
      BlockedAppend(c.out, SilentFrames(pkt.track, pkt.pts - pkt.lost, pkt.lost, block), 0);
    }
    assert [bare][1..] == [] && LastBlock([bare][1..], bare.dur) == bare.dur;
    BlockedAppend(filled.out, [bare], 0);
  }

  // ----- When a copy is refused -----

  ghost predicate States(track: int, pkts: seq<Packet>) { exists p :: p in pkts && p.track == track }

  /** No packet of a track loses samples ahead of it. */
  ghost predicate Unlost(track: int, pkts: seq<Packet>) {
    forall p :: p in pkts && p.track == track ==> p.lost <= 0
  }

  predicate TrimsBefore(track: int, p: Packet, q: Packet) {
    p.track == track && q.track == track && ClampedPad(p) > 0
  }

  /** No packet of a track trims before another of it. */
  ghost predicate TrimsLast(track: int, pkts: seq<Packet>) {
    forall i, j :: 0 <= i < j < |pkts| ==> !TrimsBefore(track, pkts[i], pkts[j])
  }

  lemma TrimsLastOn(track: int, pkts: seq<Packet>)
    requires |pkts| > 0
    ensures TrimsLast(track, pkts) <==>
      TrimsLast(track, pkts[1..]) && !(pkts[0].track == track && ClampedPad(pkts[0]) > 0 && States(track, pkts[1..]))
  {
    var rest := pkts[1..];
    assert forall k :: 0 < k < |pkts| ==> pkts[k] == rest[k - 1];
    if TrimsLast(track, pkts) && States(track, rest) {
      var q :| q in rest && q.track == track;
      var j :| 0 <= j < |rest| && rest[j] == q;
      assert !TrimsBefore(track, pkts[0], pkts[j + 1]);
    }
    if TrimsLast(track, pkts) {
      forall i, j | 0 <= i < j < |rest|
        ensures !TrimsBefore(track, rest[i], rest[j])
      {
        assert !TrimsBefore(track, pkts[i + 1], pkts[j + 1]);
      }
    }
  }

  /** A copy goes through exactly when its demuxer ends cleanly, no hole needs a silence it has not got, and no trim
      inside the stream needs stating where none is stated per packet. */
  lemma {:induction false} CopyGoesThrough(r: Rules, c: Copy, pkts: seq<Packet>, end: Read)
    ensures CopyFrom(r, c, pkts, end).Copied? <==>
      && !end.Fail? && (r.fillsHoles || Unlost(r.track, pkts))
      && (r.perPacketTrims || (TrimsLast(r.track, pkts) && !(c.prevPad > 0 && States(r.track, pkts))))
    decreases |pkts|
  {
    if |pkts| > 0 {
      var pkt, rest := pkts[0], pkts[1..];
      assert forall p :: p in pkts <==> p == pkt || p in rest;
      TrimsLastOn(r.track, pkts);
      CopyGoesThrough(r, if pkt.track == r.track then Written(Filled(c, pkt), pkt) else c, rest, end);
    }
  }

  // ----- What a copy of a stream with holes writes -----

  /** The packets that carry the source's own audio. */
  ghost function Voiced(pkts: seq<Packet>): seq<Packet> {
    if |pkts| == 0 then [] else (if pkts[0].data >= 0 then [pkts[0]] else []) + Voiced(pkts[1..])
  }

  /** A track's own packets, their holes no longer stated. */
  ghost function Unholed(track: int, pkts: seq<Packet>): seq<Packet> {
    if |pkts| == 0 then []
    else (if pkts[0].track == track then [pkts[0].(lost := 0)] else []) + Unholed(track, pkts[1..])
  }

  lemma {:induction false} VoicedAppend(a: seq<Packet>, b: seq<Packet>)
    ensures Voiced(a + b) == Voiced(a) + Voiced(b)
  {
    if |a| == 0 {
      assert a + b == b;
    } else {
      assert (a + b)[1..] == a[1..] + b;
      VoicedAppend(a[1..], b);
    }
  }

  lemma {:induction false} SilenceHasNoVoice(track: int, at: int, left: int, block: int)
    requires block > 0
    ensures Voiced(SilentFrames(track, at, left, block)) == []
    decreases left
  {
    if left > 0 {
      var n := Min(Min(left, block), MAX_BLOCK);
      var rest := SilentFrames(track, at + n, left - n, block);
      SilenceHasNoVoice(track, at + n, left - n, block);
      assert SilentFrames(track, at, left, block)[1..] == rest;
    }
  }

  /** Fills apart, a copy writes the track's own packets, each once and in order, unchanged but for the hole it no
      longer states. */
  lemma {:induction false} CopyKeepsPackets(r: Rules, c: Copy, pkts: seq<Packet>, end: Read)
    requires CopyFrom(r, c, pkts, end).Copied? && forall p :: p in pkts ==> p.data >= 0
    ensures Voiced(CopyFrom(r, c, pkts, end).out) == Voiced(c.out) + Unholed(r.track, pkts)
    decreases |pkts|
  {
    if |pkts| > 0 {
      var pkt, rest := pkts[0], pkts[1..];
      if pkt.track != r.track {
        CopyKeepsPackets(r, c, rest, end);
      } else {
        CopyKeepsPackets(r, Written(Filled(c, pkt), pkt), rest, end);
        OneVoiced(c, pkt);
      }
    }
  }

  lemma OneVoiced(c: Copy, pkt: Packet)
    requires pkt.data >= 0
    ensures Voiced(Written(Filled(c, pkt), pkt).out) == Voiced(c.out) + [pkt.(lost := 0)]
  {
    var filled, bare := Filled(c, pkt), pkt.(lost := 0);
    if pkt.lost > 0 && BlockOf(c.lastDur, pkt) > 0 {
      var frames := SilentFrames(pkt.track, pkt.pts - pkt.lost, pkt.lost, BlockOf(c.lastDur, pkt));
      SilenceHasNoVoice(pkt.track, pkt.pts - pkt.lost, pkt.lost, BlockOf(c.lastDur, pkt));
      VoicedAppend(c.out, frames);
    }
    VoicedAppend(filled.out, [bare]);
    assert Voiced([bare]) == [bare];
  }

  /** Where a packet stops playing. */
  function StopOf(p: Packet): int { p.pts + p.dur - ClampedPad(p) }

  /** From `at` on, each packet of a track plays from where the one before it stops, what a hole took included. */
  ghost predicate Unbroken(track: int, pkts: seq<Packet>, at: int) {
    |pkts| == 0 ||
    (if pkts[0].track != track then Unbroken(track, pkts[1..], at)
     else pkts[0].pts - Max(pkts[0].lost, 0) == at && Unbroken(track, pkts[1..], StopOf(pkts[0])))
  }

  /** Where they stop. */
  ghost function Stop(track: int, pkts: seq<Packet>, at: int): int {
    if |pkts| == 0 then at
    else Stop(track, pkts[1..], if pkts[0].track == track then StopOf(pkts[0]) else at)
  }

  lemma {:induction false} UnbrokenAppend(track: int, a: seq<Packet>, b: seq<Packet>, at: int)
    requires Unbroken(track, a, at) && Unbroken(track, b, Stop(track, a, at))
    ensures Unbroken(track, a + b, at) && Stop(track, a + b, at) == Stop(track, b, Stop(track, a, at))
    decreases |a|
  {
    if |a| == 0 {
      assert a + b == b;
    } else {
      assert (a + b)[1..] == a[1..] + b;
      UnbrokenAppend(track, a[1..], b, if a[0].track == track then StopOf(a[0]) else at);
    }
  }

  lemma {:induction false} SilenceIsUnbroken(track: int, at: int, left: int, block: int)
    requires block > 0 && left >= 0
    ensures Unbroken(track, SilentFrames(track, at, left, block), at)
    ensures Stop(track, SilentFrames(track, at, left, block), at) == at + left
    decreases left
  {
    if left > 0 {
      var n := Min(Min(left, block), MAX_BLOCK);
      var rest := SilentFrames(track, at + n, left - n, block);
      SilenceIsUnbroken(track, at + n, left - n, block);
      assert SilentFrames(track, at, left, block)[1..] == rest;
    }
  }

  /** A copy of a stream that plays on without a break, damage apart, plays on without a break and states no hole: every
      packet it writes, silence or not, is timed where the one written before it stops. */
  lemma {:induction false} CopyIsUnbroken(r: Rules, c: Copy, pkts: seq<Packet>, end: Read, from: int, at: int)
    requires Fillable(pkts) && CopyFrom(r, c, pkts, end).Copied? && Unbroken(r.track, pkts, at)
    requires Unbroken(r.track, c.out, from) && Stop(r.track, c.out, from) == at && HoleFree(r.track, c.out)
    ensures Unbroken(r.track, CopyFrom(r, c, pkts, end).out, from) && HoleFree(r.track, CopyFrom(r, c, pkts, end).out)
    decreases |pkts|
  {
    if |pkts| > 0 {
      var pkt, rest := pkts[0], pkts[1..];
      if pkt.track != r.track {
        CopyIsUnbroken(r, c, rest, end, from, at);
      } else {
        OneUnbroken(r, c, pkt, from, at);
        CopyIsUnbroken(r, Written(Filled(c, pkt), pkt), rest, end, from, StopOf(pkt));
      }
    }
  }

  /** Packets of one track that state no hole. */
  ghost predicate HoleFree(track: int, pkts: seq<Packet>) { forall p :: p in pkts ==> p.track == track && p.lost <= 0 }

  lemma {:induction false} SilenceIsWhole(track: int, at: int, left: int, block: int)
    requires block > 0
    ensures HoleFree(track, SilentFrames(track, at, left, block))
    decreases left
  {
    if left > 0 {
      var n := Min(Min(left, block), MAX_BLOCK);
      SilenceIsWhole(track, at + n, left - n, block);
    }
  }

  lemma OneUnbroken(r: Rules, c: Copy, pkt: Packet, from: int, at: int)
    requires pkt.track == r.track && (pkt.lost > 0 ==> pkt.dur > 0) && pkt.pts - Max(pkt.lost, 0) == at
    requires Unbroken(r.track, c.out, from) && Stop(r.track, c.out, from) == at && HoleFree(r.track, c.out)
    ensures var out := Written(Filled(c, pkt), pkt).out;
      Unbroken(r.track, out, from) && Stop(r.track, out, from) == StopOf(pkt) && HoleFree(r.track, out)
  {
    var filled, bare, block := Filled(c, pkt), pkt.(lost := 0), BlockOf(c.lastDur, pkt);
    if pkt.lost > 0 {
      var frames := SilentFrames(pkt.track, at, pkt.lost, block);
      SilenceIsUnbroken(pkt.track, at, pkt.lost, block);
      SilenceIsWhole(pkt.track, at, pkt.lost, block);
      UnbrokenAppend(r.track, c.out, frames, from);
    }
    assert [bare][1..] == [] && StopOf(bare) == StopOf(pkt);
    assert Stop(r.track, [bare][1..], StopOf(bare)) == StopOf(pkt);
    UnbrokenAppend(r.track, filled.out, [bare], from);
  }

  /** Packets of one track without holes, none trimmed to less than nothing. */
  ghost predicate Clean(track: int, pkts: seq<Packet>) {
    forall k :: 0 <= k < |pkts| ==> pkts[k].track == track && pkts[k].lost == 0 && 0 <= pkts[k].padding <= pkts[k].dur
  }

  /** Only the last packet may state a trim. */
  ghost predicate TrimmedAtEnd(pkts: seq<Packet>) { forall k :: 0 <= k < |pkts| - 1 ==> pkts[k].padding == 0 }

  /** A clean stream is copied whole, unless it states a trim in its middle and the destination states none per packet;
      then, and only then, the copy is refused. */
  lemma {:induction false} CleanCopy(r: Rules, c: Copy, pkts: seq<Packet>)
    requires Clean(r.track, pkts) && c.prevPad >= 0
    ensures var copied := CopyFrom(r, c, pkts, Eof);
      if r.perPacketTrims || (TrimmedAtEnd(pkts) && (|pkts| > 0 ==> c.prevPad == 0)) then
        && copied.Copied? && copied.out == c.out + pkts
        && copied.run.lastPadding == (if |pkts| == 0 then c.run.lastPadding else pkts[|pkts| - 1].padding)
        && copied.run.trimmed == (c.run.trimmed || exists k :: 0 <= k < |pkts| && pkts[k].padding > 0)
      else copied.Uncopied? && copied.why == InnerTrim
    decreases |pkts|
  {
    if |pkts| > 0 {
      var rest, next := pkts[1..], Written(c, pkts[0]);
      assert pkts == [pkts[0]] + rest;
      assert pkts[0].(lost := 0) == pkts[0];
      if r.perPacketTrims || c.prevPad == 0 {
        assert CopyFrom(r, c, pkts, Eof) == CopyFrom(r, next, rest, Eof);
        CleanCopy(r, next, rest);
        EndTrims(pkts);
        assert c.out + [pkts[0]] + rest == c.out + pkts;
      }
    }
  }

  lemma EndTrims(pkts: seq<Packet>)
    requires |pkts| > 0
    ensures TrimmedAtEnd(pkts) <==> TrimmedAtEnd(pkts[1..]) && (|pkts| > 1 ==> pkts[0].padding == 0)
    ensures (exists k :: 0 <= k < |pkts| && pkts[k].padding > 0)
       <==> pkts[0].padding > 0 || exists k :: 0 <= k < |pkts[1..]| && pkts[1..][k].padding > 0
  {
    var rest := pkts[1..];
    if exists k :: 0 <= k < |rest| && rest[k].padding > 0 {
      var k :| 0 <= k < |rest| && rest[k].padding > 0;
      assert pkts[k + 1].padding > 0;
    }
    if exists k :: 0 <= k < |pkts| && pkts[k].padding > 0 {
      var k :| 0 <= k < |pkts| && pkts[k].padding > 0;
      assert k > 0 ==> rest[k - 1].padding > 0;
    }
    if TrimmedAtEnd(rest) && (|pkts| > 1 ==> pkts[0].padding == 0) {
      forall k | 0 <= k < |pkts| - 1
        ensures pkts[k].padding == 0
      {
        assert k > 0 ==> rest[k - 1].padding == 0;
      }
    }
  }

  lemma {:induction false} RunLength(lo: int, hi: int)
    ensures |Run(lo, hi)| == Max(0, hi - lo)
    decreases hi - lo
  {
    if lo < hi {
      RunLength(lo, hi - 1);
    }
  }

  lemma {:induction false} CleanPlaying(track: int, pkts: seq<Packet>)
    requires Clean(track, pkts)
    ensures Playing(track, pkts) == |Decoded(pkts)|
    ensures FinalPad(track, pkts, 0) == if |pkts| == 0 then 0 else pkts[|pkts| - 1].padding
  {
    if |pkts| > 0 {
      CleanPlaying(track, pkts[1..]);
      RunLength(pkts[0].data, pkts[0].data + pkts[0].dur - ClampedPad(pkts[0]));
      FinalIsLast(track, pkts, 0);
    }
  }

  lemma {:induction false} FinalIsLast(track: int, pkts: seq<Packet>, prev: int)
    requires Clean(track, pkts) && |pkts| > 0
    ensures FinalPad(track, pkts, prev) == pkts[|pkts| - 1].padding
    decreases |pkts|
  {
    if |pkts| > 1 {
      FinalIsLast(track, pkts[1..], ClampedPad(pkts[0]));
    }
  }

  // ----- The trailer -----

  datatype Trailer = Trailer(samples: int, delay: int, padding: int)

  /** Whether a muxer can write these trims: a lossless codec without priming has none. */
  predicate GaplessSurvives(codec: Codec, delay: int, padding: int) {
    (delay == 0 && padding == 0) || !(codec.Flac? || codec.Alac?)
  }

  /** The track a trailer settles: the final packet's trim where the header states none. */
  function Resolved(t: Track, run: Counted): Track {
    if run.trimmed && t.padding == 0 && GaplessSurvives(t.codec, 0, run.lastPadding) then t.(padding := run.lastPadding)
        else t
  }

  function RemuxTrailer(t: Track, run: Counted): Trailer {
    var s := SettleLength(Resolved(t, run), run.samples);
    if GaplessSurvives(s.codec, s.delay, s.padding) then Trailer(s.samples, s.delay, s.padding)
    else Trailer(run.samples, 0, 0)
  }

  predicate Unprimed(codec: Codec) { codec.Flac? || codec.Alac? }

  /** What a trailer has for its padding: the final packet's trim where the header states none and the codec has one. */
  function StatedPadding(t: Track, run: Counted): int {
    if run.trimmed && t.padding == 0 && !Unprimed(t.codec) then run.lastPadding else t.padding
  }

  /** No trailer is one its muxer refuses, and none promises samples the run does not hold: a FLAC or ALAC one declares
      the run and no trim; any other keeps its delay, and the stated padding where no length is held to, and what it
      declares is the run, to the sample, unless the run cannot fill its own trims. */
  lemma TrailerHolds(t: Track, run: Counted)
    requires run.samples >= 0 && t.delay >= 0 && run.lastPadding >= 0
    ensures var tr, pad := RemuxTrailer(t, run), StatedPadding(t, run);
      && tr.samples >= 0 && (Unprimed(t.codec) ==> tr == Trailer(run.samples, 0, 0))
      && (!Unprimed(t.codec) ==> tr.delay == t.delay && (t.samples < 0 || t.samplesAdvisory ==> tr.padding == pad))
      && (pad >= 0 && t.delay + pad <= run.samples ==> tr.samples + tr.delay + tr.padding == run.samples)
  {
  }
}
