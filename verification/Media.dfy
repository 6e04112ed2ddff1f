/** Reading decoded audio (format/media.go): packets decoded into a carry buffer, trims dropped, holes filled. */
module Media {
  import opened Container
  import opened Buffer
  import opened Listening

  /** What a source decodes to: each packet's own frames, what the decoder still holds at the end, and silence; `gaps`
      are the packets before which the container dropped something. */
  datatype Program<!T> = Program(
    track: int, pkts: seq<Packet>, gaps: set<nat>, channels: nat, sound: int -> seq<seq<T>>, flush: seq<seq<T>>,
        zero: T) {

    ghost predicate Wide(frames: seq<seq<T>>) { forall k :: 0 <= k < |frames| ==> |frames[k]| == channels }

    ghost predicate Ok() { Wide(flush) && forall p :: p in pkts ==> Wide(sound(p.data)) }

    function Quiet(): (f: seq<T>) ensures |f| == channels { seq(channels, c => zero) }

    function Silence(n: int): (r: seq<seq<T>>)
      ensures |r| == Max(n, 0)
    {
      seq(Max(n, 0), k => Quiet())
    }

    /** A packet's frames less the ones it says are not audio. */
    function Trimmed(p: Packet): seq<seq<T>> {
      sound(p.data)[..Max(|sound(p.data)| - Max(p.padding, 0), 0)]
    }

    function FramesOf(p: Packet): seq<seq<T>> { if p.track == track then Silence(p.lost) + Trimmed(p) else [] }

    /** Everything the source decodes to from packet k on. */
    function From(k: nat): seq<seq<T>>
      requires k <= |pkts|
      decreases |pkts| - k
    {
      if k == |pkts| then flush else FramesOf(pkts[k]) + From(k + 1)
    }

    lemma FromNext(k: nat, next: nat)
      requires k < |pkts| && next == k + 1
      ensures pkts[k] in pkts && From(k) == FramesOf(pkts[k]) + From(next)
      ensures pkts[k].track != track ==> From(k) == From(next)
    {
    }

    /** Where packet k's frames begin. */
    function PosAt(k: nat): nat
      requires k <= |pkts|
    {
      if k == 0 then 0 else PosAt(k - 1) + |FramesOf(pkts[k - 1])|
    }

    lemma {:induction false} FromAt(k: nat)
      requires k <= |pkts|
      ensures PosAt(k) <= |From(0)| && From(0)[PosAt(k)..] == From(k)
    {
      if k > 0 {
        var j := k - 1;
        FromAt(j);
        FromOn(From(0), j, k);
      } else {
        Whole(From(0));
      }
    }

    static lemma Whole(all: seq<seq<T>>)
      ensures all[0..] == all
    {
    }

    lemma FromOn(all: seq<seq<T>>, j: nat, k: nat)
      requires k == j + 1 <= |pkts| && PosAt(j) <= |all| && all[PosAt(j)..] == From(j)
      ensures PosAt(k) <= |all| && all[PosAt(k)..] == From(k)
    {
      FromNext(j, k);
      Past(all, PosAt(j), FramesOf(pkts[j]), From(k), PosAt(k));
    }

    static lemma Past(all: seq<seq<T>>, at: nat, first: seq<seq<T>>, rest: seq<seq<T>>, on: nat)
      requires at <= |all| && all[at..] == first + rest && on == at + |first|
      ensures on <= |all| && all[on..] == rest
    {
      assert all[on..] == all[at..][|first|..];
    }

    /** What is left to decode with a packet held, or none, and the packets from `next` on unread. */
    function Left(held: Option<Packet>, eof: bool, next: nat): seq<seq<T>>
      requires next <= |pkts|
    {
      var rest := if eof then [] else From(next);
      if held.Some? then Silence(held.value.lost) + (Trimmed(held.value) + rest) else rest
    }

    lemma SilencePaid(h: Packet, k: nat, eof: bool, next: nat)
      requires next <= |pkts| && k <= h.lost
      ensures Left(Some(h), eof, next) == Silence(k) + Left(Some(h.(lost := h.lost - k)), eof, next)
    {
      var less, rest := h.(lost := h.lost - k), Trimmed(h) + (if eof then [] else From(next));
      assert Trimmed(less) == Trimmed(h);
      assert Silence(h.lost) == Silence(k) + Silence(h.lost - k);
      assert (Silence(k) + Silence(h.lost - k)) + rest == Silence(k) + (Silence(h.lost - k) + rest);
    }

    lemma HeldDecodes(h: Packet, eof: bool, next: nat)
      requires next <= |pkts| && h.lost <= 0
      ensures Left(Some(h), eof, next) == Trimmed(h) + Left(None, eof, next)
    {
      assert Silence(h.lost) == [];
    }

    lemma PacketRead(p: Packet, next: nat)
      requires next <= |pkts| && p.track == track
      ensures FramesOf(p) + From(next) == Left(Some(p), false, next)
    {
      assert (Silence(p.lost) + Trimmed(p)) + From(next) == Silence(p.lost) + (Trimmed(p) + From(next));
    }

    /** What a reader is promised: everything decoded, the delay dropped, the raw end's cap kept. */
    function Delivered(delay: int, rawEnd: int): seq<seq<T>> {
      var d := Drop(From(0), delay);
      if rawEnd < 0 then d else Take(d, rawEnd - delay)
    }
  }

  /** rawEndFor: where the raw timeline is capped for a track, -1 where it is not. */
  function RawEndFor(t: Track): int {
    if !t.samplesAdvisory && (t.samplesExact || t.delay > 0 || t.padding > 0) && t.samples >= 0 then t.delay + t.samples
        else -1
  }

  datatype Outcome = Done | AtEnd | NeedsHistory | Broken

  class Media<T(0)> {
    const source: Program<T>
    const delay: nat
    const rawEnd: int

    /** The demuxer's next packet, and one waiting behind the silence of its hole. */
    var next: nat
    var held: Option<Packet>
    var carry: Buffer?<T>
    var carryOff: nat
    var pos: int
    var skip: nat
    var eof: bool
    var discont: bool
    var landed: nat
    var step: nat
    var hole: bool

    /** How often the demuxer failed to land, or the decoder failed, or refused what no earlier landing can give it. */
    ghost var faults: nat

    ghost function Foot(): set<object>
      reads this
    {
      if carry == null then {} else {carry, carry.data}
    }

    ghost predicate Valid()
      reads this, Foot()
    {
      && source.Ok() && next <= |source.pkts| &&
          (held.Some? ==> held.value.track == source.track && source.Wide(source.sound(held.value.data)))
      && (if carry == null then carryOff == 0
          else carry.Valid() && carry.channels == source.channels && carryOff <= carry.n)
    }

    /** The frames decoded and not yet handed on. */
    ghost function Carried(): seq<seq<T>>
      requires Valid()
      reads this, Foot()
    {
      if carry == null then [] else carry.Frames(carryOff, carry.n)
    }

    ghost function CarryLen(): nat
      requires Valid()
      reads this, Foot()
    {
      if carry == null then 0 else carry.n - carryOff
    }

    /** What the source has yet to decode to. */
    ghost function Undecoded(): seq<seq<T>>
      requires next <= |source.pkts|
      reads `held, `eof, `next
    {
      source.Left(held, eof, next)
    }

    ghost function Pending(): seq<seq<T>>
      requires Valid()
      reads this, Foot()
    {
      Carried() + Undecoded()
    }

    static ghost function Sink(dst: Buffer?<T>): set<object> { if dst == null then {} else {dst, dst.data} }

    /** A caller's chunk: nothing of the media's own. */
    ghost predicate Foreign(dst: Buffer<T>)
      reads this, Foot(), dst
    {
      dst.Valid() && dst.channels == source.channels && dst !in Foot() && dst.data !in Foot()
    }

    /** A chunk frames go to, ahead of the carry: while it has room, the carry is empty. */
    ghost predicate Takes(dst: Buffer?<T>)
      requires Valid()
      reads this, Foot(), dst, Sink(dst)
    {
      dst != null ==> Foreign(dst) && (dst.n < dst.stride ==> CarryLen() == 0)
    }

    /** The frames decoded so far, a chunk's first. */
    ghost function Staged(dst: Buffer?<T>): seq<seq<T>>
      requires Valid() && (dst != null ==> dst.Valid())
      reads this, Foot(), dst, Sink(dst)
    {
      if dst == null then Carried() else dst.Contents() + Carried()
    }

    // ----- The carry -----

    /** compact: consumed frames dropped, so that more can be appended. */
    method Compact()
      requires Valid()
      modifies this`carryOff, Foot()
      ensures Valid() && carry == old(carry) && carryOff == 0
      ensures Carried() == old(Carried())
    {
      if carry == null || carryOff == 0 {
        return;
      }
      ShiftDown(carry, carryOff);
      carryOff := 0;
    }

    /** A carry with room for `rest` more frames, grown geometrically. */
    method MakeRoom(rest: nat)
      requires Valid() && carryOff == 0
      modifies this`carry, Foot()
      ensures Valid() && carryOff == 0 && fresh(Foot() - old(Foot()))
      ensures carry != null && carry.stride - carry.n >= rest && Carried() == old(Carried())
    {
      if carry != null && carry.stride - carry.n >= rest {
        return;
      }
      var len := if carry == null then 0 else carry.n;
      var want := Max(len + rest, STANDARD_CHUNK);
      if carry != null {
        want := Max(want, 2 * carry.stride);
      }
      var grown := new Buffer<T>(source.channels, want);
      if carry != null {
        AppendFrom(grown, carry, 0, len);
      }
      carry := grown;
    }

    /** stash: as much of a decoder's frames as fits goes to the sink, the rest to the carry. */
    method Stash(frames: seq<seq<T>>, sink: Buffer?<T>)
      requires Valid() && Takes(sink) && source.Wide(frames)
      modifies this`carry, this`carryOff, Foot(), Sink(sink)
      ensures Valid() && fresh(Foot() - old(Foot())) && Takes(sink) && Staged(sink) == old(Staged(sink)) + frames
      ensures sink != null ==> old(sink.n) <= sink.n
    {
      if sink == null {
        Keep(frames);
        return;
      }
      var off := ToSink(frames, sink);
      if off < |frames| {
        Keep(frames[off..]);
      }
    }

    /** What of a decoder's frames fits in a chunk, ahead of a carry that is empty while the chunk has room. */
    method ToSink(frames: seq<seq<T>>, sink: Buffer<T>) returns (off: nat)
      requires Valid() && Takes(sink) && source.Wide(frames)
      modifies sink`n, sink.data
      ensures Valid() && Takes(sink) && off <= |frames| && old(sink.n) <= sink.n && Carried() == old(Carried())
      ensures if off == |frames| then Staged(sink) == old(Staged(sink)) + frames
              else sink.n == sink.stride && Staged(sink) + frames[off..] == old(Staged(sink)) + frames
    {
      ghost var was, had := sink.Contents(), Carried();
      off := Min(sink.stride - sink.n, |frames|);
      if off > 0 {
        Append(sink, frames[..off]);
      }
      Between(was, had, frames, off);
    }

    static lemma Between(a: seq<seq<T>>, carried: seq<seq<T>>, frames: seq<seq<T>>, off: nat)
      requires off <= |frames| && (off > 0 ==> carried == [])
      ensures (a + frames[..off] + carried) + frames[off..] == (a + carried) + frames
      ensures off == 0 ==> a + carried + frames[off..] == (a + carried) + frames
      ensures off == |frames| ==> frames[..off] == frames && a + frames + carried == (a + carried) + frames
    {
    }

    /** The overflow: frames appended to the carry. */
    method Keep(frames: seq<seq<T>>)
      requires Valid() && source.Wide(frames)
      modifies this`carry, this`carryOff, Foot()
      ensures Valid() && fresh(Foot() - old(Foot())) && Carried() == old(Carried()) + frames
    {
      if |frames| == 0 {
        return;
      }
      Compact();
      MakeRoom(|frames|);
      Append(carry, frames);
    }

    /** copyOut: frames from the carry into a chunk. */
    method CopyOut(dst: Buffer<T>)
      requires Valid() && Foreign(dst)
      modifies this`carryOff, dst`n, dst.data
      ensures Valid() && carry == old(carry) && Takes(dst) && Staged(dst) == old(Staged(dst)) && old(dst.n) <= dst.n
      ensures Foot() == old(Foot())
    {
      var n := Min(dst.stride - dst.n, if carry == null then 0 else carry.n - carryOff);
      if n > 0 {
        assert carry != dst && carry.data != dst.data;
        MoveOut(dst, n);
      }
    }

    method MoveOut(dst: Buffer<T>, n: nat)
      requires Valid() && dst.Valid() && dst.channels == source.channels && carry != null && carry != dst &&
          carry.data != dst.data
      requires carryOff + n <= carry.n && dst.n + n <= dst.stride
      modifies this`carryOff, dst`n, dst.data
      ensures Valid() && dst.Valid() && dst.n == old(dst.n) + n && carryOff == old(carryOff) + n
      ensures dst.Contents() + Carried() == old(dst.Contents() + Carried())
    {
      ghost var before, was := dst.Contents(), Carried();
      var end := carryOff + n;
      carry.Stretch(carryOff, carry.n, carryOff, end);
      carry.Stretch(carryOff, carry.n, end, carry.n);
      AppendFrom(dst, carry, carryOff, end);
      carryOff := end;
      Moved(before, was, n);
    }

    static lemma Moved(before: seq<seq<T>>, was: seq<seq<T>>, n: nat)
      requires n <= |was|
      ensures before + was == before + was[..n] + was[n..]
    {
    }

    // ----- Decoding -----

    /** A failure is a fault's; so is a refusal where nothing earlier is left to land on, or a hole took the history. */
    ghost predicate Blamed(r: Outcome, before: nat)
      reads `faults, `landed, `hole
    {
      before <= faults && (r.Broken? || (r.NeedsHistory? && (landed == 0 || hole)) ==> before < faults)
    }

    /** A decoder: it hands its packet's frames to stash in pieces of its own choosing, or fails - for missing history
        only before the first of them. */
    method Decode(p: Packet, dst: Buffer?<T>) returns (r: Outcome)
      requires Valid() && Takes(dst) && source.Wide(source.sound(p.data))
      modifies this`carry, this`carryOff, this`faults, Foot(), Sink(dst)
      ensures Valid() && fresh(Foot() - old(Foot())) && Takes(dst) && !r.AtEnd?
      ensures r.Done? ==> Staged(dst) == old(Staged(dst)) + source.sound(p.data)
      ensures r.NeedsHistory? ==> Staged(dst) == old(Staged(dst))
      ensures dst != null ==> old(dst.n) <= dst.n
      ensures Blamed(r, old(faults))
    {
      var refuses: bool := *;
      if refuses {
        faults := if landed == 0 || hole then faults + 1 else faults;
        return NeedsHistory;
      }
      var whole := Emit(source.sound(p.data), dst);
      faults := if whole then faults else faults + 1;
      return if whole then Done else Broken;
    }

    method Emit(frames: seq<seq<T>>, dst: Buffer?<T>) returns (whole: bool)
      requires Valid() && Takes(dst) && source.Wide(frames)
      modifies this`carry, this`carryOff, Foot(), Sink(dst)
      decreases |frames|
      ensures Valid() && fresh(Foot() - old(Foot())) && Takes(dst)
      ensures whole ==> Staged(dst) == old(Staged(dst)) + frames
      ensures dst != null ==> old(dst.n) <= dst.n
    {
      var stops: bool := *;
      if stops || |frames| == 0 {
        return |frames| == 0;
      }
      var n: nat :| 1 <= n <= |frames|;
      ghost var was := Staged(dst);
      Stash(frames[..n], dst);
      whole := Emit(frames[n..], dst);
      Moved(was, frames, n);
    }

    /** decodeTrimmed: a packet that ends in frames that are not audio, which come off the back of what it put in the
        carry first and of what it put in the chunk after. */
    method DecodeTrimmed(p: Packet, dst: Buffer?<T>) returns (r: Outcome)
      requires Valid() && Takes(dst) && source.Wide(source.sound(p.data)) && p.padding > 0
      modifies this`carry, this`carryOff, this`faults, Foot(), Sink(dst)
      ensures Valid() && fresh(Foot() - old(Foot())) && Takes(dst) && !r.AtEnd?
      ensures r.Done? ==> Staged(dst) == old(Staged(dst)) + source.Trimmed(p)
      ensures r.NeedsHistory? ==> Staged(dst) == old(Staged(dst))
      ensures dst != null ==> old(dst.n) <= dst.n
      ensures Blamed(r, old(faults))
    {
      var carryBefore := if carry == null then 0 else carry.n - carryOff;
      var sinkBefore := if dst == null then 0 else dst.n;
      ghost var was := Staged(dst);
      r := Decode(p, dst);
      if r.Done? {
        ghost var all := Staged(dst);
        ghost var keep := |all| - Min(p.padding, |source.sound(p.data)|);
        LessStaged(was, source.sound(p.data), p.padding, all, keep);
        DropNew(p.padding, dst, carryBefore, sinkBefore, all, keep);
      }
    }

    /** decode: a packet's frames, the ones that are not audio dropped. */
    method DecodePacket(p: Packet, dst: Buffer?<T>) returns (r: Outcome)
      requires Valid() && Takes(dst) && source.Wide(source.sound(p.data))
      modifies this`carry, this`carryOff, this`faults, Foot(), Sink(dst)
      ensures Valid() && fresh(Foot() - old(Foot())) && Takes(dst) && !r.AtEnd?
      ensures r.Done? ==> Staged(dst) == old(Staged(dst)) + source.Trimmed(p)
      ensures r.NeedsHistory? ==> Staged(dst) == old(Staged(dst))
      ensures Blamed(r, old(faults))
    {
      if p.padding <= 0 {
        r := Decode(p, dst);
        assert source.Trimmed(p) == source.sound(p.data);
      } else {
        r := DecodeTrimmed(p, dst);
      }
    }

    static lemma LessStaged(was: seq<seq<T>>, sound: seq<seq<T>>, n: nat, all: seq<seq<T>>, keep: nat)
      requires all == was + sound && keep == |all| - Min(n, |sound|)
      ensures all[..keep] == was + sound[..Max(|sound| - n, 0)]
    {
    }

    /** Drops up to n of the frames put in the carry and the chunk since they held so many, which leaves `keep`
        staged. */
    method DropNew(n: nat, dst: Buffer?<T>, carryBefore: nat, sinkBefore: nat, ghost was: seq<seq<T>>, ghost keep: nat)
      requires Valid() && Takes(dst) && carryBefore <= CarryLen() && (dst != null ==> sinkBefore <= dst.n)
      requires (dst != null && sinkBefore < dst.n ==> carryBefore == 0) && was == Staged(dst)
      requires keep == |was| - Min(n, CarryLen() - carryBefore + if dst == null then 0 else dst.n - sinkBefore)
      modifies Foot(), Sink(dst)
      ensures Valid() && Foot() == old(Foot()) && Takes(dst) && Staged(dst) == was[..keep]
      ensures dst != null ==> sinkBefore <= dst.n <= old(dst.n)
    {
      ghost var a, b := if dst == null then [] else dst.Contents(), Carried();
      assert was == a + b;
      var drop := Min((if carry == null then 0 else carry.n - carryOff) - carryBefore, n);
      ghost var bLeft := |b| - drop;
      TrimCarry(drop, b[..bLeft]);
      var back := 0;
      ghost var aLeft := |a|;
      if dst != null {
        back := Min(dst.n - sinkBefore, n - drop);
        aLeft := |a| - back;
        TrimChunk(dst, back, a[..aLeft]);
      }
      BackOff(a, b, aLeft, bLeft, was, keep);
    }

    method TrimCarry(drop: nat, ghost left: seq<seq<T>>)
      requires Valid() && drop <= CarryLen() && left == Carried()[..|Carried()| - drop]
      modifies Foot()
      ensures Valid() && Foot() == old(Foot()) && Carried() == left
    {
      if drop > 0 {
        carry.Stretch(carryOff, carry.n, carryOff, carry.n - drop);
        carry.n := carry.n - drop;
      }
    }

    static method TrimChunk(dst: Buffer<T>, back: nat, ghost left: seq<seq<T>>)
      requires dst.Valid() && back <= dst.n && left == dst.Contents()[..|dst.Contents()| - back]
      modifies dst`n
      ensures dst.Valid() && dst.n == old(dst.n) - back && dst.Contents() == left
    {
      dst.Stretch(0, dst.n, 0, dst.n - back);
      if back > 0 {
        dst.n := dst.n - back;
      }
    }

    static lemma BackOff(a: seq<seq<T>>, b: seq<seq<T>>, aLeft: nat, bLeft: nat, was: seq<seq<T>>, keep: nat)
      requires aLeft <= |a| && bLeft <= |b| && (aLeft == |a| || bLeft == 0) && was == a + b && keep == aLeft + bLeft
      ensures a[..aLeft] + b[..bLeft] == was[..keep]
    {
    }

    // ----- The next packet -----

    /** How much decoding is left: packets, then the one held behind its silence, then the end. */
    ghost function HeldSize(): nat
      reads `held
    {
      if held.None? then 0 else 1 + Max(held.value.lost, 0)
    }

    ghost predicate Progressed(next0: nat, held0: nat, eof0: bool)
      reads `next, `held, `eof
    {
      next0 < next || (next0 == next && (HeldSize() < held0 || (HeldSize() == held0 && !eof0 && eof)))
    }

    /** silence: part of what a hole owes, what fits in the chunk or a chunk's worth. */
    method SilencePart(dst: Buffer?<T>)
      requires Valid() && Takes(dst) && held.Some? && held.value.lost > 0 && (dst != null ==> dst.n < dst.stride)
      modifies this`held, this`carry, this`carryOff, Foot(), Sink(dst)
      ensures Valid() && fresh(Foot() - old(Foot())) && Takes(dst)
      ensures Staged(dst) + Undecoded() == old(Staged(dst) + Undecoded()) && HeldSize() < old(HeldSize())
    {
      var k := if dst == null then STANDARD_CHUNK else dst.stride - dst.n;
      k := Min(k, held.value.lost);
      var h := held.value;
      var less := h.(lost := h.lost - k);
      ghost var was, rest := Staged(dst), source.Left(Some(less), eof, next);
      source.SilencePaid(h, k, eof, next);
      var silence := source.Silence(k);
      held := Some(less);
      Stash(silence, dst);
      Conserved(was, silence, rest);
    }

    static lemma Conserved(a: seq<seq<T>>, x: seq<seq<T>>, u: seq<seq<T>>)
      ensures a + (x + u) == (a + x) + u
    {
    }

    /** fill: decodes the next packet, or flushes the decoder at the end, a chunk being where frames go first. */
    method Fill(dst: Buffer?<T>) returns (r: Outcome)
      requires Valid() && Takes(dst) && (dst != null ==> dst.n < dst.stride)
      modifies this`next, this`held, this`eof, this`hole, this`carry, this`carryOff, this`faults, Foot(), Sink(dst)
      ensures Valid() && fresh(Foot() - old(Foot())) && Takes(dst)
      ensures r.AtEnd? <==> old(eof)
      ensures r.AtEnd? ==>
          eof && held == old(held) && Staged(dst) == old(Staged(dst)) && Undecoded() == old(Undecoded())
      ensures r.Done? ==>
          Staged(dst) + Undecoded() == old(Staged(dst) + Undecoded()) &&
          Progressed(old(next), old(HeldSize()), old(eof))
      ensures r.NeedsHistory? ==> Staged(dst) == old(Staged(dst))
      ensures eof && !old(eof) ==> held.None?
      ensures Blamed(r, old(faults))
    {
      if eof {
        return AtEnd;
      }
      if held.Some? {
        r := FillHeld(dst);
      } else {
        r := FillRead(dst, Staged(dst) + Undecoded());
      }
    }

    method FillHeld(dst: Buffer?<T>) returns (r: Outcome)
      requires Valid() && Takes(dst) && (dst != null ==> dst.n < dst.stride) && held.Some?
      modifies this`held, this`carry, this`carryOff, this`faults, Foot(), Sink(dst)
      ensures Valid() && fresh(Foot() - old(Foot())) && Takes(dst) && !r.AtEnd?
      ensures r.Done? ==> Staged(dst) + Undecoded() == old(Staged(dst) + Undecoded()) && HeldSize() < old(HeldSize())
      ensures r.NeedsHistory? ==> Staged(dst) == old(Staged(dst))
      ensures Blamed(r, old(faults))
    {
      if held.value.lost > 0 {
        SilencePart(dst);
        r := Done;
      } else {
        r := DecodeHeld(dst);
      }
    }

    method FillRead(dst: Buffer?<T>, ghost all: seq<seq<T>>) returns (r: Outcome)
      requires Valid() && Takes(dst) && (dst != null ==> dst.n < dst.stride) && held.None? && !eof &&
          all == Staged(dst) + Undecoded()
      modifies this`next, this`held, this`eof, this`hole, this`carry, this`carryOff, this`faults, Foot(), Sink(dst)
      ensures Valid() && fresh(Foot() - old(Foot())) && Takes(dst) && !r.AtEnd?
      ensures r.Done? ==> Staged(dst) + Undecoded() == all
      ensures r.Done? ==> old(next) < next || (old(next) <= next && held.None? && eof)
      ensures r.NeedsHistory? ==> Staged(dst) == old(Staged(dst))
      ensures eof ==> held.None?
      ensures Blamed(r, old(faults))
    {
      var pkt := NextPacket();
      ghost var on := next;
      r := FillFrom(pkt, dst, all);
      assert next == on;
    }

    /** What was read: a packet, or the end. */
    method FillFrom(pkt: Option<Packet>, dst: Buffer?<T>, ghost all: seq<seq<T>>) returns (r: Outcome)
      requires Valid() && Takes(dst) && (dst != null ==> dst.n < dst.stride) && held.None? && !eof
      requires pkt.None? ==> all == Staged(dst) + source.flush
      requires pkt.Some? ==> pkt.value.track == source.track && source.Wide(source.sound(pkt.value.data))
      requires pkt.Some? ==> all == Staged(dst) + (source.FramesOf(pkt.value) + source.From(next))
      modifies this`held, this`eof, this`carry, this`carryOff, this`faults, Foot(), Sink(dst)
      ensures Valid() && fresh(Foot() - old(Foot())) && Takes(dst) && !r.AtEnd?
      ensures r.Done? ==> Staged(dst) + Undecoded() == all && (pkt.None? ==> held.None? && eof)
      ensures r.NeedsHistory? ==> Staged(dst) == old(Staged(dst))
      ensures eof ==> held.None?
      ensures Blamed(r, old(faults))
    {
      if pkt.None? {
        r := Flush(dst, all);
      } else {
        r := FirstOf(pkt.value, dst, all);
      }
    }

    /** The end of the packets: what the decoder still holds. */
    method Flush(dst: Buffer?<T>, ghost all: seq<seq<T>>) returns (r: Outcome)
      requires Valid() && Takes(dst) && held.None? && !eof && all == Staged(dst) + source.flush
      modifies this`eof, this`carry, this`carryOff, this`faults, Foot(), Sink(dst)
      ensures Valid() && fresh(Foot() - old(Foot())) && Takes(dst) && eof && held == old(held) && (r.Done? || r.Broken?)
      ensures r.Done? ==> Staged(dst) + Undecoded() == all
      ensures Blamed(r, old(faults))
    {
      eof := true;
      var whole := Emit(source.flush, dst);
      assert source.Left(None, true, next) == [];
      faults := if whole then faults else faults + 1;
      r := if whole then Done else Broken;
    }

    /** Reads on to the track's next packet. */
    method NextPacket() returns (pkt: Option<Packet>)
      requires Valid() && held.None? && !eof
      modifies `next, `hole
      ensures Valid() && held == old(held) && eof == old(eof)
      ensures pkt.None? ==> source.From(old(next)) == source.flush && next >= old(next)
      ensures pkt.Some? ==>
          old(next) < next && pkt.value.track == source.track && source.Wide(source.sound(pkt.value.data))
      ensures pkt.Some? ==> source.From(old(next)) == source.FramesOf(pkt.value) + source.From(next)
    {
      ghost var first, all := next, source.From(next);
      while next < |source.pkts|
        invariant Valid() && first <= next && held == old(held) && eof == old(eof)
        invariant source.From(next) == all
        decreases |source.pkts| - next
      {
        var p, on := source.pkts[next], next + 1;
        source.FromNext(next, on);
        if p.track == source.track {
          if next in source.gaps {
            hole := true;
          }
          next := on;
          return Some(p);
        }
        next := on;
      }
      pkt := None;
    }

    /** A packet just read: behind its hole's silence, or decoded at once. */
    method FirstOf(p: Packet, dst: Buffer?<T>, ghost all: seq<seq<T>>) returns (r: Outcome)
      requires Valid() && Takes(dst) && (dst != null ==> dst.n < dst.stride) && held.None? && !eof
      requires p.track == source.track && source.Wide(source.sound(p.data)) &&
          all == Staged(dst) + (source.FramesOf(p) + source.From(next))
      modifies this`held, this`carry, this`carryOff, this`faults, Foot(), Sink(dst)
      ensures Valid() && fresh(Foot() - old(Foot())) && Takes(dst) && !r.AtEnd?
      ensures r.Done? ==> Staged(dst) + Undecoded() == all
      ensures r.NeedsHistory? ==> Staged(dst) == old(Staged(dst))
      ensures Blamed(r, old(faults))
    {
      source.PacketRead(p, next);
      if p.lost > 0 {
        held := Some(p);
        SilencePart(dst);
        r := Done;
      } else {
        r := FirstFrames(p, dst, Staged(dst), all);
      }
    }

    method FirstFrames(p: Packet, dst: Buffer?<T>, ghost was: seq<seq<T>>, ghost all: seq<seq<T>>) returns (r: Outcome)
      requires Valid() && Takes(dst) && held.None? && !eof && p.lost <= 0
      requires p.track == source.track && source.Wide(source.sound(p.data)) && was == Staged(dst)
      requires all == was + source.Left(Some(p), false, next)
      modifies this`carry, this`carryOff, this`faults, Foot(), Sink(dst)
      ensures Valid() && fresh(Foot() - old(Foot())) && Takes(dst) && !r.AtEnd?
      ensures r.Done? ==> Staged(dst) + Undecoded() == all
      ensures r.NeedsHistory? ==> Staged(dst) == was
      ensures Blamed(r, old(faults))
    {
      source.HeldDecodes(p, false, next);
      r := DecodePacket(p, dst);
      Conserved(was, source.Trimmed(p), source.From(next));
    }

    method DecodeHeld(dst: Buffer?<T>) returns (r: Outcome)
      requires Valid() && Takes(dst) && held.Some? && held.value.lost <= 0
      modifies this`held, this`carry, this`carryOff, this`faults, Foot(), Sink(dst)
      ensures Valid() && fresh(Foot() - old(Foot())) && Takes(dst) && !r.AtEnd? && held.None?
      ensures r.Done? ==> Staged(dst) + Undecoded() == old(Staged(dst) + Undecoded())
      ensures r.NeedsHistory? ==> Staged(dst) == old(Staged(dst))
      ensures Blamed(r, old(faults))
    {
      var h := held.value;
      ghost var was := Staged(dst);
      source.HeldDecodes(h, eof, next);
      held := None;
      r := DecodePacket(h, dst);
      Conserved(was, source.Trimmed(h), Undecoded());
    }

    // ----- Dropping and landing -----

    /** discard: the next n frames are decoded and not handed on; only the end makes them fewer. */
    method Discard(n: nat, ghost all: seq<seq<T>>) returns (r: Outcome, dropped: nat)
      requires Valid() && (eof ==> held.None?) && all == Pending()
      modifies this`next, this`held, this`eof, this`hole, this`carry, this`carryOff, this`faults, Foot()
      ensures Valid() && fresh(Foot() - old(Foot())) && dropped <= n && !r.AtEnd? && (eof ==> held.None?)
      ensures r.Done? ==> dropped == Min(n, |all|) && Pending() == all[dropped..] && (dropped < n ==> eof)
      ensures Blamed(r, old(faults))
    {
      dropped := 0;
      ghost var foot := Foot();
      while dropped < n
        invariant Valid() && fresh(Foot() - foot) && (eof ==> held.None?)
        invariant dropped <= n && dropped <= |all| && Pending() == all[dropped..] && faults >= old(faults)
        decreases |source.pkts| - next, HeldSize(), if eof then 0 else 1, n - dropped
      {
        r, dropped := DiscardOn(dropped, n, all);
        if r.AtEnd? {
          break;
        }
        if !r.Done? {
          return;
        }
      }
      r := Done;
    }

    method DiscardOn(dropped: nat, n: nat, ghost all: seq<seq<T>>) returns (r: Outcome, on: nat)
      requires Valid() && (eof ==> held.None?) && dropped < n && dropped <= |all| && Pending() == all[dropped..]
      modifies this`next, this`held, this`eof, this`hole, this`carry, this`carryOff, this`faults, Foot()
      ensures Valid() && fresh(Foot() - old(Foot())) && dropped <= on <= n && (eof ==> held.None?)
      ensures r.AtEnd? ==> on == dropped == |all| && eof && Pending() == all[on..]
      ensures r.Done? ==> on <= |all| && Pending() == all[on..]
      ensures r.Done? ==>
        (Progressed(old(next), old(HeldSize()), old(eof)) ||
            (on > dropped && next == old(next) && held == old(held) && eof == old(eof)))
      ensures Blamed(r, old(faults))
    {
      var drop;
      ghost var was := Pending();
      r, drop := DiscardSome(n - dropped, was);
      on := dropped + drop;
      if r.Done? {
        Further(all, dropped, was, drop, on);
      }
    }

    /** One step of it: another packet when nothing is carried, then what is. */
    method DiscardSome(n: nat, ghost was: seq<seq<T>>) returns (r: Outcome, drop: nat)
      requires Valid() && (eof ==> held.None?) && n > 0 && was == Pending()
      modifies this`next, this`held, this`eof, this`hole, this`carry, this`carryOff, this`faults, Foot()
      ensures Valid() && fresh(Foot() - old(Foot())) && drop <= n && (eof ==> held.None?)
      ensures r.AtEnd? ==> drop == 0 && eof && was == [] && Pending() == []
      ensures r.Done? ==> drop <= |was| && Pending() == was[drop..]
      ensures r.Done? ==>
        (Progressed(old(next), old(HeldSize()), old(eof)) ||
            (drop > 0 && next == old(next) && held == old(held) && eof == old(eof)))
      ensures Blamed(r, old(faults))
    {
      drop := 0;
      if carry == null || carry.n == carryOff {
        assert Carried() == [] && (eof ==> Undecoded() == [] && Pending() == []);
        r := Fill(null);
        if !r.Done? {
          assert r.AtEnd? ==> Pending() == Staged(null) + Undecoded() == [];
          return;
        }
      }
      r := Done;
      drop := Min(if carry == null then 0 else carry.n - carryOff, n);
      DropCarried(drop, was);
    }

    method DropCarried(n: nat, ghost was: seq<seq<T>>)
      requires Valid() && n <= CarryLen() && was == Pending()
      modifies this`carryOff
      ensures Valid() && n <= |was| && Pending() == was[n..]
    {
      DroppedFirst(Carried(), Undecoded(), n);
      DropFrames(n, Carried()[n..]);
    }

    method DropFrames(n: nat, ghost left: seq<seq<T>>)
      requires Valid() && n <= CarryLen() && left == Carried()[n..]
      modifies this`carryOff
      ensures Valid() && Carried() == left
    {
      if n > 0 {
        var off := carryOff + n;
        carry.Stretch(carryOff, carry.n, off, carry.n);
        carryOff := off;
      }
    }

    static lemma DroppedFirst(a: seq<seq<T>>, b: seq<seq<T>>, n: nat)
      requires n <= |a|
      ensures (a + b)[n..] == a[n..] + b
    {
    }

    /** land: demuxer and decoder start over from some packet at or before `at`. */
    method Land(at: nat) returns (ok: bool)
      requires Valid()
      modifies this`next, this`held, this`eof, this`hole, this`landed, this`skip, this`carryOff, this`faults, Foot()
      ensures Valid() && carry == old(carry)
      ensures ok ==> landed <= at && landed <= |source.From(0)| && Pending() == source.From(0)[landed..]
      ensures ok ==> held.None? && !eof && !hole && skip == 0
      ensures !ok ==> landed == old(landed)
      ensures faults >= old(faults) && (!ok ==> faults > old(faults))
    {
      ok := *;
      if !ok {
        faults := faults + 1;
        return;
      }
      var k: nat :| k <= |source.pkts| && source.PosAt(k) <= at;
      source.FromAt(k);
      landed := source.PosAt(k);
      StartAt(k);
    }

    /** The demuxer at packet k, the decoder flushed of everything. */
    method StartAt(k: nat)
      requires Valid() && k <= |source.pkts|
      modifies this`next, this`held, this`eof, this`hole, this`skip, this`carryOff, Foot()
      ensures Valid() && carry == old(carry) && Pending() == source.From(k)
      ensures held.None? && !eof && !hole && skip == 0
    {
      Empty();
      hole, held, eof, skip, next := false, None, false, 0, k;
      assert [] + source.From(k) == source.From(k);
    }

    /** Nothing carried. */
    method Empty()
      requires Valid()
      modifies this`carryOff, Foot()
      ensures Valid() && carry == old(carry) && Foot() == old(Foot()) && Carried() == []
    {
      carryOff := 0;
      if carry != null {
        carry.n := 0;
      }
    }

    /** preroll: lands, then decodes up to the target. A decode that needs what came before its landing starts over
        earlier by a doubled run-up; each landing is strictly earlier than the last, so the search
        ends. */
    method PreRoll(from: nat, target: nat) returns (r: Outcome, p: nat)
      requires Valid() && from <= target
      modifies this`next, this`held, this`eof, this`hole, this`landed, this`skip, this`step, this`carry, this`carryOff,
          this`faults, Foot()
      ensures Valid() && fresh(Foot() - old(Foot()))
      ensures r.Done? ==> p == Min(target, |source.From(0)|) && Pending() == source.From(0)[p..]
      ensures r.Done? ==> landed <= from && landed <= p && skip == 0 && (eof ==> held.None?)
      ensures !r.AtEnd?
      ensures faults >= old(faults) && (!r.Done? ==> faults > old(faults))
      ensures r.Done? && p < target ==> eof
    {
      var at := from;
      while true
        invariant Valid() && fresh(Foot() - old(Foot())) && 0 <= at <= from && faults >= old(faults)
        decreases at
      {
        r, p := Approach(at, target);
        if !(r.NeedsHistory? && landed > 0 && !hole) {
          return;
        }
        step := step * 2;
        at := Max(landed - step, 0);
      }
    }

    /** One landing, and the decode forward from it. */
    method Approach(at: nat, target: nat) returns (r: Outcome, p: nat)
      requires Valid() && at <= target
      modifies this`next, this`held, this`eof, this`hole, this`landed, this`skip, this`step, this`carry, this`carryOff,
          this`faults, Foot()
      ensures Valid() && fresh(Foot() - old(Foot())) && !r.AtEnd?
      ensures r.Done? ==> p == Min(target, |source.From(0)|) && Pending() == source.From(0)[p..]
      ensures r.Done? ==> landed <= p && skip == 0 && (eof ==> held.None?)
      ensures r.Done? || r.NeedsHistory? ==> landed <= at && step > 0
      ensures Blamed(r, old(faults))
      ensures r.Done? && p < target ==> eof
    {
      p := 0;
      var ok := Descend(at, target);
      if !ok {
        return Broken, 0;
      }
      r, p := Onward(target);
    }

    /** Lands, and the first time notes how long the run-up was. */
    method Descend(at: nat, target: nat) returns (ok: bool)
      requires Valid() && at <= target
      modifies this`next, this`held, this`eof, this`hole, this`landed, this`skip, this`step, this`carryOff, this`faults,
          Foot()
      ensures Valid() && carry == old(carry)
      ensures ok ==> landed <= at && landed <= |source.From(0)| && Pending() == source.From(0)[landed..]
      ensures ok ==> held.None? && !eof && !hole && skip == 0 && step > 0
      ensures faults >= old(faults) && (!ok ==> faults > old(faults))
    {
      ok := Land(at);
      if ok && step == 0 {
        step := Max(target - landed, 1);
      }
    }

    /** From a landing at or before the target to the target. */
    method Onward(target: nat) returns (r: Outcome, p: nat)
      requires Valid() && landed <= target && landed <= |source.From(0)| && Pending() == source.From(0)[landed..]
      requires eof ==> held.None?
      modifies this`next, this`held, this`eof, this`hole, this`carry, this`carryOff, this`faults, Foot()
      ensures Valid() && fresh(Foot() - old(Foot())) && !r.AtEnd? && landed <= p && (eof ==> held.None?)
      ensures r.Done? ==> p == Min(target, |source.From(0)|) && Pending() == source.From(0)[p..]
      ensures Blamed(r, old(faults))
      ensures r.Done? && p < target ==> eof
    {
      if target <= landed {
        return Done, landed;
      }
      r, p := Forward(target);
    }

    /** Decodes forward from a landing, dropping what comes before the target. */
    method Forward(target: nat) returns (r: Outcome, p: nat)
      requires Valid() && landed < target && landed <= |source.From(0)| && Pending() == source.From(0)[landed..]
      requires eof ==> held.None?
      modifies this`next, this`held, this`eof, this`hole, this`carry, this`carryOff, this`faults, Foot()
      ensures Valid() && fresh(Foot() - old(Foot())) && !r.AtEnd? && landed <= p && (eof ==> held.None?)
      ensures r.Done? ==> p == Min(target, |source.From(0)|) && Pending() == source.From(0)[p..]
      ensures Blamed(r, old(faults))
      ensures r.Done? && p < target ==> eof
    {
      var dropped;
      ghost var was := Pending();
      r, dropped := Discard(target - landed, was);
      p := landed + dropped;
      if r.Done? {
        Further(source.From(0), landed, was, dropped, p);
      }
    }

    static lemma Further(all: seq<seq<T>>, at: nat, was: seq<seq<T>>, n: nat, on: nat)
      requires at <= |all| && was == all[at..] && n <= |was| && on == at + n
      ensures |was| == |all| - at && was[n..] == all[on..]
    {
    }

    /** reland: the same search, once a read turns out to need what came before its landing; `raw` is the next
        sample owed. */
    method Reland(raw: nat) returns (r: Outcome)
      requires Valid() && landed <= raw
      modifies this`next, this`held, this`eof, this`hole, this`landed, this`skip, this`step, this`carry, this`carryOff,
          this`faults, Foot()
      ensures Valid() && fresh(Foot() - old(Foot())) && !r.AtEnd?
      ensures r.Done? ==> raw <= |source.From(0)| && Pending() == source.From(0)[raw..]
      ensures r.Done? ==> landed < old(landed) && landed <= raw && skip == 0 && (eof ==> held.None?)
      ensures faults >= old(faults) && (!r.Done? ==> faults > old(faults) || old(landed) == 0 || |source.From(0)| < raw)
    {
      if landed == 0 {
        return Broken;
      }
      step := Max(2 * step, 2);
      var p;
      r, p := PreRoll(Max(landed - step, 0), raw);
      if r.Done? && p != raw {
        r := Broken;
      }
    }

    // ----- Reading and seeking -----

    /** The landing lies behind the position; while front trim is owed there has been none but the start; and a stream
        that ends inside its own delay has been read to its end. */
    ghost predicate Trails()
      reads `landed, `pos, `skip, `eof
    {
      && landed <= delay + pos && skip <= delay && (skip > 0 ==> landed == 0)
      && (skip == 0 && |source.From(0)| < delay ==> eof)
    }

    /** The cap is met: nothing more is handed on, whatever is still carried. */
    ghost predicate Finished()
      reads this
    {
      eof && rawEnd >= 0 && pos == rawEnd - delay
    }

    /** What a read from here delivers is the promised stream from `pos` on. */
    ghost predicate Ready()
      requires Valid()
      reads this, Foot()
    {
      && (rawEnd < 0 || delay <= rawEnd) && 0 <= pos <= |source.Delivered(delay, rawEnd)| && Trails()
      && (Finished() || Standing())
    }

    /** Short of the cap, what is pending is everything from the position on, the front trim still owed included. */
    ghost predicate Standing()
      requires Valid()
      reads this, Foot()
    {
      StandsAt(delay - skip + pos)
    }

    ghost predicate StandsAt(raw: int)
      requires Valid()
      reads this, Foot()
    {
      && (eof ==> held.None?) && (skip > 0 ==> pos == 0 && (eof ==> Pending() == []))
      && 0 <= raw == delay - skip + pos && Pending() == Drop(source.From(0), raw)
    }

    constructor (source: Program<T>, track: Track)
      requires source.Ok() && track.delay >= 0
      ensures Valid() && Ready() && pos == 0 && !discont && this.source == source
      ensures delay == track.delay && rawEnd == RawEndFor(track)
    {
      this.source, delay, rawEnd := source, track.delay, RawEndFor(track);
      next, held, carry, carryOff, pos := 0, None, null, 0, 0;
      skip, eof, discont, landed, step, hole, faults := track.delay, false, false, 0, 0, false, 0;
      new;
      assert Pending() == source.From(0);
    }

    /** SeekSample: the raw target, under the cap; the next chunk starts where the pre-roll stopped. */
    method SeekSample(target: int) returns (r: Outcome)
      requires Valid() && Ready()
      modifies this, Foot()
      ensures Valid() && fresh(Foot() - old(Foot())) && !r.AtEnd?
      ensures target < 0 ==> r.Broken? && Ready()
      ensures r.Done? ==> Ready() && discont && pos == Min(target, |source.Delivered(delay, rawEnd)|)
      ensures faults >= old(faults) && (target >= 0 && !r.Done? ==> faults > old(faults))
    {
      if target < 0 {
        return Broken;
      }
      var rawTarget := target + delay;
      if rawEnd >= 0 {
        rawTarget := Min(rawTarget, rawEnd);
      }
      step := 0;
      r := SeekRaw(rawTarget);
    }

    method SeekRaw(rawTarget: nat) returns (r: Outcome)
      requires Valid() && (rawEnd < 0 || delay <= rawEnd) && delay <= rawTarget && (rawEnd >= 0 ==> rawTarget <= rawEnd)
      modifies this, Foot()
      ensures Valid() && fresh(Foot() - old(Foot())) && !r.AtEnd?
      ensures r.Done? ==> Ready() && discont && pos == Min(rawTarget - delay, |source.Delivered(delay, rawEnd)|)
      ensures faults >= old(faults) && (!r.Done? ==> faults > old(faults))
    {
      var p;
      r, p := PreRoll(rawTarget, rawTarget);
      if r.Done? {
        pos := Max(p - delay, 0);
        discont := true;
        Landed(p, rawTarget);
      }
    }

    lemma Landed(p: nat, rawTarget: nat)
      requires Valid() && p == Min(rawTarget, |source.From(0)|) && Pending() == source.From(0)[p..]
      requires landed <= p && skip == 0 && (eof ==> held.None?) && pos == Max(p - delay, 0)
      requires (rawEnd < 0 || delay <= rawEnd) && delay <= rawTarget && (rawEnd >= 0 ==> rawTarget <= rawEnd)
      requires p < rawTarget ==> eof
      ensures Ready() && pos == Min(rawTarget - delay, |source.Delivered(delay, rawEnd)|)
    {
      var raw := delay + pos;
      TargetReached(source.From(0), delay, rawEnd, rawTarget, p, pos, raw);
      DropIs(source.From(0), p, raw);
      LandedStands(p, raw);
    }

    lemma LandedStands(p: nat, raw: nat)
      requires Valid() && p <= |source.From(0)| && Pending() == source.From(0)[p..] == Drop(source.From(0), raw)
      requires landed <= p <= raw && skip == 0 && (eof ==> held.None?) && raw == delay + pos && pos >= 0
      requires |source.From(0)| < delay ==> eof
      ensures Standing() && Trails()
    {
      assert StandsAt(raw);
    }

    static lemma TargetReached(whole: seq<seq<T>>, delay: nat, rawEnd: int, rawTarget: nat, p: nat, pos: int, raw: int)
      requires p == Min(rawTarget, |whole|) && pos == Max(p - delay, 0) && raw == delay + pos
      requires (rawEnd < 0 || delay <= rawEnd) && delay <= rawTarget && (rawEnd >= 0 ==> rawTarget <= rawEnd)
      ensures var d := Drop(whole, delay);
        var n := |if rawEnd < 0 then d else Take(d, rawEnd - delay)|; 0 <= pos <= n && pos == Min(rawTarget - delay, n)
      ensures p == raw || p == |whole| <= raw
    {
      DeliveredLength(whole, delay, rawEnd);
    }

    static lemma DeliveredLength(all: seq<seq<T>>, delay: nat, rawEnd: int)
      requires rawEnd < 0 || delay <= rawEnd
      ensures var d := Drop(all, delay);
        |if rawEnd < 0 then d else Take(d, rawEnd - delay)| ==
          Max((if rawEnd < 0 then |all| else Min(|all|, rawEnd)) - delay, 0)
    {
    }

    static lemma DropIs(all: seq<seq<T>>, p: nat, q: nat)
      requires p == q <= |all| || p == |all| <= q
      ensures all[p..] == Drop(all, q)
    {
    }

    /** A front trim can still be owed only by a stream that ended inside it. */
    ghost predicate Owes(all: seq<seq<T>>)
      reads `skip, `eof, `pos, `landed
    {
      && skip <= delay && (skip > 0 ==> eof && pos == 0 && all == [] && |source.From(0)| <= delay - skip && landed == 0)
      && (|source.From(0)| < delay ==> eof)
    }

    /** What the source decodes to from the position on, whose place on the raw timeline is `base`. */
    ghost predicate OnBase(all: seq<seq<T>>, base: nat)
      reads `pos
    {
      base == delay + pos && all == Drop(source.From(0), base)
    }

    /** The front trim still owed, decoded and dropped. */
    method DropOwed(ghost all: seq<seq<T>>, ghost base: nat) returns (r: Outcome)
      requires Valid() && Standing() && 0 <= pos && Trails() && OnBase(all, base)
      modifies this`next, this`held, this`eof, this`hole, this`skip, this`carry, this`carryOff, this`faults, Foot()
      ensures Valid() && fresh(Foot() - old(Foot())) && !r.AtEnd? && (eof ==> held.None?)
      ensures r.Done? ==> Pending() == all && Owes(all)
      ensures faults >= old(faults) && (!r.Done? ==> faults > old(faults))
    {
      r := Done;
      if skip == 0 {
        assert StandsAt(base);
      } else {
        ghost var raw := delay - skip;
        assert StandsAt(raw);
        if eof {
          StillNothing(source.From(0), delay, raw);
        } else {
          r := DropFront(all, raw);
        }
      }
    }

    method DropFront(ghost all: seq<seq<T>>, ghost raw: nat) returns (r: Outcome)
      requires Valid() && !eof && 0 < skip <= delay && pos == 0 && raw == delay - skip &&
          Pending() == Drop(source.From(0), raw)
      requires all == Drop(source.From(0), delay) && landed == 0
      modifies this`next, this`held, this`eof, this`hole, this`skip, this`carry, this`carryOff, this`faults, Foot()
      ensures Valid() && fresh(Foot() - old(Foot())) && !r.AtEnd? && (eof ==> held.None?)
      ensures r.Done? ==> Pending() == all && Owes(all)
      ensures Blamed(r, old(faults))
    {
      var dropped;
      ghost var was := Pending();
      r, dropped := Discard(skip, was);
      if r.Done? {
        Owing(source.From(0), delay, skip, raw, dropped, was, all);
        skip := skip - dropped;
      }
    }

    static lemma StillNothing(whole: seq<seq<T>>, delay: nat, raw: nat)
      requires raw <= delay && Drop(whole, raw) == []
      ensures |whole| <= raw && Drop(whole, delay) == []
    {
    }

    static lemma Owing(whole: seq<seq<T>>, delay: nat, skip: nat, raw: nat, dropped: nat, was: seq<seq<T>>,
        all: seq<seq<T>>)
      requires raw == delay - skip && was == Drop(whole, raw) && dropped == Min(skip, |was|) &&
          all == Drop(whole, delay)
      ensures was[dropped..] == all && (dropped == skip > 0 ==> |whole| >= delay)
      ensures dropped < skip ==> |whole| <= delay - (skip - dropped) && all == []
    {
    }

    /** Fills a chunk from where the stream stands, starting over earlier as often as the decode asks for it. */
    method FillChunk(dst: Buffer<T>, ghost all: seq<seq<T>>, ghost base: nat) returns (r: Outcome)
      requires Valid() && Foreign(dst) && dst.stride > 0 && (eof ==> held.None?) && Owes(all)
      requires 0 <= pos && landed <= delay + pos && Pending() == all && OnBase(all, base)
      modifies this`next, this`held, this`eof, this`hole, this`landed, this`skip, this`step, this`carry, this`carryOff,
          this`faults, Foot(), dst, dst.data
      ensures Valid() && fresh(Foot() - old(Foot())) && Foreign(dst) && !r.AtEnd? && !r.NeedsHistory?
      ensures r.Done? ==> Gathered(dst, all)
      ensures faults >= old(faults) && (!r.Done? ==> faults > old(faults) || delay <= |source.From(0)| < base)
    {
      dst.n := 0;
      Joins(dst, [], all);
      CopyOut(dst);
      r := FillRest(dst, all, base);
    }

    method FillRest(dst: Buffer<T>, ghost all: seq<seq<T>>, ghost base: nat) returns (r: Outcome)
      requires Valid() && Foreign(dst) && Takes(dst) && (eof ==> held.None?) && 0 <= pos && landed <= delay + pos &&
          Owes(all)
      requires Staged(dst) + Undecoded() == all && OnBase(all, base)
      modifies this`next, this`held, this`eof, this`hole, this`landed, this`skip, this`step, this`carry, this`carryOff,
          this`faults, Foot(), dst, dst.data
      ensures Valid() && fresh(Foot() - old(Foot())) && Foreign(dst) && !r.AtEnd? && !r.NeedsHistory?
      ensures r.Done? ==> Gathered(dst, all)
      ensures faults >= old(faults) && (!r.Done? ==> faults > old(faults) || delay <= |source.From(0)| < base)
    {
      while dst.n < dst.stride && !eof
        invariant Valid() && fresh(Foot() - old(Foot())) && Foreign(dst) && Takes(dst) && (eof ==> held.None?)
        invariant landed <= delay + pos && Owes(all) && pos == old(pos) && faults >= old(faults)
        invariant Staged(dst) + Undecoded() == all
        decreases landed, |source.pkts| - next, HeldSize(), if eof then 0 else 1
      {
        r := FillOnce(dst, all, base);
        if !r.Done? {
          return Broken;
        }
      }
      r := Done;
    }

    /** One packet more of a chunk. */
    method FillOnce(dst: Buffer<T>, ghost all: seq<seq<T>>, ghost base: nat) returns (r: Outcome)
      requires Valid() && Foreign(dst) && Takes(dst) && dst.n < dst.stride && !eof && 0 <= pos && landed <= delay + pos
      requires Staged(dst) + Undecoded() == all && OnBase(all, base)
      modifies this`next, this`held, this`eof, this`hole, this`landed, this`skip, this`step, this`carry, this`carryOff,
          this`faults, Foot(), dst, dst.data
      ensures Valid() && fresh(Foot() - old(Foot())) && Foreign(dst)
      ensures r.Done? ==>
          Takes(dst) && Staged(dst) + Undecoded() == all && landed <= delay + pos && (eof ==> held.None?)
      ensures r.Done? ==>
          landed < old(landed) || (landed == old(landed) && Progressed(old(next), old(HeldSize()), false))
      ensures r.Done? && old(skip) == 0 ==> skip == 0
      ensures faults >= old(faults) && (!r.Done? ==> faults > old(faults) || |source.From(0)| < base)
    {
      ghost var had, next0, held0, landed0 := dst.Contents(), next, HeldSize(), landed;
      assert Carried() == [] && Staged(dst) == had && had == all[..dst.n];
      r := Fill(dst);
      if r.Done? {
        assert landed == landed0 && Progressed(next0, held0, false);
      } else {
        r := Retry(r, dst, had, all, base);
      }
    }

    /** A packet not decoded: the history it misses is looked for earlier, unless a hole took it. */
    method Retry(refused: Outcome, dst: Buffer<T>, ghost had: seq<seq<T>>, ghost all: seq<seq<T>>, ghost base: nat)
        returns (r: Outcome)
      requires Valid() && Foreign(dst) && 0 <= pos && landed <= delay + pos && OnBase(all, base)
      requires refused.NeedsHistory? ==> Takes(dst) && Staged(dst) == had
      requires |had| <= |all| && |had| < dst.stride && had == all[..|had|]
      modifies this`next, this`held, this`eof, this`hole, this`landed, this`skip, this`step, this`carry, this`carryOff,
          this`faults, Foot(), dst, dst.data
      ensures Valid() && fresh(Foot() - old(Foot())) && Foreign(dst)
      ensures r.Done? ==>
          Takes(dst) && Staged(dst) + Undecoded() == all && landed < old(landed) && landed <= delay + pos
      ensures r.Done? ==> (eof ==> held.None?) && skip == 0
      ensures faults >= old(faults) && (!r.Done? ==>
        faults > old(faults) || !refused.NeedsHistory? || old(hole) || old(landed) == 0 || |source.From(0)| < base)
    {
      if refused.NeedsHistory? && !hole {
        SameChunk(dst, had);
        r := LandAgain(dst, all, base);
      } else {
        r := Broken;
      }
    }

    lemma SameChunk(dst: Buffer<T>, had: seq<seq<T>>)
      requires Valid() && Foreign(dst) && Takes(dst) && Staged(dst) == had && |had| < dst.stride
      ensures dst.Contents() == had && dst.n == |had| && Carried() == []
    {
    }

    method LandAgain(dst: Buffer<T>, ghost all: seq<seq<T>>, ghost base: nat) returns (r: Outcome)
      requires Valid() && Foreign(dst) && Carried() == [] && 0 <= pos && landed <= delay + pos
      requires dst.n <= |all| && dst.Contents() == all[..dst.n] && OnBase(all, base)
      modifies this`next, this`held, this`eof, this`hole, this`landed, this`skip, this`step, this`carry, this`carryOff,
          this`faults, Foot(), dst, dst.data
      ensures Valid() && fresh(Foot() - old(Foot())) && Foreign(dst) && !r.AtEnd?
      ensures r.Done? ==>
          Takes(dst) && Staged(dst) + Undecoded() == all && landed < old(landed) && landed <= delay + pos
      ensures r.Done? ==> (eof ==> held.None?) && skip == 0
      ensures faults >= old(faults)
      ensures !r.Done? ==> faults > old(faults) || old(landed) == 0 || |source.From(0)| < base
    {
      ghost var had := dst.Contents();
      var raw := delay + pos + dst.n;
      r := Reland(raw);
      if r.Done? {
        Rejoined(source.From(0), base, raw, had, all, Pending());
        Joins(dst, had, all);
        CopyOut(dst);
      }
    }

    lemma Joins(dst: Buffer<T>, had: seq<seq<T>>, all: seq<seq<T>>)
      requires Valid() && Foreign(dst) && dst.Contents() == had && had + Pending() == all
      ensures Staged(dst) + Undecoded() == all
    {
      Conserved(had, Carried(), Undecoded());
    }

    static lemma Rejoined(whole: seq<seq<T>>, base: nat, raw: nat, had: seq<seq<T>>, all: seq<seq<T>>,
        pending: seq<seq<T>>)
      requires all == Drop(whole, base) && raw == base + |had| <= |whole| && |had| <= |all| && had == all[..|had|]
      requires pending == whole[raw..]
      ensures had + pending == all
    {
    }

    /** A stretch of the decoded run, on the promised stream. */
    static lemma OnPromise(whole: seq<seq<T>>, promised: seq<seq<T>>, delay: nat, rawEnd: int, at: nat,
        ahead: seq<seq<T>>, n: nat)
      requires promised == (var d := Drop(whole, delay); if rawEnd < 0 then d else Take(d, rawEnd - delay))
      requires (rawEnd < 0 || delay <= rawEnd) && at <= |promised| && ahead == Drop(whole, delay + at) && n <= |ahead|
      ensures rawEnd < 0 || at + n <= rawEnd - delay ==> at + n <= |promised| && promised[at..at + n] == ahead[..n]
      ensures rawEnd >= 0 && at + n >= rawEnd - delay ==> |promised| == rawEnd - delay
      ensures ahead == [] ==> at == |promised|
      ensures ahead[n..] == Drop(whole, delay + at + n)
    {
    }

    /** What a chunk of the decoded run, clamped at the cap, is of the promised one. */
    static lemma ChunkOfPromise(whole: seq<seq<T>>, promised: seq<seq<T>>, delay: nat, rawEnd: int, at: nat,
        ahead: seq<seq<T>>, had: seq<seq<T>>, rest: seq<seq<T>>, n: nat, past: nat)
      requires promised == (var d := Drop(whole, delay); if rawEnd < 0 then d else Take(d, rawEnd - delay))
      requires ahead == Drop(whole, delay + at) && had + rest == ahead && at <= |promised| &&
          (rawEnd < 0 || delay <= rawEnd)
      requires n == (if rawEnd >= 0 && |had| >= rawEnd - delay - at then rawEnd - delay - at else |had|) &&
          past == delay + at + n
      ensures n <= |had| && at + n <= |promised| && had[..n] == promised[at..at + n]
      ensures rawEnd >= 0 && |had| >= rawEnd - delay - at ==> at + n == |promised| == rawEnd - delay
      ensures n == |had| ==> rest == Drop(whole, past)
      ensures ahead == [] ==> at == |promised|
    {
      assert |promised| <= if rawEnd < 0 then |promised| else rawEnd - delay;
      OnPromise(whole, promised, delay, rawEnd, at, ahead, |had|);
      OnPromise(whole, promised, delay, rawEnd, at, ahead, n);
      assert ahead[..n] == had[..n] && ahead[|had|..] == rest;
    }

    /** A chunk and the carry hold everything from the position on, the chunk full unless the stream has ended. */
    ghost predicate Gathered(dst: Buffer<T>, all: seq<seq<T>>)
      requires Valid() && dst.Valid()
      reads this, Foot(), dst, dst.data
    {
      && Staged(dst) + Undecoded() == all && (eof ==> held.None?) && (dst.n < dst.stride ==> eof && CarryLen() == 0)
      && landed <= delay + pos && Owes(all)
    }

    /** Everything a chunk can take, before the cap. */
    method Gather(dst: Buffer<T>, ghost all: seq<seq<T>>, ghost base: nat) returns (r: Outcome)
      requires Valid() && Standing() && 0 <= pos && Trails() && Foreign(dst) && dst.stride > 0
      requires OnBase(all, base) && (delay <= |source.From(0)| ==> base <= |source.From(0)|)
      modifies this`next, this`held, this`eof, this`hole, this`landed, this`skip, this`step, this`carry, this`carryOff,
          this`faults, Foot(), dst, dst.data
      ensures Valid() && fresh(Foot() - old(Foot())) && Foreign(dst) && !r.AtEnd?
      ensures r.Done? ==> Gathered(dst, all)
      ensures faults >= old(faults) && (!r.Done? ==> faults > old(faults))
    {
      r := DropOwed(all, base);
      if r.Done? {
        r := FillChunk(dst, all, base);
      }
    }

    /** What is already decoded, when the source has ended. */
    method GatherLast(dst: Buffer<T>, ghost all: seq<seq<T>>, ghost base: nat, ghost standing: bool)
      requires Valid() && eof && Foreign(dst) && dst.stride > 0
      requires standing ==> Standing() && 0 <= pos && Trails() && OnBase(all, base)
      modifies this`carryOff, dst`n, dst.data
      ensures Valid() && Foot() == old(Foot()) && Foreign(dst)
      ensures standing ==> Gathered(dst, all)
    {
      dst.n := 0;
      if standing {
        LastStands(dst, all, base);
      }
      CopyOut(dst);
    }

    lemma LastStands(dst: Buffer<T>, all: seq<seq<T>>, base: nat)
      requires Valid() && eof && Foreign(dst) && dst.n == 0
      requires Standing() && 0 <= pos && Trails() && OnBase(all, base)
      ensures Staged(dst) + Undecoded() == all && Owes(all)
    {
      if skip > 0 {
        assert StandsAt(delay - skip);
        StillNothing(source.From(0), delay, delay - skip);
      } else {
        assert StandsAt(base);
      }
      Joins(dst, [], all);
    }

    /** The cap: what lies past it is the encoder's flush, not audio. */
    method Cap(dst: Buffer<T>, allowed: nat, ghost left: seq<seq<T>>)
      requires Valid() && Foreign(dst) && allowed <= dst.n && left == dst.Contents()[..allowed]
      modifies this`eof, dst`n
      ensures Valid() && dst.Valid() && Foot() == old(Foot()) && eof && dst.n == allowed && dst.Contents() == left
    {
      dst.Stretch(0, dst.n, 0, allowed);
      dst.n := allowed;
      eof := true;
    }

    /** A chunk ready to hand over: the promised stream's next frames, with the stream standing past them or at its
        cap. */
    ghost predicate Ripe(dst: Buffer<T>, promised: seq<seq<T>>)
      requires Valid() && dst.Valid()
      reads this, Foot(), dst, dst.data
    {
      && 0 <= pos && pos + dst.n <= |promised| && dst.Contents() == promised[pos..pos + dst.n]
      && (dst.n == 0 ==> pos == |promised|) && (Capped(dst.n) || Past(dst.n))
    }

    /** n frames from here the cap is met. */
    ghost predicate Capped(n: nat)
      reads `eof, `pos
    {
      eof && rawEnd >= 0 && pos + n == rawEnd - delay
    }

    /** n frames from here the stream stands. */
    ghost predicate Past(n: nat)
      requires Valid()
      reads this, Foot()
    {
      PastAt(n, delay - skip + pos + n)
    }

    ghost predicate PastAt(n: nat, raw: int)
      requires Valid()
      reads this, Foot()
    {
      && (eof ==> held.None?) && skip <= delay && (skip > 0 ==> n == 0 && pos == 0 && (eof ==> Pending() == []))
      && 0 <= raw == delay - skip + pos + n && Pending() == Drop(source.From(0), raw)
    }

    /** What the cap leaves of a chunk is ready to hand over. */
    method ClampChunk(dst: Buffer<T>, ghost promised: seq<seq<T>>, ghost all: seq<seq<T>>, ghost base: nat)
      requires Valid() && Foreign(dst) && (rawEnd < 0 || delay <= rawEnd) && 0 <= pos <= |promised| && dst.stride > 0
      requires promised == source.Delivered(delay, rawEnd) && OnBase(all, base)
      requires Finished() || Gathered(dst, all)
      modifies this`eof, dst`n
      ensures Valid() && dst.Valid() && Foot() == old(Foot()) && Ripe(dst, promised) && (old(eof) ==> eof)
    {
      ghost var had, n := dst.Contents(), Kept(dst.n);
      ghost var stays := Clamps(dst, promised, all, base, had, n);
      ghost var left, on := had[..n], pos + n;
      if rawEnd >= 0 {
        var allowed := rawEnd - delay - pos;
        if dst.n >= allowed {
          Cap(dst, Max(allowed, 0), left);
          assert Capped(n);
        }
      }
      assert dst.n == n && dst.Contents() == left;
      Ripens(dst, promised, n, on);
    }

    lemma Ripens(dst: Buffer<T>, promised: seq<seq<T>>, n: nat, on: int)
      requires Valid() && dst.Valid() && dst.n == n && 0 <= pos && on == pos + n <= |promised|
      requires dst.Contents() == promised[pos..on] && (n == 0 ==> pos == |promised|) && (Capped(n) || Past(n))
      ensures Ripe(dst, promised)
    {
    }

    /** How many of n frames the cap leaves. */
    ghost function Kept(n: nat): int
      reads `pos
    {
      if rawEnd >= 0 && n >= rawEnd - delay - pos then Max(rawEnd - delay - pos, 0) else n
    }

    /** What the clamp is about to leave, and whether the stream stands past it. */
    lemma Clamps(dst: Buffer<T>, promised: seq<seq<T>>, all: seq<seq<T>>, base: nat, had: seq<seq<T>>, n: int)
        returns (stays: bool)
      requires Valid() && Foreign(dst) && (rawEnd < 0 || delay <= rawEnd) && 0 <= pos <= |promised| && dst.stride > 0
      requires promised == source.Delivered(delay, rawEnd) && OnBase(all, base)
      requires (Finished() || Gathered(dst, all)) && had == dst.Contents() && n == Kept(dst.n)
      ensures 0 <= n <= |had| && pos + n <= |promised| && had[..n] == promised[pos..pos + n] &&
          (n == 0 ==> pos == |promised|)
      ensures stays == !(rawEnd >= 0 && dst.n >= rawEnd - delay - pos)
      ensures if stays then n == |had| && Past(n) else pos + n == rawEnd - delay
    {
      stays := !(rawEnd >= 0 && dst.n >= rawEnd - delay - pos);
      if Finished() {
        DeliveredLength(source.From(0), delay, rawEnd);
      } else {
        var past := base + n;
        NoneIsAll(dst, all);
        ClampsGathered(dst, promised, all, base, had, Pending(), n, past);
        if stays {
          StandsPast(dst, all, base, had, Pending(), past);
        }
      }
    }

    /** A chunk that got nothing found nothing. */
    lemma NoneIsAll(dst: Buffer<T>, all: seq<seq<T>>)
      requires Valid() && dst.Valid() && dst.stride > 0 && Gathered(dst, all)
      ensures dst.Contents() + Pending() == all && (dst.n == 0 ==> all == [])
    {
      Conserved(dst.Contents(), Carried(), Undecoded());
    }

    lemma ClampsGathered(dst: Buffer<T>, promised: seq<seq<T>>, all: seq<seq<T>>, base: nat, had: seq<seq<T>>,
        rest: seq<seq<T>>, n: int, past: nat)
      requires (rawEnd < 0 || delay <= rawEnd) && 0 <= pos <= |promised| && promised == source.Delivered(delay, rawEnd)
      requires OnBase(all, base) && had + rest == all && (had == [] ==> all == []) && n == Kept(|had|) &&
          past == base + n
      ensures 0 <= n <= |had| && pos + n <= |promised| && had[..n] == promised[pos..pos + n] &&
          (n == 0 ==> pos == |promised|)
      ensures if rawEnd >= 0 && |had| >= rawEnd - delay - pos then pos + n == rawEnd - delay
          else n == |had| && rest == Drop(source.From(0), past)
    {
      DeliveredLength(source.From(0), delay, rawEnd);
      ChunkOfPromise(source.From(0), promised, delay, rawEnd, pos, all, had, rest, n, past);
    }

    lemma StandsPast(dst: Buffer<T>, all: seq<seq<T>>, base: nat, had: seq<seq<T>>, rest: seq<seq<T>>, past: nat)
      requires Valid() && dst.Valid() && dst.stride > 0 && Gathered(dst, all) && 0 <= pos && had == dst.Contents() &&
          rest == Pending()
      requires had + rest == all && OnBase(all, base) && rest == Drop(source.From(0), past) && past == base + |had|
      ensures Past(|had|) && (|had| == 0 ==> all == [])
    {
      NoneIsAll(dst, all);
      PastIs(|had|, delay - skip + pos + |had|, all, rest, past);
    }

    lemma PastIs(n: nat, raw: int, all: seq<seq<T>>, rest: seq<seq<T>>, past: nat)
      requires Valid() && (eof ==> held.None?) && Owes(all) && 0 <= pos && raw == delay - skip + pos + n
      requires rest == Pending() == Drop(source.From(0), past) && past == delay + pos + n && |all| == n + |rest|
      ensures Past(n)
    {
      assert skip > 0 ==> n == 0 && rest == [] && Drop(source.From(0), raw) == [];
      assert PastAt(n, raw);
    }

    /** Stamps a chunk with where it starts, and moves on. */
    method Stamp(dst: Buffer<T>, ghost promised: seq<seq<T>>)
      requires Valid() && dst.Valid() && (rawEnd < 0 || delay <= rawEnd) && Trails() && dst.n > 0
      requires promised == source.Delivered(delay, rawEnd) && Ripe(dst, promised)
      modifies this`pos, this`discont, dst`pos, dst`discont
      ensures Valid() && dst.Valid() && Foot() == old(Foot()) && Ready()
      ensures pos == old(pos) + dst.n && dst.pos == old(pos) && dst.discont == old(discont) && !discont
      ensures pos <= |promised| && dst.Contents() == promised[old(pos)..pos]
    {
      var on := pos + dst.n;
      ghost var capped, all, raw := RipeIs(dst, promised, dst.n, on);
      MoveOn(dst, promised, dst.n, on, capped, all, raw);
    }

    /** What the chunk holds, and where the stream stands past it. */
    lemma RipeIs(dst: Buffer<T>, promised: seq<seq<T>>, n: nat, on: int)
        returns (capped: bool, all: seq<seq<T>>, raw: int)
      requires Valid() && dst.Valid() && Ripe(dst, promised) && n == dst.n && on == pos + n
      ensures 0 <= pos && on <= |promised| && dst.Contents() == promised[pos..on] && all == Pending()
      ensures capped ==> eof && rawEnd >= 0 && on == rawEnd - delay
      ensures !capped ==> (eof ==> held.None?) && (skip > 0 ==> n == 0 && pos == 0 && (eof ==> all == []))
      ensures !capped ==> 0 <= raw == delay - skip + on && all == Drop(source.From(0), raw)
    {
      capped, all, raw := Capped(n), Pending(), delay - skip + pos + n;
      assert !capped ==> PastAt(n, raw);
    }

    method MoveOn(dst: Buffer<T>, ghost promised: seq<seq<T>>, n: nat, on: int, ghost capped: bool,
        ghost all: seq<seq<T>>, ghost raw: int)
      requires Valid() && dst.Valid() && (rawEnd < 0 || delay <= rawEnd) && Trails()
      requires promised == source.Delivered(delay, rawEnd) && n == dst.n && all == Pending() && on == pos + n
      requires 0 <= pos && on <= |promised| && dst.Contents() == promised[pos..on]
      requires capped ==> eof && rawEnd >= 0 && on == rawEnd - delay
      requires !capped ==> (eof ==> held.None?) && (skip > 0 ==> n == 0 && pos == 0 && (eof ==> all == []))
      requires !capped ==> 0 <= raw == delay - skip + on && all == Drop(source.From(0), raw)
      modifies this`pos, this`discont, dst`pos, dst`discont
      ensures Valid() && dst.Valid() && Foot() == old(Foot()) && Ready()
      ensures pos == on && n == dst.n && dst.pos == old(pos) && dst.discont == old(discont) && !discont
      ensures dst.Contents() == promised[old(pos)..on]
    {
      dst.pos, dst.discont := pos, discont;
      discont := false;
      pos := on;
      StampReady(n, capped, all, raw);
    }

    lemma StampReady(n: nat, capped: bool, all: seq<seq<T>>, raw: int)
      requires Valid() && (rawEnd < 0 || delay <= rawEnd) && n <= pos <= |source.Delivered(delay, rawEnd)|
      requires Trails() && all == Pending()
      requires capped ==> eof && rawEnd >= 0 && pos == rawEnd - delay
      requires !capped ==> (eof ==> held.None?) && (skip > 0 ==> n == 0 && pos == 0 && (eof ==> all == []))
      requires !capped ==> 0 <= raw == delay - skip + pos && all == Drop(source.From(0), raw)
      ensures Ready()
    {
      assert !capped ==> StandsAt(raw);
    }

    /** ReadChunk: the promised stream's next frames, as many as the chunk holds; at its end, and ever after, none. */
    method ReadChunk(dst: Buffer<T>, ghost promised: seq<seq<T>>) returns (r: Outcome)
      requires Valid() && Ready() && Foreign(dst) && promised == source.Delivered(delay, rawEnd)
      modifies this, Foot(), dst, dst.data
      ensures Valid() && fresh(Foot() - old(Foot()))
      ensures dst.stride == 0 ==> r.Broken?
      ensures r.Done? || r.AtEnd? ==> Ready()
      ensures r.Done? ==> dst.Valid() && 0 < dst.n && pos == old(pos) + dst.n <= |promised| && dst.pos == old(pos)
      ensures r.Done? ==> dst.Contents() == promised[old(pos)..pos] && dst.discont == old(discont) && !discont
      ensures r.AtEnd? ==> pos == old(pos) == |promised|
      ensures faults >= old(faults)
      ensures r.Broken? || r.NeedsHistory? ==> dst.stride == 0 || faults > old(faults)
    {
      if dst.stride == 0 {
        return Broken;
      }
      ghost var base, at, mark := delay + pos, pos, discont;
      r := Prepare(dst, promised, Drop(source.From(0), base), base);
      if r.Done? {
        assert pos == at && discont == mark;
        r := HandOver(dst, promised);
      }
    }

    /** A chunk to the caller, or the end when there is nothing in it. */
    method HandOver(dst: Buffer<T>, ghost promised: seq<seq<T>>) returns (r: Outcome)
      requires Valid() && dst.Valid() && (rawEnd < 0 || delay <= rawEnd) && Trails()
      requires promised == source.Delivered(delay, rawEnd) && Ripe(dst, promised)
      modifies this`pos, this`discont, dst`pos, dst`discont
      ensures Valid() && Foot() == old(Foot()) && (r.Done? || r.AtEnd?) && Ready() && dst.n <= dst.stride
      ensures r.Done? ==>
          0 < dst.n && pos == old(pos) + dst.n && dst.pos == old(pos) && dst.discont == old(discont) && !discont
      ensures r.Done? ==> dst.Valid() && pos <= |promised| && dst.Contents() == promised[old(pos)..pos]
      ensures r.AtEnd? ==> pos == old(pos) == |promised|
    {
      if dst.n == 0 {
        assert !Capped(0) ==> PastAt(0, delay - skip + pos);
        StampReady(0, Capped(0), Pending(), delay - skip + pos);
        return AtEnd;
      }
      Stamp(dst, promised);
      r := Done;
    }

    /** A chunk gathered and clamped. */
    method Prepare(dst: Buffer<T>, ghost promised: seq<seq<T>>, ghost all: seq<seq<T>>, ghost base: nat)
        returns (r: Outcome)
      requires Valid() && Ready() && Foreign(dst) && dst.stride > 0
      requires promised == source.Delivered(delay, rawEnd) && OnBase(all, base)
      modifies this`next, this`held, this`eof, this`hole, this`landed, this`skip, this`step, this`carry, this`carryOff,
          this`faults, Foot(), dst, dst.data
      ensures Valid() && fresh(Foot() - old(Foot())) && (r.Done? || r.Broken?)
      ensures r.Done? ==> dst.Valid() && Ripe(dst, promised) && Trails()
      ensures faults >= old(faults) && (!r.Done? ==> faults > old(faults))
    {
      r := GatherAny(dst, all, base);
      if r.Done? {
        ClampChunk(dst, promised, all, base);
      }
    }

    method GatherAny(dst: Buffer<T>, ghost all: seq<seq<T>>, ghost base: nat) returns (r: Outcome)
      requires Valid() && Ready() && Foreign(dst) && dst.stride > 0 && OnBase(all, base)
      modifies this`next, this`held, this`eof, this`hole, this`landed, this`skip, this`step, this`carry, this`carryOff,
          this`faults, Foot(), dst, dst.data
      ensures Valid() && fresh(Foot() - old(Foot())) && (r.Done? || r.Broken?) && Foreign(dst)
      ensures r.Done? ==> (Finished() || Gathered(dst, all)) && Trails()
      ensures faults >= old(faults) && (!r.Done? ==> faults > old(faults))
    {
      if eof {
        GatherLast(dst, all, base, Standing());
        r := Done;
      } else {
        DeliveredLength(source.From(0), delay, rawEnd);
        r := Gather(dst, all, base);
        if !r.Done? {
          r := Broken;
        }
      }
    }

    /** Any reader at all: whatever the capacities, reading to the end hands on exactly the rest of the promised
        stream. */
    method ReadAll(ghost promised: seq<seq<T>>) returns (r: Outcome, ghost heard: seq<seq<T>>)
      requires Valid() && Ready() && promised == source.Delivered(delay, rawEnd)
      modifies this, Foot()
      ensures r.AtEnd? ==> heard == promised[old(pos)..]
      ensures r.Broken? ==> 0 <= old(pos) <= |promised| && heard <= promised[old(pos)..]
      ensures r.AtEnd? || r.Broken?
      ensures r.Broken? ==> faults > old(faults)
    {
      heard := [];
      ghost var start := pos;
      HeardNone(promised, start);
      while true
        invariant Valid() && fresh(Foot() - old(Foot())) && Ready() && HeardTo(promised, start, pos, heard)
        invariant faults >= old(faults)
        decreases |promised| - pos
      {
        r, heard := ReadOne(promised, start, heard);
        if !r.Done? {
          return;
        }
      }
    }

    static ghost predicate HeardTo(promised: seq<seq<T>>, start: int, at: int, heard: seq<seq<T>>) {
      0 <= start <= at <= |promised| && heard == promised[start..at]
    }

    static lemma HeardNone(promised: seq<seq<T>>, start: int)
      requires 0 <= start <= |promised|
      ensures HeardTo(promised, start, start, [])
    {
    }

    static lemma HeardOn(promised: seq<seq<T>>, start: int, at: int, on: int, before: seq<seq<T>>, chunk: seq<seq<T>>)
      requires HeardTo(promised, start, at, before) && at <= on <= |promised| && chunk == promised[at..on]
      ensures HeardTo(promised, start, on, before + chunk) && before <= promised[start..]
      ensures chunk == [] ==> before + chunk == before
      ensures on == |promised| ==> before + chunk == promised[start..]
    {
    }

    method ReadOne(ghost promised: seq<seq<T>>, ghost start: int, ghost before: seq<seq<T>>)
        returns (r: Outcome, ghost heard: seq<seq<T>>)
      requires Valid() && Ready() && promised == source.Delivered(delay, rawEnd)
      requires HeardTo(promised, start, pos, before)
      modifies this, Foot()
      ensures Valid() && fresh(Foot() - old(Foot())) && !r.NeedsHistory?
      ensures r.Done? ==> Ready() && old(pos) < pos && HeardTo(promised, start, pos, heard)
      ensures r.AtEnd? ==> heard == promised[start..]
      ensures r.Broken? ==> heard == before && 0 <= start <= |promised| && heard <= promised[start..]
      ensures faults >= old(faults)
      ensures r.Broken? ==> faults > old(faults)
    {
      ghost var was, chunk := pos, [];
      r, chunk := ReadFresh(promised);
      heard := before + chunk;
      HeardOn(promised, start, was, if r.Done? then pos else was, before, chunk);
    }

    /** A read into a chunk of the reader's own, of any capacity. */
    method ReadFresh(ghost promised: seq<seq<T>>) returns (r: Outcome, ghost chunk: seq<seq<T>>)
      requires Valid() && Ready() && promised == source.Delivered(delay, rawEnd)
      modifies this, Foot()
      ensures Valid() && fresh(Foot() - old(Foot())) && !r.NeedsHistory?
      ensures r.Done? ==> Ready() && old(pos) < pos <= |promised| && 0 <= old(pos) && chunk == promised[old(pos)..pos]
      ensures !r.Done? ==> chunk == [] && (r.AtEnd? ==> old(pos) == |promised|)
      ensures faults >= old(faults)
      ensures r.Broken? ==> faults > old(faults)
    {
      var cap: nat :| cap > 0;
      var dst := new Buffer<T>(source.channels, cap);
      r := ReadChunk(dst, promised);
      chunk := [];
      if r.Done? {
        chunk := dst.Contents();
      } else if r.NeedsHistory? {
        r := Broken;
      }
    }
  }
}
