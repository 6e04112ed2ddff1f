/** The joined stream as the code runs it (timeline.go): members opened one at a time, a tail captured into a blend
    buffer, chunks of whatever size the caller and the members choose. */
module Concat {
  import opened Buffer
  import opened Container
  import opened Timeline

  /** One answer of the stream: some frames, its clean end, or an error. */
  datatype Chunk<T> = Frames(s: seq<T>) | End | Failed

  /** What a read states beside its frames. */
  datatype Stamped<T> = Stamped(s: seq<T>, pos: int, discont: bool) | Eof | Error

  /** The largest blend buffer, in bytes. */
  const MAX_CROSSFADE_BYTES: int := 0x100_0000

  /** checkCrossfade: whether a zone of x frames can be blended at every seam. */
  method CheckCrossfade(lens: seq<int>, channels: int, x: int) returns (ok: bool)
    requires channels > 0 && forall i :: 0 <= i < |lens| ==> lens[i] >= 0
    ensures ok <==> Fits(lens, x) && (x > 0 ==> x <= MAX_CROSSFADE_BYTES / (channels * 4))
  {
    if x == 0 {
      return true;
    }
    if x < 0 {
      return false;
    }
    if x > MAX_CROSSFADE_BYTES / (channels * 4) {
      return false;
    }
    for i := 0 to |lens|
      invariant forall j :: 0 <= j < i ==> HeadOf(j, x) + TailOf(|lens|, j, x) <= lens[j]
    {
      var need := 0;
      if i > 0 {
        need := need + x;
      }
      if i < |lens| - 1 {
        need := need + x;
      }
      assert need == HeadOf(i, x) + TailOf(|lens|, i, x);
      if need > lens[i] {
        return false;
      }
    }
    return true;
  }

  /** The part of concatLayout positions come from: where each member starts, and the length of the whole. */
  method ConcatLayout(lens: seq<int>, channels: int, x: int) returns (ok: bool, starts: seq<int>, total: int)
    requires |lens| > 0 && channels > 0 && forall i :: 0 <= i < |lens| ==> lens[i] >= 0
    ensures ok <==> Fits(lens, x) && (x > 0 ==> x <= MAX_CROSSFADE_BYTES / (channels * 4))
    ensures ok ==> |starts| == |lens| + 1 && forall i :: 0 <= i <= |lens| ==> starts[i] == Starts(lens, x, i)
    ensures ok ==> total == starts[|lens|] == Total(lens) - (|lens| - 1) * x
  {
    starts, total := [0], 0;
    for i := 0 to |lens|
      invariant |starts| == i + 1 && forall j :: 0 <= j <= i ==> starts[j] == Starts(lens, x, j)
      invariant total == Total(lens[..i])
    {
      total := total + lens[i];
      assert lens[..i + 1][..i] == lens[..i];
      var tail := 0;
      if i < |lens| - 1 {
        tail := x;
      }
      starts := starts + [starts[i] + lens[i] - tail];
    }
    ok := CheckCrossfade(lens, channels, x);
    total := total - (|lens| - 1) * x;
    assert lens[..|lens|] == lens;
    StartsTotal(lens, x, |lens|);
  }

  /** A timeline of members that need no conversion. What a member holds and what its headers declare are separate: the
      run holds each to its declaration. */
  class Concat<T(0)> {
    const tape: Joined<T>
    const lens: seq<int>
    const starts: seq<int>
    /** Every member's container lands a seek exactly where it is asked to. */
    const exact: bool

    /** The open member, its media's position, and the member's own position. */
    var cur: nat
    var isOpen: bool
    var at: nat
    var local: int

    var pos: int
    var discont: bool
    var blend: seq<T>
    var blending: bool
    var blendOff: nat
    var unpositioned: bool

    /** How often a member has failed: to open, to close, to be read or to be sought. */
    ghost var faults: nat

    /** Every member holds what it declared. */
    ghost predicate Sound() { tape.Lens() == lens }

    ghost predicate Shaped()
      reads `cur, `isOpen, `at, `blend, `blending, `blendOff
    {
      && |lens| == tape.N() && |starts| == |lens| + 1 && Fits(lens, tape.x)
      && (forall i :: 0 <= i <= |lens| ==> starts[i] == Starts(lens, tape.x, i))
      && cur <= tape.N() && (isOpen ==> cur < tape.N() && at <= |tape.members[cur]|)
      && (blending ==> blendOff < |blend| == tape.x)
    }

    /** Between calls the media stands where the member's position says. */
    ghost predicate Valid()
      reads `cur, `isOpen, `at, `local, `blend, `blending, `blendOff
    {
      Shaped() && (isOpen ==> at == local)
    }

    /** The state a continuous read or a good seek leaves. */
    ghost predicate Placed()
      requires Shaped()
      reads `cur, `isOpen, `at, `local, `blend, `blending, `blendOff
    {
      Sound() && tape.Stands(cur, local, isOpen, blending, blendOff, blend)
    }

    /** What a read from here delivers, to the end. */
    ghost function Remaining(): seq<T>
      requires Shaped() && Placed()
      reads `cur, `isOpen, `at, `local, `blend, `blending, `blendOff
    {
      tape.Ahead(cur, local)
    }

    /** The timeline as a whole. */
    ghost function Whole(): seq<T>
      requires |lens| == tape.N() && Fits(lens, tape.x) && Sound()
    {
      tape.Rest(0)
    }

    constructor (tape: Joined<T>, lens: seq<int>, starts: seq<int>, exact: bool)
      requires |lens| == tape.N() > 0 && |starts| == |lens| + 1 && Fits(lens, tape.x)
      requires forall i :: 0 <= i <= |lens| ==> starts[i] == Starts(lens, tape.x, i)
      ensures Valid() && this.tape == tape && this.lens == lens && !unpositioned && pos == 0 && !discont
      ensures this.exact == exact && (Sound() ==> Placed() && Remaining() == Whole())
    {
      this.tape, this.lens, this.starts, this.exact := tape, lens, starts, exact;
      cur, isOpen, at, local := 0, false, 0, 0;
      pos, discont, blend, blending, blendOff, unpositioned := 0, false, [], false, 0, false;
      faults := 0;
      new;
      if Sound() {
        assert tape.Part(0)[0..] == tape.Part(0);
      }
    }

    /** Opens member i; a member that will not open fails. */
    method OpenMember(i: nat) returns (ok: bool)
      requires Valid() && i < tape.N()
      modifies `cur, `isOpen, `at, `local, `faults
      ensures Valid()
      ensures ok ==> cur == i && isOpen && local == 0
      ensures ok && i == old(cur) && !old(isOpen) && old(Placed()) ==> Placed() && Remaining() == old(Remaining())
      ensures !ok ==> cur == old(cur) && isOpen == old(isOpen) && at == old(at) && local == old(local)
      ensures faults >= old(faults) && (!ok ==> faults > old(faults))
    {
      ok := *;
      if ok {
        cur, isOpen, at, local := i, true, 0, 0;
      } else {
        faults := faults + 1;
      }
    }

    /** The open member's next frames, as many as it likes up to `cap`. */
    method ReadMember(cap: nat) returns (c: Chunk<T>)
      requires Valid() && isOpen && cap > 0
      modifies `at, `faults
      ensures c.End? ==> at == old(at) == |tape.members[cur]|
      ensures c.Frames? ==>
          old(at) < at <= |tape.members[cur]| && at <= old(at) + cap && c.s == tape.members[cur][old(at)..at]
      ensures c.Failed? ==> at == old(at)
      ensures faults >= old(faults) && (c.Failed? ==> faults > old(faults))
    {
      var failed: bool := *;
      if failed {
        faults := faults + 1;
        return Failed;
      }
      var m := tape.members[cur];
      if at == |m| {
        return End;
      }
      var n: nat :| 1 <= n <= cap && at + n <= |m|;
      c := Frames(m[at..at + n]);
      at := at + n;
    }

    function TailLen(i: nat): int {
      if i + 1 >= tape.N() then 0 else tape.x
    }

    /** The bound on what is read next: to the end of a zone or to where one begins, -1 when neither is ahead. */
    method Bound() returns (n: int)
      requires Valid() && cur < tape.N()
      ensures n == if blending then tape.x - blendOff else if TailLen(cur) == 0 then -1
          else lens[cur] - TailLen(cur) - local
    {
      if blending {
        return |blend| - blendOff;
      }
      var tail := TailLen(cur);
      if tail == 0 {
        return -1;
      }
      return lens[cur] - tail - local;
    }

    /** Reads the open member, held to n frames when that is fewer than the buffer takes. */
    method ReadBounded(cap: nat, n: int) returns (c: Chunk<T>)
      requires Valid() && isOpen && cap > 0 && n != 0
      modifies `at, `faults
      ensures c.End? ==> at == old(at) == |tape.members[cur]|
      ensures c.Frames? ==>
          old(at) < at <= |tape.members[cur]| && c.s == tape.members[cur][old(at)..at] && at <= old(at) + cap
      ensures c.Frames? && n > 0 ==> at <= old(at) + n
      ensures c.Failed? ==> at == old(at)
      ensures faults >= old(faults) && (c.Failed? ==> faults > old(faults))
    {
      if n < 0 || n >= cap {
        c := ReadMember(cap);
      } else {
        c := ReadMember(n);
      }
    }

    /** Moves the member's position on, and holds it to the declared length. */
    method Count(n: nat) returns (ok: bool)
      requires cur < |lens|
      modifies `local
      ensures local == old(local) + n && (ok <==> local <= lens[cur])
    {
      local := local + n;
      ok := local <= lens[cur];
    }

    /** Closes a member that ended where it declared, and moves to the next unless the close fails. */
    method AdvanceMember() returns (ok: bool)
      requires Valid() && cur < tape.N() && isOpen
      modifies `cur, `isOpen, `local, `faults
      ensures Valid() && (old(local) != lens[old(cur)] ==> !ok)
      ensures ok ==> cur == old(cur) + 1 && !isOpen && local == 0
      ensures ok && old(Placed()) ==> Placed() && Remaining() == old(Remaining())
      ensures !ok ==> cur == old(cur) && local == old(local) && (isOpen <==> local != lens[cur])
      ensures faults >= old(faults) && (!ok ==> faults > old(faults) || local != lens[cur])
    {
      if local != lens[cur] {
        return false;
      }
      if Placed() {
        MemberSpent();
      }
      ok := CloseMember();
      if ok {
        cur, local := cur + 1, 0;
      }
    }

    /** A member read to its declared end: the timeline goes on with the next one. */
    lemma MemberSpent()
      requires Valid() && cur < tape.N() && isOpen && local == lens[cur] && Placed()
      ensures tape.Ahead(cur, local) == tape.Ahead(cur + 1, 0) && !blending &&
          tape.Stands(cur + 1, 0, false, false, 0, [])
    {
      assert tape.Lens()[cur] == |tape.members[cur]|;
      assert tape.Tail(cur) == 0;
      tape.AheadSpent(cur, local);
      NextBegins(cur + 1);
    }

    lemma NextBegins(i: nat)
      requires tape.Ok() && 0 < i <= tape.N() && tape.Tail(i - 1) == 0
      ensures tape.Stands(i, 0, false, false, 0, [])
    {
      tape.MemberBegins(i);
    }

    /** Reads the open member to its end, holding it to the declared length. */
    method ReadTail(x: nat) returns (ok: bool, tail: seq<T>)
      requires Valid() && isOpen && !blending && local == lens[cur] - x
      modifies `at, `local, `faults
      ensures Valid() && isOpen && (ok ==> at == |tape.members[cur]| && old(at) <= at && local <= lens[cur])
      ensures ok ==> tail == tape.members[cur][old(at)..]
      ensures faults >= old(faults) && (!ok ==> faults > old(faults) || !Sound())
    {
      tail := [];
      while true
        invariant Valid() && isOpen && old(at) <= at && local <= lens[cur]
        invariant tail == tape.members[cur][old(at)..at] && |tail| <= x && faults >= old(faults)
        decreases |tape.members[cur]| - at
      {
        var c := ReadMember(STANDARD_CHUNK);
        if c.End? {
          return true, tail;
        }
        if c.Failed? {
          return false, [];
        }
        var counted := Count(|c.s|);
        if !counted {
          return false, [];
        }
        tail := tail + c.s;
      }
    }

    /** Reads the open member's tail zone to its end into the blend the next member starts under. */
    method CaptureTail() returns (ok: bool)
      requires Valid() && cur + 1 < tape.N() && isOpen && !blending && tape.x > 0
      modifies `at, `local, `cur, `isOpen, `blend, `blending, `blendOff, `faults
      ensures Valid() && (!ok ==> cur == old(cur))
      ensures ok ==> cur == old(cur) + 1 && blending && !isOpen && local == 0 && blendOff == 0
      ensures ok ==>
          |tape.members[old(cur)]| == lens[old(cur)] && blend == tape.members[old(cur)][lens[old(cur)] - tape.x..]
      ensures ok && old(Placed()) ==> Placed() && Remaining() == old(Remaining())
      ensures faults >= old(faults)
      ensures !ok ==> faults > old(faults) || !Sound() || old(local) != lens[cur] - tape.x
    {
      var x := TailLen(cur);
      if local != lens[cur] - x {
        return false;
      }
      if Placed() {
        ZoneAhead(cur + 1);
      }
      ok := ReadZone(x, cur, at);
    }

    /** The zone of the member that ends here, from its first frame. */
    method ReadZone(x: nat, ghost i: nat, ghost zone: nat) returns (ok: bool)
      requires Valid() && i == cur && cur + 1 < tape.N() && isOpen && !blending && x == tape.x > 0
      requires at == zone == lens[cur] - x
      modifies `at, `local, `cur, `isOpen, `blend, `blending, `blendOff, `faults
      ensures Valid() && (!ok ==> cur == i)
      ensures ok ==> cur == i + 1 && blending && !isOpen && local == 0 && blendOff == 0
      ensures ok ==> |tape.members[i]| == lens[i] && blend == tape.members[i][zone..]
      ensures ok && Sound() ==> Placed() && Remaining() == tape.Ahead(cur, 0)
      ensures faults >= old(faults) && (!ok ==> faults > old(faults) || !Sound())
    {
      var tail;
      ok, tail := ReadTail(x);
      if ok {
        ok := HandOver(tail, zone);
      }
    }

    lemma ZoneAhead(next: nat)
      requires Shaped() && Placed() && next == cur + 1 < tape.N() && local == lens[cur] - TailLen(cur)
      ensures 0 <= |tape.members[next]| - tape.Tail(next) && Remaining() == tape.Ahead(next, 0)
    {
      assert tape.Lens()[cur] == |tape.members[cur]|;
      tape.AheadSpent(cur, local);
    }

    /** Ends the member whose tail was captured, and publishes the tail as its successor's blend. */
    method HandOver(tail: seq<T>, ghost zone: nat) returns (ok: bool)
      requires Valid() && cur + 1 < tape.N() && isOpen && !blending && tape.x > 0
      requires (local == lens[cur] ==> |tail| == tape.x) && zone == lens[cur] - tape.x
      modifies `cur, `isOpen, `local, `blend, `blending, `blendOff, `faults
      ensures Valid() && (old(local) != lens[old(cur)] ==> !ok) && (!ok ==> cur == old(cur))
      ensures ok ==> cur == old(cur) + 1 && blending && !isOpen && local == 0 && blendOff == 0 && blend == tail
      ensures ok && Sound() && zone <= |tape.members[old(cur)]| && tail == tape.members[old(cur)][zone..] ==>
        Placed() && Remaining() == tape.Ahead(cur, 0)
      ensures faults >= old(faults) && (!ok ==> faults > old(faults) || old(local) != lens[cur])
    {
      ok := AdvanceMember();
      if ok {
        blend, blending, blendOff := tail, true, 0;
        if Sound() && zone <= |tape.members[cur - 1]| && tail == tape.members[cur - 1][zone..] {
          ZoneStands(cur, zone);
        }
      }
    }

    /** The state a captured zone leaves. */
    lemma ZoneStands(i: nat, zone: nat)
      requires Sound() && tape.Ok() && |lens| == tape.N() && 0 < i < tape.N() && zone == lens[i - 1] - tape.x
      requires zone <= |tape.members[i - 1]| && blend == tape.members[i - 1][zone..]
      ensures tape.Stands(i, 0, false, true, 0, blend)
    {
      assert tape.Lens()[i - 1] == |tape.members[i - 1]|;
      tape.ZoneBegins(i, blend);
    }

    /** Mixes the captured tail into the incoming member's frames, and retires it when it is spent. */
    method MixBlend(s: seq<T>) returns (mixed: seq<T>)
      requires Valid() && blending && blendOff + |s| <= tape.x
      modifies `blend, `blending, `blendOff
      ensures |mixed| == |s|
      ensures forall k :: 0 <= k < |s| ==>
          mixed[k] == tape.curve(old(blendOff) + k, old(blend)[old(blendOff) + k], s[k])
      ensures blending == (old(blendOff) + |s| < tape.x)
      ensures blending ==> blend == old(blend) && blendOff == old(blendOff) + |s|
    {
      mixed := [];
      for k := 0 to |s|
        invariant |mixed| == k
        invariant forall j :: 0 <= j < k ==> mixed[j] == tape.curve(blendOff + j, blend[blendOff + j], s[j])
      {
        mixed := mixed + [tape.curve(blendOff + k, blend[blendOff + k], s[k])];
      }
      blendOff := blendOff + |s|;
      if blendOff >= |blend| {
        ReleaseBlend();
      }
    }

    method ReleaseBlend()
      modifies `blend, `blending, `blendOff
      ensures !blending && blendOff == 0
    {
      blend, blending, blendOff := [], false, 0;
    }

    // ----- One read -----

    /** Counts the frames a read took, and mixes them when they are a zone's. */
    method Deliver(raw: seq<T>) returns (c: Chunk<T>)
      requires Shaped() && isOpen && |raw| > 0 && at == local + |raw| && 0 <= local &&
          raw == tape.members[cur][local..at]
      requires blending ==> blendOff + |raw| <= tape.x
      requires Placed() && !blending && tape.Tail(cur) > 0 ==> at <= lens[cur] - tape.Tail(cur)
      modifies `local, `blend, `blending, `blendOff
      ensures Valid() && !c.End? && (c.Frames? ==> |c.s| == |raw|) && (c.Failed? ==> !Sound())
      ensures old(Placed()) && c.Frames? ==> Placed() && c.s + Remaining() == old(Remaining())
    {
      ghost var i, from, placed, tail := cur, local, Placed(), blend;
      assert Sound() ==> tape.Lens()[i] == |tape.members[i]| == lens[i];
      var counted := Count(|raw|);
      if !counted {
        return Failed;
      }
      c := Frames(raw);
      if blending {
        var mixed := MixBlend(raw);
        c := Frames(mixed);
        if placed {
          tape.ZoneFrames(i, from, local, tail, mixed);
        }
      } else if placed {
        tape.OwnFrames(i, from, local);
      }
    }

    /** One pass of fill over the open member: its tail zone captured, its end passed, or its next frames. */
    method Pass(cap: nat) returns (c: Chunk<T>, again: bool)
      requires Valid() && cap > 0 && cur < tape.N() && isOpen
      modifies `cur, `isOpen, `at, `local, `blend, `blending, `blendOff, `faults
      ensures Valid() && (again ==> cur == old(cur) + 1 && |tape.members[old(cur)]| == lens[old(cur)])
      ensures !again ==> !c.End? && cur == old(cur) && (c.Frames? ==> 0 < |c.s| <= cap)
      ensures old(Placed()) && again ==> Placed() && Remaining() == old(Remaining())
      ensures old(Placed()) && !again && c.Frames? ==> Placed() && c.s + Remaining() == old(Remaining())
      ensures faults >= old(faults) && (!again && c.Failed? ==> faults > old(faults) || !Sound())
    {
      var n := Bound();
      if n == 0 {
        again := CaptureTail();
        c := Failed;
      } else {
        c := ReadBounded(cap, n);
        if c.End? {
          again := AdvanceMember();
          c := Failed;
        } else {
          again := false;
          if c.Frames? {
            c := Deliver(c.s);
          }
        }
      }
    }

    /** fill: the timeline's next frames, opening members, capturing tails and mixing zones on the way. */
    method Fill(cap: nat) returns (c: Chunk<T>)
      requires Valid() && cap > 0
      modifies `cur, `isOpen, `at, `local, `blend, `blending, `blendOff, `faults
      ensures Valid() && (c.Frames? ==> 0 < |c.s| <= cap)
      ensures old(Placed()) && c.Frames? ==> Placed() && c.s + Remaining() == old(Remaining())
      ensures old(Placed()) && c.End? ==> Placed() && old(Remaining()) == [] && Remaining() == []
      ensures c.End? ==> forall j :: old(cur) <= j < tape.N() ==> |tape.members[j]| == lens[j]
      ensures faults >= old(faults) && (c.Failed? ==> faults > old(faults) || !Sound())
    {
      while cur < tape.N()
        invariant Valid() && old(cur) <= cur
        invariant old(Placed()) ==> Placed() && Remaining() == old(Remaining())
        invariant forall j :: old(cur) <= j < cur ==> |tape.members[j]| == lens[j]
        invariant faults >= old(faults)
        decreases tape.N() - cur
      {
        if !isOpen {
          var ok := OpenMember(cur);
          if !ok {
            return Failed;
          }
        }
        var again;
        c, again := Pass(cap);
        if !again {
          return;
        }
      }
      c := End;
    }

    // ----- Positions -----

    /** The stream stands at `pos`: a read from here delivers the whole timeline from there. */
    ghost predicate Ready()
      requires Valid()
      reads `cur, `isOpen, `at, `local, `blend, `blending, `blendOff, `pos, `unpositioned
    {
      Placed() && !unpositioned && 0 <= pos <= |Whole()| && Remaining() == Whole()[pos..]
    }

    /** ReadChunk: one chunk, stamped. A read after a failed seek is refused. */
    method ReadChunk(cap: nat) returns (r: Stamped<T>)
      requires Valid()
      modifies `cur, `isOpen, `at, `local, `blend, `blending, `blendOff, `pos, `discont, `faults
      ensures Valid()
      ensures (unpositioned || cap == 0 ==> r.Error?) && (!r.Stamped? ==> pos == old(pos))
      ensures r.Stamped? ==>
          0 < |r.s| <= cap && r.pos == old(pos) && r.discont == old(discont) && !discont && pos == old(pos) + |r.s|
      ensures old(Ready()) && r.Stamped? ==> Ready() && r.s == Whole()[old(pos)..pos]
      ensures old(Ready()) && r.Eof? ==> Ready() && old(pos) == pos == |Whole()|
      ensures r.Eof? ==> forall j :: old(cur) <= j < tape.N() ==> |tape.members[j]| == lens[j]
      ensures faults >= old(faults)
      ensures r.Error? ==> unpositioned || cap == 0 || faults > old(faults) || !Sound()
    {
      if unpositioned || cap == 0 {
        return Error;
      }
      ghost var ready, from := Ready(), pos;
      var c := Fill(cap);
      if c.End? {
        if ready {
          assert Whole()[from..] == [];
        }
        return Eof;
      }
      if c.Failed? {
        return Error;
      }
      r := Stamped(c.s, pos, discont);
      discont := false;
      pos := pos + |c.s|;
      if ready {
        StillReady(from, c.s);
      }
    }

    lemma StillReady(from: int, s: seq<T>)
      requires Valid() && Placed() && !unpositioned && 0 <= from <= |Whole()| && Whole()[from..] == s + Remaining()
      requires pos == from + |s|
      ensures Ready() && s == Whole()[from..pos]
    {
      NextFrames(Whole(), from, s, Remaining(), pos);
    }

    static lemma NextFrames(whole: seq<T>, from: int, s: seq<T>, rest: seq<T>, on: int)
      requires 0 <= from <= |whole| && whole[from..] == s + rest && on == from + |s|
      ensures on <= |whole| && s == whole[from..on] && rest == whole[on..]
    {
      assert whole[from..][..|s|] == s && whole[from..][|s|..] == rest;
    }

    // ----- Seeks -----

    /** Positions the open member: at the target, at its end when that comes first, or - unless its container seeks
        exactly - at a first sync point past the target. */
    method SeekMember(target: int) returns (ok: bool, landed: nat)
      requires Valid() && isOpen && target >= 0
      modifies `at, `faults
      ensures ok ==> at == landed <= |tape.members[cur]|
      ensures ok ==> landed == Min(target, |tape.members[cur]|) || (!exact && target < landed)
      ensures at <= |tape.members[cur]|
      ensures faults >= old(faults) && (!ok ==> faults > old(faults))
    {
      ok := *;
      landed := 0;
      if !ok {
        faults := faults + 1;
        return;
      }
      var size := |tape.members[cur]|;
      landed := Min(target, size);
      if !exact && landed < size {
        landed :| Min(target, size) <= landed <= size;
      }
      at := landed;
    }

    /** Positions the open member within its own part. */
    method SeekBody(target: int) returns (ok: bool, landed: nat)
      requires Valid() && isOpen && 0 <= target <= lens[cur] - TailLen(cur)
      modifies `at, `faults
      ensures ok ==> at == landed <= |tape.members[cur]| && landed <= lens[cur] - TailLen(cur)
      ensures ok && |tape.members[cur]| == lens[cur] ==> target <= landed && (exact ==> landed == target)
      ensures at <= |tape.members[cur]|
      ensures faults >= old(faults)
      ensures !ok ==> faults > old(faults) || !exact || |tape.members[cur]| != lens[cur]
    {
      ok, landed := SeekMember(target);
      if ok && landed > lens[cur] - TailLen(cur) {
        ok := false;
      }
    }

    method CloseMember() returns (ok: bool)
      modifies `isOpen, `faults
      ensures !isOpen
      ensures faults >= old(faults) && (!ok ==> faults > old(faults))
    {
      isOpen := false;
      ok := *;
      faults := if ok then faults else faults + 1;
    }

    /** The member holding a timeline sample, by binary search: the first one to end its own part past it. */
    method MemberAt(target: int) returns (i: nat)
      requires Valid() && 0 <= target < starts[tape.N()]
      ensures i < tape.N() && starts[i] <= target < starts[i + 1]
    {
      var lo: nat, hi: nat := 0, tape.N();
      while lo < hi
        invariant 0 <= lo <= hi <= tape.N()
        invariant lo > 0 ==> starts[lo] <= target
        invariant hi < tape.N() ==> target < starts[hi + 1]
      {
        var mid := (lo + hi) / 2;
        if target < starts[mid + 1] {
          hi := mid;
        } else {
          lo := mid + 1;
        }
      }
      i := lo;
    }

    /** Where seeking member i to frame k of its own part leaves the stream. */
    lemma StandsAt(i: nat, k: int, t: int)
      requires Shaped() && Sound() && i < tape.N() && tape.Head(i) <= k <= lens[i] - tape.Tail(i) && t == starts[i] + k
      ensures 0 <= starts[i] <= starts[i] + k <= |Whole()| && k <= |tape.members[i]| - tape.Tail(i)
      ensures tape.Ahead(i, k) == Whole()[t..]
    {
      assert tape.Lens()[i] == |tape.members[i]|;
      StartsAscend(lens, tape.x, 0, i);
      tape.RestFrom(i, k, t);
    }

    /** Opens member i afresh, whatever was open before. */
    method Reopen(i: nat) returns (ok: bool)
      requires Valid() && i < tape.N()
      modifies `cur, `isOpen, `at, `local, `faults
      ensures Valid() && (ok ==> cur == i && isOpen && local == 0)
      ensures faults >= old(faults) && (!ok ==> faults > old(faults))
    {
      ok := CloseMember();
      if ok {
        ok := OpenMember(i);
      }
    }

    /** A target in a member's own body. */
    method SeekIntoBody(i: nat, off: int) returns (ok: bool)
      requires Valid() && !blending && i < tape.N() && tape.Head(i) <= off <= lens[i] - tape.Tail(i)
      modifies `cur, `isOpen, `at, `local, `pos, `discont, `faults
      ensures Shaped()
      ensures ok ==>
          Valid() && discont && cur == i && isOpen && pos == starts[i] + local && local <= lens[i] - tape.Tail(i)
      ensures ok && Sound() ==> off <= local && (exact ==> local == off)
      ensures faults >= old(faults) && (!ok ==> faults > old(faults) || !exact || !Sound())
    {
      ok := true;
      if !isOpen || cur != i {
        ok := Reopen(i);
        if !ok {
          return;
        }
      }
      var landed;
      ok, landed := SeekBody(off);
      if !ok {
        return;
      }
      local := landed;
      pos, discont := starts[i] + landed, true;
      assert Sound() ==> tape.Lens()[i] == |tape.members[i]|;
    }

    /** A member positioned in its own body stands on the timeline where its start and its position put it. */
    lemma BodyStands()
      requires Valid() && Sound() && cur < tape.N() && isOpen && !blending && pos == starts[cur] + local
      requires tape.Head(cur) <= local <= lens[cur] - tape.Tail(cur)
      ensures Placed() && 0 <= pos <= |Whole()| && Remaining() == Whole()[pos..]
    {
      StandsAt(cur, local, pos);
    }

    /** Reads n frames and hands none of them on. */
    method PreRoll(n: nat, ghost placed: bool, ghost all: seq<T>) returns (ok: bool)
      requires Valid() && (placed ==> Placed() && Remaining() == all)
      modifies `cur, `isOpen, `at, `local, `blend, `blending, `blendOff, `faults
      ensures Valid()
      ensures ok && placed ==> n <= |all| && Placed() && Remaining() == all[n..]
      ensures faults >= old(faults)
      ensures !ok ==> faults > old(faults) || !Sound() || !placed || n > |all|
    {
      var left := n;
      ghost var done := 0;
      while left > 0
        invariant Valid() && 0 <= left <= n && done == n - left && faults >= old(faults)
        invariant placed ==> Placed() && done <= |all| && Remaining() == all[done..]
      {
        var c := Fill(Min(left, STANDARD_CHUNK));
        if !c.Frames? {
          return false;
        }
        ghost var on := done + |c.s|;
        if placed {
          NextFrames(all, done, c.s, Remaining(), on);
        }
        left, done := left - |c.s|, on;
      }
      ok := true;
    }

    /** Opens the member before i at its tail zone and captures it, so that the stream stands at member i's start. */
    method SeekToZone(i: nat) returns (ok: bool)
      requires Valid() && !blending && 0 < i < tape.N() && tape.x > 0
      modifies `cur, `isOpen, `at, `local, `blend, `blending, `blendOff, `faults
      ensures Shaped() && (ok ==> Valid())
      ensures ok && Sound() ==> Placed() && 0 <= starts[i] <= |Whole()| && Remaining() == Whole()[starts[i]..]
      ensures faults >= old(faults) && (!ok ==> faults > old(faults) || !exact || !Sound())
    {
      ok := Reopen(i - 1);
      if !ok {
        return;
      }
      var landed;
      ok, landed := SeekBody(lens[i - 1] - tape.x);
      if !ok {
        return;
      }
      local := landed;
      ok := CaptureTail();
      if ok {
        ZoneStart(i);
      }
    }

    /** A zone just captured is the timeline from its member's start. */
    lemma ZoneStart(i: nat)
      requires Valid() && 0 < i == cur < tape.N() && !isOpen && blending && local == 0 && blendOff == 0 && tape.x > 0
      requires |tape.members[i - 1]| == lens[i - 1] && blend == tape.members[i - 1][lens[i - 1] - tape.x..]
      ensures Sound() ==> Placed() && 0 <= starts[i] <= |Whole()| && Remaining() == Whole()[starts[i]..]
    {
      if Sound() {
        tape.ZoneBegins(i, blend);
        assert tape.Lens()[i] == |tape.members[i]|;
        StartsAscend(lens, tape.x, 0, i);
        tape.RestFrom(i, 0, starts[i]);
      }
    }

    /** A target inside member i's head zone: the zone is captured exactly as a continuous read captures it, and its
        first frames are dropped. */
    method SeekIntoBlend(i: nat, off: nat) returns (ok: bool)
      requires Valid() && !blending && 0 < i < tape.N() && off < tape.x
      modifies `cur, `isOpen, `at, `local, `pos, `discont, `blend, `blending, `blendOff, `faults
      ensures Shaped() && (ok ==> Valid() && pos == starts[i] + off && discont)
      ensures ok && Sound() ==> Placed() && 0 <= pos <= |Whole()| && Remaining() == Whole()[pos..]
      ensures faults >= old(faults) && (!ok ==> faults > old(faults) || !exact || !Sound())
    {
      ok := SeekToZone(i);
      if !ok {
        return;
      }
      ghost var start := starts[i];
      ZoneFits(i, start);
      ok := PreRoll(off, Sound(), if Sound() then Whole()[start..] else []);
      if !ok {
        return;
      }
      pos, discont := starts[i] + off, true;
      if Sound() {
        Deeper(Whole(), start, off, pos);
      }
    }

    /** A whole zone lies ahead of the start of a member that has one. */
    lemma ZoneFits(i: nat, start: int)
      requires Shaped() && 0 < i < tape.N() && start == starts[i]
      ensures Sound() ==> 0 <= start <= |Whole()| && tape.x <= |Whole()| - start
    {
      if Sound() {
        assert tape.Lens()[i] == |tape.members[i]|;
        tape.RestFrom(i, 0, start);
        assert Whole()[start..] == tape.Part(i) + tape.Rest(i + 1);
      }
    }

    static lemma Deeper(whole: seq<T>, start: int, off: nat, pos: int)
      requires 0 <= start <= |whole| && off <= |whole[start..]| && pos == start + off
      ensures pos <= |whole| && whole[start..][off..] == whole[pos..]
    {
    }

    /** The body of SeekSample. */
    method SeekTo(target: nat) returns (ok: bool)
      requires Valid()
      modifies `cur, `isOpen, `at, `local, `pos, `discont, `blend, `blending, `blendOff, `faults
      ensures Shaped() && (ok ==> Valid() && discont)
      ensures ok && Sound() ==> Placed() && 0 <= pos <= |Whole()| && Remaining() == Whole()[pos..]
      ensures ok && Sound() ==> Min(target, |Whole()|) <= pos && (exact ==> pos == Min(target, |Whole()|))
      ensures faults >= old(faults) && (!ok ==> faults > old(faults) || !exact || !Sound())
    {
      ReleaseBlend();
      WholeLength();
      var total := starts[tape.N()];
      if target >= total {
        ok := CloseMember();
        if ok {
          cur, local, pos, discont := tape.N(), 0, total, true;
        }
        return;
      }
      ok := SeekInside(target);
    }

    /** A target before the end, in a member's head zone or in its body. */
    method SeekInside(target: nat) returns (ok: bool)
      requires Valid() && !blending && target < starts[tape.N()] && (Sound() ==> |Whole()| == starts[tape.N()])
      modifies `cur, `isOpen, `at, `local, `pos, `discont, `blend, `blending, `blendOff, `faults
      ensures Shaped() && (ok ==> Valid() && discont)
      ensures ok && Sound() ==> Placed() && 0 <= pos <= |Whole()| && Remaining() == Whole()[pos..]
      ensures ok && Sound() ==> Min(target, |Whole()|) <= pos && (exact ==> pos == Min(target, |Whole()|))
      ensures faults >= old(faults) && (!ok ==> faults > old(faults) || !exact || !Sound())
    {
      var i := MemberAt(target);
      var off := target - starts[i];
      if i > 0 && off < tape.x {
        ok := SeekIntoBlend(i, off);
        return;
      }
      ok := SeekIntoBody(i, off);
      if ok && Sound() {
        BodyStands();
      }
    }

    lemma WholeLength()
      requires Shaped()
      ensures Sound() ==> |Whole()| == starts[tape.N()]
    {
      if Sound() {
        tape.RestLength(0);
      }
    }

    /** SeekSample: a failed seek latches, whatever it had already moved. */
    method SeekSample(target: int) returns (ok: bool)
      requires Valid()
      modifies `cur, `isOpen, `at, `local, `pos, `discont, `blend, `blending, `blendOff, `unpositioned, `faults
      ensures Valid()
      ensures target < 0 ==> !ok && unpositioned == old(unpositioned)
      ensures target >= 0 ==> unpositioned == !ok
      ensures ok ==> discont
      ensures ok && Sound() ==> Ready() && Min(target, |Whole()|) <= pos && (exact ==> pos == Min(target, |Whole()|))
      ensures target >= 0 && !ok ==> faults > old(faults) || !exact || !Sound()
    {
      if target < 0 {
        return false;
      }
      ok := SeekTo(target);
      if !ok {
        var closed := CloseMember();
        ReleaseBlend();
        unpositioned := true;
        return;
      }
      unpositioned := false;
    }

    // ----- Whole runs -----

    /** Any reader at all: reads to the end with whatever capacities it likes. What it gets, joined, is the timeline
        from where it stood, chunk by chunk at contiguous positions, and only its first chunk can be marked
        discontinuous. */
    method ReadAll() returns (done: bool, chunks: seq<Stamped<T>>)
      requires Valid() && Sound() && Ready()
      modifies `cur, `isOpen, `at, `local, `blend, `blending, `blendOff, `pos, `discont, `faults
      ensures Valid() && Reads(chunks, Whole(), old(pos), pos, old(discont))
      ensures done ==> Ready() && pos == |Whole()|
      ensures !done ==> faults > old(faults)
    {
      chunks := [];
      ghost var whole, from, first := Whole(), pos, discont;
      while true
        invariant Valid() && Ready() && whole == Whole()
        invariant Reads(chunks, whole, from, pos, first) && discont == (|chunks| == 0 && first)
        invariant faults >= old(faults)
        decreases |whole| - pos
      {
        var cap: nat :| cap > 0;
        ghost var was := pos;
        var r := ReadNext(cap, whole);
        if !r.Stamped? {
          return r.Eof?, chunks;
        }
        OneMore(chunks, r, whole, from, was, first, pos);
        chunks := chunks + [r];
      }
    }

    /** A read of a stream that stands somewhere, said on the whole timeline. */
    method ReadNext(cap: nat, ghost whole: seq<T>) returns (r: Stamped<T>)
      requires Valid() && Sound() && Ready() && cap > 0 && whole == Whole()
      modifies `cur, `isOpen, `at, `local, `blend, `blending, `blendOff, `pos, `discont, `faults
      ensures Valid() && (!r.Error? ==> Ready())
      ensures r.Stamped? ==> |r.s| > 0 && r.pos == old(pos) && r.discont == old(discont) && !discont
      ensures r.Stamped? ==> pos == old(pos) + |r.s| <= |whole| && r.s == whole[old(pos)..pos]
      ensures !r.Stamped? ==> pos == old(pos)
      ensures r.Eof? ==> pos == |whole|
      ensures faults >= old(faults) && (r.Error? ==> faults > old(faults))
    {
      r := ReadChunk(cap);
    }
  }

  // ----- Runs of chunks -----

  ghost function Samples<T>(chunks: seq<Stamped<T>>): seq<T> {
    if |chunks| == 0 then []
    else Samples(chunks[..|chunks| - 1]) + if chunks[|chunks| - 1].Stamped? then chunks[|chunks| - 1].s else []
  }

  /** The chunks deliver whole[from..upTo]: each starts where the ones before it end, none after the first is marked
      discontinuous, and none is empty. */
  ghost predicate Reads<T>(chunks: seq<Stamped<T>>, whole: seq<T>, from: int, upTo: int, first: bool) {
    && 0 <= from <= upTo <= |whole| && Samples(chunks) == whole[from..upTo]
    && forall k :: 0 <= k < |chunks| ==>
      && chunks[k].Stamped? && |chunks[k].s| > 0 && chunks[k].pos == from + |Samples(chunks[..k])|
      && chunks[k].discont == (k == 0 && first)
  }

  lemma OneMore<T>(chunks: seq<Stamped<T>>, r: Stamped<T>, whole: seq<T>, from: int, at: int, first: bool, on: int)
    requires Reads(chunks, whole, from, at, first) && r.Stamped? && on == at + |r.s| <= |whole|
    requires |r.s| > 0 && r.pos == at && r.discont == (|chunks| == 0 && first) && r.s == whole[at..on]
    ensures Reads(chunks + [r], whole, from, on, first)
  {
    var all := chunks + [r];
    assert all[..|all| - 1] == chunks;
    assert whole[from..on] == whole[from..at] + r.s;
    forall k | 0 <= k < |all|
      ensures all[k].Stamped? && |all[k].s| > 0 && all[k].pos == from + |Samples(all[..k])| &&
          all[k].discont == (k == 0 && first)
    {
      assert k < |chunks| ==> all[..k] == chunks[..k];
    }
  }
}
