/** A window onto a decoded stream (timeline.go): a seek at the front, a clamp at the back, and a source held to the
    length the window promised. */
module Slice {
  import opened Container
  import opened Timeline

  /** The span's end on the source, TO_END standing for the source's own. */
  function EndOf(total: int, end: int): int { if end == TO_END then total else end }

  /** SpanTrack: the track a span of a decoded stream is, or a refusal. */
  function SpanTrack(track: Track, from: int, end: int): Option<Track> {
    if from < 0 || end < TO_END || (0 <= end < from) ||
        (track.samples >= 0 && (from > track.samples || end > track.samples)) then
      None
    else
      var samples := if end >= 0 then end - from else if track.samples >= 0 then track.samples - from
          else track.samples;
      Some(track.(
        samples := samples, samplesExact := end >= 0 || track.samplesExact,
        samplesAdvisory := end < 0 && track.samplesAdvisory,
        delay := 0, padding := 0, midPadding := 0, midTrims := []))
  }

  /** A span of a span is the composed span of the source. */
  lemma SpansCompose(track: Track, a: int, b: int, c: int, d: int)
    requires SpanTrack(track, a, b).Some? && SpanTrack(SpanTrack(track, a, b).value, c, d).Some?
    ensures SpanTrack(track, a + c, if d == TO_END then b else a + d) == SpanTrack(SpanTrack(track, a, b).value, c, d)
  {
  }

  /** The samples of a stream a window shows: what there is of [from, end). */
  ghost function Window<T>(source: seq<T>, from: int, end: int): seq<T>
    requires 0 <= from && (end == TO_END || from <= end)
  {
    var lo, hi := Min(from, |source|), Min(EndOf(|source|, end), |source|);
    if lo <= hi then source[lo..hi] else []
  }

  /** A span's track is of what its window shows: as many samples as the window has of a source of the declared length,
      exactly so when it is bounded, none of them left to trim. */
  lemma SpanIsWindow<T>(track: Track, from: int, end: int, source: seq<T>)
    requires SpanTrack(track, from, end).Some? && (track.samples >= 0 ==> |source| == track.samples)
    ensures var span, n := SpanTrack(track, from, end).value, |Window(source, from, end)|;
      && span.delay == span.padding == span.midPadding == 0 && span.midTrims == []
      && span.id == track.id && span.codec == track.codec && span.config == track.config
      && (if end == TO_END then
            span.samplesExact == track.samplesExact && span.samplesAdvisory == track.samplesAdvisory
          else span.samplesExact && !span.samplesAdvisory)
      && (track.samples >= 0 ==> span.samples == n)
      && (track.samples < 0 ==> if end == TO_END then span.samples < 0 else n <= span.samples == end - from)
  {
  }

  /** A window onto a window is the composed window. */
  lemma WindowsCompose<T>(source: seq<T>, a: int, b: int, c: int, d: int)
    requires 0 <= a && 0 <= c && (b == TO_END || a <= b <= |source|) && a <= |source|
    requires (d == TO_END || c <= d) && d <= EndOf(|source|, b) - a && c <= EndOf(|source|, b) - a
    ensures Window(Window(source, a, b), c, d) == Window(source, a + c, if d == TO_END then b else a + d)
  {
    var end := EndOf(|source|, b);
    var inner, last := source[a..end], if d == TO_END then end - a else d;
    var lo, hi, outer := a + c, a + last, if d == TO_END then b else a + d;
    assert Window(source, a, b) == inner && |inner| == end - a;
    assert EndOf(|inner|, d) == last && Window(inner, c, d) == inner[c..last];
    assert EndOf(|source|, outer) == hi && Window(source, lo, outer) == source[lo..hi];
    SliceOfSlice(source, a, end, c, last, lo, hi);
  }

  lemma SliceOfSlice<T>(source: seq<T>, a: nat, end: nat, c: nat, last: nat, lo: nat, hi: nat)
    requires a <= end <= |source| && c <= last <= end - a && lo == a + c && hi == a + last
    ensures source[a..end][c..last] == source[lo..hi]
  {
  }

  ghost predicate Ascends(cuts: seq<int>, i: nat) requires i + 1 < |cuts| { 0 <= cuts[i] <= cuts[i + 1] }

  /** Ascending cut points over the whole of a stream. */
  ghost predicate Cuts(cuts: seq<int>, total: int) {
    && |cuts| >= 2 && cuts[0] == 0 && cuts[|cuts| - 1] == total
    && forall i :: 0 <= i < |cuts| - 1 ==> Ascends(cuts, i)
  }

  lemma {:induction false} CutsInside(cuts: seq<int>, total: int, i: nat)
    requires Cuts(cuts, total) && i < |cuts|
    ensures 0 <= cuts[i] <= total
    decreases |cuts| - i
  {
    assert i > 0 ==> Ascends(cuts, i - 1);
    if i < |cuts| - 1 {
      assert Ascends(cuts, i);
      CutsInside(cuts, total, i + 1);
    }
  }

  ghost function Pieces<T>(source: seq<T>, cuts: seq<int>): (r: seq<seq<T>>)
    requires Cuts(cuts, |source|)
    ensures |r| == |cuts| - 1
    ensures forall i {:trigger r[i]} :: 0 <= i < |r| ==>
        Ascends(cuts, i) && r[i] == Window(source, cuts[i], cuts[i + 1])
  {
    seq(|cuts| - 1, i requires 0 <= i < |cuts| - 1 => assert Ascends(cuts, i); Window(source, cuts[i], cuts[i + 1]))
  }

  lemma PieceAt<T>(source: seq<T>, cuts: seq<int>, i: nat, lo: int, hi: int)
    requires Cuts(cuts, |source|) && i < |cuts| - 1 && lo == cuts[i] && hi == cuts[i + 1]
    ensures 0 <= lo <= hi && |Pieces(source, cuts)| == |cuts| - 1 && Pieces(source, cuts)[i] == Window(source, lo, hi)
  {
    assert Ascends(cuts, i);
  }

  /** Cutting a stream at any ascending points and joining the pieces end to end gives the stream back. */
  lemma CutThenJoin<T>(source: seq<T>, cuts: seq<int>, curve: (int, T, T) -> T)
    requires Cuts(cuts, |source|)
    ensures var joined := Joined(Pieces(source, cuts), 0, curve); joined.Ok() && joined.Rest(0) == source
  {
    var joined := Joined(Pieces(source, cuts), 0, curve);
    PiecesFit(joined);
    JoinFrom(source, cuts, joined, 0);
    assert source[0..] == source;
  }

  lemma PieceIs<T>(source: seq<T>, cuts: seq<int>, joined: Joined<T>, i: nat)
    requires Cuts(cuts, |source|) && joined.members == Pieces(source, cuts) && joined.x == 0 && i < |cuts| - 1 &&
        joined.Ok()
    ensures 0 <= cuts[i] <= cuts[i + 1] <= |source| && joined.Part(i) == source[cuts[i]..cuts[i + 1]]
  {
    CutsInside(cuts, |source|, i);
    CutsInside(cuts, |source|, i + 1);
    var lo, hi := cuts[i], cuts[i + 1];
    PieceAt(source, cuts, i, lo, hi);
    assert Window(source, lo, hi) == source[lo..hi];
    WholePart(joined, i);
  }

  /** With no zones a member's part is all of it. */
  lemma WholePart<T>(joined: Joined<T>, i: nat)
    requires joined.Ok() && joined.x == 0 && i < joined.N()
    ensures joined.Part(i) == joined.members[i]
  {
    assert joined.Tail(i) == 0 && joined.Head(i) == 0;
  }

  lemma {:induction false} JoinFrom<T>(source: seq<T>, cuts: seq<int>, joined: Joined<T>, i: nat)
    requires Cuts(cuts, |source|) && joined.members == Pieces(source, cuts) && joined.x == 0 && i < |cuts|
    requires joined.Ok()
    ensures 0 <= cuts[i] <= |source| && joined.Rest(i) == source[cuts[i]..]
    decreases |cuts| - i
  {
    CutsInside(cuts, |source|, i);
    if i == |cuts| - 1 {
      assert joined.Rest(i) == [] == source[|source|..];
    } else {
      JoinFrom(source, cuts, joined, i + 1);
      PieceIs(source, cuts, joined, i);
      RestIs(joined, i);
      OnePiece(source, cuts[i], cuts[i + 1], joined.Part(i), joined.Rest(i + 1));
    }
  }

  lemma PiecesFit<T>(joined: Joined<T>)
    requires joined.x == 0
    ensures joined.Ok()
  {
  }

  lemma RestIs<T>(joined: Joined<T>, i: nat)
    requires joined.Ok() && i < joined.N()
    ensures joined.Rest(i) == joined.Part(i) + joined.Rest(i + 1)
  {
  }

  lemma OnePiece<T>(source: seq<T>, a: int, b: int, part: seq<T>, rest: seq<T>)
    requires 0 <= a <= b <= |source| && part == source[a..b] && rest == source[b..]
    ensures part + rest == source[a..]
  {
  }

  // ----- The stream -----

  /** One chunk of a span, or how it ends. A short source fails, and says whose length was wrong. */
  datatype Cut<T> = Chunk(s: seq<T>, pos: int, discont: bool) | End | Short(blind: bool) | Miscounted | Failed

  class Slice<T> {
    /** What the source delivers, and whether its container lands a seek exactly. */
    const source: seq<T>
    const exact: bool
    const from: nat
    /** The window's length, TO_END for an unbounded one. */
    const limit: int
    /** The span's own track, and whether the source's length was unconfirmed when the span was checked against it. */
    const track: Track
    const blind: bool
    /** The source's length was counted by decoding it. */
    const counted: bool

    /** The source's position, and the damage it has reported since the span was made. */
    var at: nat
    var damaged: bool

    var pos: int
    var started: bool
    var discont: bool

    /** How often the source has failed to be read or sought. */
    ghost var faults: nat

    ghost predicate Valid()
      reads `at, `pos, `started
    {
      limit >= TO_END && at <= |source| && (!started ==> pos == 0 && at == 0)
    }

    /** The next frame the source delivers is the one at `pos` of the window, while the window lasts. */
    ghost predicate Ready()
      requires Valid()
      reads `at, `pos, `started
    {
      started && ((limit >= 0 && pos >= limit) || (0 <= from + pos && at == from + pos))
    }

    /** A position short of what the window is held to. */
    ghost predicate Falls(pos: int)
      reads `damaged
    {
      if limit >= 0 then pos < limit else track.samplesExact && track.samples >= 0 && pos < track.samples && !damaged
    }

    constructor (source: seq<T>, exact: bool, sourceTrack: Track, counted: bool, from: int, end: int)
      requires SpanTrack(sourceTrack, from, end).Some?
      ensures Valid() && !started && this.source == source && this.from == from && this.exact == exact
      ensures limit == (if end >= 0 then end - from else TO_END) && track == SpanTrack(sourceTrack, from, end).value
      ensures this.counted == counted && blind == (sourceTrack.samples < 0 || sourceTrack.samplesAdvisory)
    {
      this.source, this.exact, this.from, this.counted := source, exact, from, counted;
      limit := if end >= 0 then end - from else TO_END;
      track := SpanTrack(sourceTrack, from, end).value;
      blind := sourceTrack.samples < 0 || sourceTrack.samplesAdvisory;
      at, damaged, pos, started, discont := 0, false, 0, false, false;
      faults := 0;
    }

    /** The source's seek: at the target, at its end when that comes first, or at a later first sync point. */
    method SeekSource(target: nat) returns (ok: bool, landed: nat)
      requires Valid()
      modifies `at, `faults
      ensures at <= |source| && (ok ==> at == landed) && (!ok ==> at == old(at))
      ensures ok ==> landed == Min(target, |source|) || (!exact && target < landed)
      ensures faults >= old(faults) && (!ok ==> faults > old(faults))
    {
      ok := *;
      landed := Min(target, |source|);
      if !ok {
        faults := faults + 1;
        return;
      }
      if !exact && target < |source| {
        landed :| target <= landed <= |source|;
      }
      at := landed;
    }

    method ReadSource(cap: nat) returns (c: Option<seq<T>>, ended: bool)
      requires Valid() && cap > 0
      modifies `at, `damaged, `faults
      ensures at <= |source| && (ended ==> c.None? && at == old(at) == |source|)
      ensures c.Some? ==> 0 < |c.value| <= cap && old(at) + |c.value| == at && c.value == source[old(at)..at]
      ensures c.None? ==> at == old(at)
      ensures faults >= old(faults) && (c.None? && !ended ==> faults > old(faults))
    {
      damaged := *;
      var failed: bool := *;
      c, ended := None, false;
      if failed {
        faults := faults + 1;
        return;
      }
      if at == |source| {
        ended := true;
        return;
      }
      var n: nat :| 1 <= n <= cap && at + n <= |source|;
      c := Some(source[at..at + n]);
      at := at + n;
    }

    /** Positions the source at the window's start, on the first read. */
    method EnsureStart() returns (ok: bool)
      requires Valid()
      modifies `at, `pos, `started, `faults
      ensures Valid() && (ok ==> started) && (!ok ==> !started && pos == old(pos))
      ensures old(started) ==> ok && at == old(at) && pos == old(pos)
      ensures ok && !old(started) ==> (|source| >= from ==> Ready()) && (|source| < from ==> pos == 0 && at == |source|)
      ensures ok && !old(started) && exact ==> pos == 0
      ensures faults >= old(faults) && (!ok ==> faults > old(faults))
    {
      if started {
        return true;
      }
      if from == 0 {
        started := true;
        return true;
      }
      var landed;
      ok, landed := SeekSource(from);
      if !ok {
        return;
      }
      pos, started := Max(landed - from, 0), true;
    }

    /** The answer when the source runs out: its end, unless the span was held to more. */
    method EndOfSource() returns (c: Cut<T>)
      requires Valid()
      ensures if Falls(pos) then c == if !blind && counted then Miscounted else Short(blind) else c.End?
    {
      var declared := limit;
      if declared < 0 && track.samplesExact && track.samples >= 0 {
        declared := track.samples;
      }
      if declared < 0 || pos >= declared || (limit < 0 && damaged) {
        return End;
      }
      if !blind && counted {
        return Miscounted;
      }
      return Short(blind);
    }

    /** ReadChunk: the window's next frames, clamped at its end. */
    method ReadChunk(cap: nat) returns (c: Cut<T>)
      requires Valid() && cap > 0
      modifies `at, `damaged, `pos, `started, `discont, `faults
      ensures Valid()
      ensures c.Chunk? && old(started && Ready()) ==>
          c.pos == old(pos) && c.discont == old(discont) && !discont && Ready()
      ensures c.Chunk? && old(started && Ready()) ==>
        0 < |c.s| <= cap && pos == old(pos) + |c.s| && 0 <= from + old(pos) && from + pos <= |source|
        && c.s == source[from + old(pos)..from + pos] && (limit >= 0 ==> pos <= limit)
      ensures c.End? && limit >= 0 ==> pos >= limit
      ensures c.End? && limit < 0 && track.samplesExact && track.samples >= 0 ==> pos >= track.samples || damaged
      ensures !c.Chunk? && old(started) ==> pos == old(pos) && at == old(at) && started
      ensures faults >= old(faults) && (c.Failed? ==> faults > old(faults))
      ensures c.Short? || c.Miscounted? ==>
        at == |source| && Falls(pos) && c == if !blind && counted then Miscounted else Short(blind)
    {
      var ok := EnsureStart();
      if !ok {
        return Failed;
      }
      if limit >= 0 && pos >= limit {
        return End;
      }
      ghost var placed, was, here := Ready(), pos, at;
      var got, ended := ReadSource(cap);
      if ended {
        c := EndOfSource();
        return;
      }
      if got.None? {
        return Failed;
      }
      var s := got.value;
      if limit >= 0 {
        var allowed := limit - pos;
        if |s| >= allowed {
          s := s[..Max(allowed, 0)];
        }
      }
      c := Chunk(s, pos, discont);
      discont := false;
      pos := pos + |s|;
    }

    /** SeekSample: a target on the window's own timeline, down to the real audio ahead of it. */
    method SeekSample(target: int) returns (ok: bool)
      requires Valid()
      modifies `at, `pos, `started, `discont, `faults
      ensures Valid()
      ensures target + from < 0 ==> !ok && pos == old(pos) && started == old(started)
      ensures ok ==> started && discont && pos == if limit >= 0 then Min(at - from, limit) else at - from
      ensures ok && (limit < 0 || target <= limit) && from + target <= |source| ==> Ready() && target <= pos
      ensures ok && exact && from + target <= |source| ==>
          Ready() && pos == if limit >= 0 then Min(target, limit) else target
      ensures faults >= old(faults) && (target + from >= 0 && !ok ==> faults > old(faults))
    {
      if target + from < 0 {
        return false;
      }
      var t := target;
      if limit >= 0 {
        t := Min(t, limit);
      }
      var landed;
      ok, landed := SeekSource(from + t);
      if !ok {
        return;
      }
      started := true;
      pos := landed - from;
      if limit >= 0 {
        pos := Min(pos, limit);
      }
      discont := true;
    }

    /** Any reader at all, from a window that stands somewhere: what it gets is the source's own samples from there, in
        order. A bounded window ends only with all it promised, and an open one that inherited an exact length only with
        that unless damage says why; a source short of what it is held to fails the read, whatever the capacities. */
    method ReadAll() returns (last: Cut<T>, s: seq<T>)
      requires Valid() && started && Ready() && 0 <= from + pos <= |source|
      modifies `at, `damaged, `pos, `started, `discont, `faults
      ensures old(pos) <= pos && 0 <= from + old(pos) && from + pos <= |source| &&
          s == source[from + old(pos)..from + pos]
      ensures last.End? && 0 <= limit && old(pos) <= limit ==> pos == limit && from + limit <= |source|
      ensures 0 <= limit && old(pos) <= limit && |source| < from + limit ==> !last.End?
      ensures last.End? && limit < 0 && track.samplesExact && track.samples >= 0 ==> pos >= track.samples || damaged
      ensures limit < 0 && track.samplesExact && track.samples >= 0 && |source| < from + track.samples && last.End? ==>
          damaged
      ensures faults >= old(faults)
      ensures !last.End? ==> faults > old(faults) || (|source| == from + pos && Falls(pos))
    {
      s := [];
      ghost var start := pos;
      while true
        invariant Valid() && started && Ready() && start <= pos && from + pos <= |source|
        invariant s == source[from + start..from + pos] && faults >= old(faults)
        invariant 0 <= limit && start <= limit ==> pos <= limit
        decreases |source| - pos
      {
        var cap: nat :| cap > 0;
        ghost var was := pos;
        last := ReadChunk(cap);
        if !last.Chunk? {
          return;
        }
        assert source[from + start..from + pos] == source[from + start..from + was] + source[from + was..from + pos];
        s := s + last.s;
      }
    }
  }
}
