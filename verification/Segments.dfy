/** Segment planning, and the restart of a segmented transcode (segments.go). */
module Segments {
  import opened Container
  import opened Buffer
  import opened Listening

  // ----- The plan -----

  /** The fields of a segment plan its durations are computed from; `segments` is negative when the length is
      unknown. */
  datatype Plan = Plan(segSamples: int, delay: int, samples: int, total: int, segments: int)

  /** n rounded up to whole frames, as Go's division has it for n >= 0. */
  function RoundUp(n: int, frame: int): int requires frame > 0 { (n + frame - 1) / frame * frame }

  lemma RoundUpIs(n: int, frame: int)
    requires frame > 0
    ensures n <= RoundUp(n, frame) < n + frame && RoundUp(n, frame) % frame == 0
  {
    var q := (n + frame - 1) / frame;
    Multiple(q, frame);
  }

  lemma Multiple(k: int, frame: int)
    requires frame > 0
    ensures k * frame % frame == 0 && k * frame / frame == k
  {
    Divided(k * frame, frame, k);
  }

  lemma Divided(x: int, d: int, q: int)
    requires d > 0 && q * d <= x < q * d + d
    ensures x / d == q && x % d == x - q * d
  {
    var e := x / d;
    assert x == e * d + x % d;
    Quotient(q, e, d, x);
  }

  lemma Quotient(q: int, e: int, d: int, x: int)
    requires d > 0 && q * d <= x < q * d + d && e * d <= x < e * d + d
    ensures q == e
  {
    assert (q + 1) * d == q * d + d && (e + 1) * d == e * d + d;
    Ordered(q, e + 1, d);
    Ordered(e, q + 1, d);
  }

  lemma Ordered(a: int, b: int, m: int)
    requires m > 0 && a * m < b * m
    ensures a < b
  {
  }

  lemma AtMost(a: int, b: int, m: int)
    requires m > 0 && a * m <= b * m
    ensures a <= b
  {
  }

  /** totalDecodeSamples: what an encoder of that delay makes of a trimmed output length. */
  function TotalDecodeSamples(samples: int, delay: int, frame: int): int
    requires frame > 0
  {
    if delay == 0 then samples else RoundUp(samples + delay, frame)
  }

  /** An encoder without delay makes as many samples as it takes; one with delay makes whole frames, the least that hold
      the delay and the samples. */
  lemma TotalIsLeast(samples: nat, delay: nat, frame: nat, m: nat)
    requires frame > 0
    ensures var total := TotalDecodeSamples(samples, delay, frame);
      if delay == 0 then total == samples
      else
        && total % frame == 0 && delay + samples <= total
        && (m % frame == 0 && delay + samples <= m ==> total <= m)
  {
    var total := TotalDecodeSamples(samples, delay, frame);
    if delay > 0 {
      RoundUpIs(samples + delay, frame);
      assert total == total / frame * frame && m == m / frame * frame + m % frame;
      if m % frame == 0 && delay + samples <= m {
        NoneBetween(total / frame, m / frame, frame, samples + delay);
      }
    }
  }

  lemma NoneBetween(a: int, b: int, frame: int, n: int)
    requires frame > 0 && a * frame < n + frame && n <= b * frame
    ensures a * frame <= b * frame
  {
    assert (b + 1) * frame == b * frame + frame;
    Ordered(a, b + 1, frame);
    Scaled(a, b, frame);
  }

  /** PlanSegments, for the lengths. */
  function Planned(segSamples: int, delay: int, samples: int, frame: int): Plan
    requires segSamples > 0 && frame > 0
  {
    if samples < 0 then Plan(segSamples, delay, samples, -1, -1)
    else
      var total := TotalDecodeSamples(samples, delay, frame);
      Plan(segSamples, delay, samples, total, (total + segSamples - 1) / segSamples)
  }

  /** A plan MediaSegments lists: its fields agree. */
  predicate Agrees(p: Plan) {
    && p.segSamples > 0 && p.delay >= 0 && p.samples >= 0 && p.delay + p.samples <= p.total
    && p.segments == (p.total + p.segSamples - 1) / p.segSamples
  }

  lemma PlannedAgrees(segSamples: int, delay: int, samples: int, frame: int)
    requires segSamples > 0 && frame > 0 && delay >= 0 && samples >= 0
    ensures Agrees(Planned(segSamples, delay, samples, frame))
  {
    RoundUpIs(samples + delay, frame);
  }

  function SegmentDuration(p: Plan, n: int): int {
    if p.segments < 0 || n < 0 || n >= p.segments then -1
    else if n < p.segments - 1 then p.segSamples
    else p.total - (p.segments - 1) * p.segSamples
  }

  function PresentationDuration(p: Plan, n: int): int {
    var d := SegmentDuration(p, n);
    if d < 0 then -1
    else
      var start := n * p.segSamples;
      Max(0, Min(start + d, p.delay + p.samples) - Max(start, p.delay))
  }

  /** The summed decode and presentation durations of the first k segments. */
  function Decoded(p: Plan, k: nat): int { if k == 0 then 0 else Decoded(p, k - 1) + SegmentDuration(p, k - 1) }

  function Presented(p: Plan, k: nat): int {
    if k == 0 then 0 else Presented(p, k - 1) + PresentationDuration(p, k - 1)
  }

  /** Every segment is a whole one but the last, which is not empty; the presentation before segment k is what of the
      window lies before its start. */
  lemma {:induction false} DurationsTo(p: Plan, k: nat)
    requires Agrees(p) && k <= p.segments
    ensures Decoded(p, k) == Min(k * p.segSamples, p.total)
    ensures Presented(p, k) == Max(0, Min(Decoded(p, k), p.delay + p.samples) - p.delay)
    ensures k > 0 ==> 0 < SegmentDuration(p, k - 1) <= p.segSamples
  {
    LastSegment(p);
    if k > 0 {
      DurationsTo(p, k - 1);
      assert (k - 1) * p.segSamples + p.segSamples == k * p.segSamples;
      Scaled(k - 1, p.segments - 1, p.segSamples);
      if k < p.segments {
        Scaled(k, p.segments - 1, p.segSamples);
      }
      NextSegment(p, k - 1, (k - 1) * p.segSamples);
    }
  }

  /** One segment: its span, and the presentation before its end from that before its start. */
  lemma NextSegment(p: Plan, n: int, start: int)
    requires Agrees(p) && 0 <= n < p.segments && start == n * p.segSamples < p.total
    requires n < p.segments - 1 ==> start + p.segSamples <= p.total
    requires n == p.segments - 1 ==> p.total <= start + p.segSamples
    ensures SegmentDuration(p, n) == Min(start + p.segSamples, p.total) - start
    ensures Max(0, Min(start, p.delay + p.samples) - p.delay) + PresentationDuration(p, n) ==
            Max(0, Min(start + SegmentDuration(p, n), p.delay + p.samples) - p.delay)
  {
  }

  lemma LastSegment(p: Plan)
    requires Agrees(p)
    ensures (p.segments - 1) * p.segSamples < p.total <= p.segments * p.segSamples || (p.segments == 0 && p.total == 0)
    ensures p.segments >= 0
  {
    RoundUpIs(p.total, p.segSamples);
    assert (p.segments - 1) * p.segSamples + p.segSamples == p.segments * p.segSamples;
  }

  /** What a player sums from the playlist is the presentation's length, and the segments' spans are the whole
      decode. */
  lemma DurationsSum(p: Plan)
    requires Agrees(p)
    ensures p.segments >= 0 && Decoded(p, p.segments) == p.total && Presented(p, p.segments) == p.samples
  {
    LastSegment(p);
    DurationsTo(p, p.segments);
  }

  // ----- Where a restarted run begins -----

  /** Go's division, which truncates toward zero, and its remainder. */
  function Quot(a: int, b: int): int requires b > 0 { if a >= 0 then a / b else -(-a / b) }

  function Rem(a: int, b: int): int requires b > 0 { a - Quot(a, b) * b }

  /** floorDiv: the quotient rounded down over the whole range of a. */
  method FloorDiv(a: int, b: int) returns (q: int)
    requires b > 0
    ensures q * b <= a < q * b + b
  {
    q := Quot(a, b);
    var r := Rem(a, b);
    if r < 0 {
      q := q - 1;
    }
  }

  /** The source samples held back to cover what the map back to the source rounds off. */
  const HEADROOM_MARGIN: int := 2

  /** headroomFloor: how far below output sample 0 a run may start, for the audio there is ahead of sample 0. */
  method HeadroomFloor(headroom: int, l: int, m: int) returns (floor: int)
    requires l > 0 && m > 0
    ensures floor <= 0 && (floor < 0 ==> headroom > HEADROOM_MARGIN && -floor * m <= (headroom - HEADROOM_MARGIN) * l)
    ensures headroom > HEADROOM_MARGIN ==> (headroom - HEADROOM_MARGIN) * l < (-floor + 1) * m
  {
    var room := headroom - HEADROOM_MARGIN;
    if room <= 0 {
      return 0;
    }
    var back := room * l / m;
    assert room * l >= 0;
    assert back * m <= room * l < back * m + m;
    floor := -back;
  }

  lemma TowardZero(floor: int, frame: int)
    requires floor <= 0 && frame > 0
    ensures floor <= Quot(floor, frame) * frame <= 0 && Quot(floor, frame) * frame % frame == 0
    ensures Quot(floor, frame) * frame < floor + frame
  {
    Multiple(Quot(floor, frame), frame);
  }

  lemma Differ(a: int, b: int, frame: int)
    requires frame > 0 && a % frame == 0 && b % frame == 0
    ensures (a - b) % frame == 0
  {
    var i, j := a / frame, b / frame;
    assert (i - j) * frame == i * frame - j * frame == a - b;
    Multiple(i - j, frame);
  }

  /** primeStarts: the encoder's window and the chain's in front of it, whole frames, clamped at the top of the stream.
      Each reaches back at least as far as it was asked to unless it is clamped, and by less than two frames more; so
      the chain runs for both windows together before the first kept sample, unless it starts at the floor. */
  method PrimeStarts(p0: int, frame: int, encWindow: int, horizon: int, floor: int) returns (pChain: int, pEnc: int)
    requires frame > 0 && p0 >= 0 && p0 % frame == 0 && encWindow >= 0 && horizon >= 0 && floor <= 0
    ensures floor <= pChain <= pEnc <= p0 && 0 <= pEnc
    ensures pChain % frame == 0 && pEnc % frame == 0 && (p0 - pEnc) % frame == 0
    ensures p0 - pEnc < encWindow + frame && (pEnc == 0 || encWindow <= p0 - pEnc)
    ensures pEnc == 0 || pEnc - pChain < horizon + frame
    ensures horizon <= pEnc - pChain || pChain == Quot(floor, frame) * frame
    ensures encWindow + horizon <= p0 - pChain || pChain == Quot(floor, frame) * frame
    ensures Quot(floor, frame) * frame <= pChain
    ensures p0 - pChain < encWindow + horizon + 2 * frame
  {
    var encPrime := RoundUp(encWindow, frame);
    var chainPrime := encPrime + RoundUp(horizon, frame);
    var whole := Quot(floor, frame) * frame;
    pChain, pEnc := Max(whole, p0 - chainPrime), Max(0, p0 - encPrime);
    RoundUpIs(encWindow, frame);
    RoundUpIs(horizon, frame);
    TowardZero(floor, frame);
    Differ(p0, encPrime, frame);
    Differ(p0 - encPrime, RoundUp(horizon, frame), frame);
    Differ(p0, pEnc, frame);
  }

  /** ceilDiv(s * l, m): the output position of the first sample a chain makes of a stream entered at source sample
      s. */
  ghost predicate FirstOut(q: int, s: int, l: int, m: int)
  {
    (q - 1) * m < s * l <= q * m
  }

  /** The map of the chain's start back to the source: the sample the run seeks, which at the top it does not. */
  method MapBack(pChain: int, l: int, m: int) returns (srcPos: int)
    requires l > 0 && m > 0
    ensures l == m ==> srcPos == pChain
    ensures l != m ==> (srcPos + 1) * l <= pChain * m < (srcPos + 2) * l
  {
    srcPos := pChain;
    if l != m {
      var q := FloorDiv(pChain * m, l);
      srcPos := q - 1;
      assert (srcPos + 2) * l == q * l + l;
    }
  }

  /** A run's seek lands the chain at or before its start, whatever the ratio. */
  lemma LandsBefore(pChain: int, l: int, m: int, srcPos: int, q: int)
    requires l > 0 && m > 0 && FirstOut(q, srcPos, l, m) && EntersAt(srcPos, pChain, l, m)
    ensures q <= pChain && (l == m || pChain == 0 ==> q == pChain)
  {
    if l == m || pChain == 0 {
      Ordered(q - 1, pChain, m);
      AtMost(pChain, q, m);
    } else {
      assert (srcPos + 1) * l == srcPos * l + l;
      Ordered(q - 1, pChain, m);
    }
  }

  /** The seek asks for nothing ahead of the media's start, except in one case: with nothing ahead of sample 0, when one
      source sample makes more output than the chain's start lies in. */
  lemma SeekWithinHeadroom(pChain: int, l: int, m: int, srcPos: int, headroom: int, floor: int)
    requires l > 0 && m > 0 && headroom >= 0 && pChain != 0 && floor <= pChain && floor <= 0
    requires floor < 0 ==> headroom > HEADROOM_MARGIN && -floor * m <= (headroom - HEADROOM_MARGIN) * l
    requires if l == m then srcPos == pChain else (srcPos + 1) * l <= pChain * m < (srcPos + 2) * l
    ensures srcPos >= -headroom <==> !(headroom == 0 && l != m && pChain * m < l)
  {
    if pChain < 0 {
      PrimedFromHeadroom(pChain, l, m, srcPos, headroom - HEADROOM_MARGIN, floor);
    } else if l != m {
      PrimedFromStart(pChain, l, m, srcPos);
    }
  }

  lemma PrimedFromHeadroom(pChain: int, l: int, m: int, srcPos: int, room: int, floor: int)
    requires l > 0 && m > 0 && floor <= pChain && -floor * m <= room * l
    requires if l == m then srcPos == pChain else pChain * m < (srcPos + 2) * l
    ensures srcPos > -room - 2 && pChain * m >= -room * l
  {
    Scaled(floor, pChain, m);
    assert -floor * m == -(floor * m) && -room * l == -(room * l);
    if l == m {
      AtMost(-room, pChain, m);
    } else {
      Ordered(-room, srcPos + 2, l);
    }
  }

  lemma Scaled(a: int, b: int, m: int)
    requires a <= b && m >= 0
    ensures a * m <= b * m
  {
  }

  lemma PrimedFromStart(pChain: int, l: int, m: int, srcPos: int)
    requires l > 0 && m > 0 && pChain > 0 && (srcPos + 1) * l <= pChain * m < (srcPos + 2) * l
    ensures srcPos >= -1 && (srcPos == -1 <==> pChain * m < l)
  {
    Scaled(0, pChain, m);
    Ordered(0, srcPos + 2, l);
    if srcPos >= 0 {
      Scaled(1, srcPos + 1, l);
    }
  }

  /** A ratio below one frame per source sample is never that case. */
  lemma FrameRatio(pChain: int, frame: int, l: int, m: int)
    requires frame > 0 && l > 0 && m > 0 && l <= frame * m && pChain > 0 && pChain % frame == 0
    ensures pChain * m >= l
  {
    assert pChain >= frame;
    assert (pChain - frame) * m >= 0;
  }

  /** The case is real: 8 Hz to 48 kHz in frames of 1024, nothing ahead of sample 0, a run from sample 6144 primed for a
      tenth of a second starts the chain at 1024, and asks the media for sample -1. */
  method AsksBeforeStart() returns (pChain: int, pEnc: int, srcPos: int)
    ensures pChain == pEnc == 1024 && srcPos == -1 && pChain * 1 < 6000
  {
    pChain, pEnc := PrimeStarts(6144, 1024, 4800, 0, 0);
    assert pEnc / 1024 == 1 && pChain / 1024 == 1;
    srcPos := MapBack(pChain, 6000, 1);
  }

  // ----- Feeding the encoder -----

  /** A stream cut into whole frames and a last one of what remains. */
  function Framed<T>(s: seq<T>, frame: nat): seq<seq<T>>
    requires frame > 0
  {
    if |s| == 0 then [] else if |s| <= frame then [s] else [s[..frame]] + Framed(s[frame..], frame)
  }

  function Flat<T>(frames: seq<seq<T>>): seq<T> {
    if frames == [] then [] else Flat(frames[..|frames| - 1]) + frames[|frames| - 1]
  }

  ghost predicate Whole<T>(frames: seq<seq<T>>, frame: nat) { forall i :: 0 <= i < |frames| ==> |frames[i]| == frame }

  /** Whole frames and a shorter rest are what their samples cut into. */
  lemma {:induction false} FramedIs<T>(frames: seq<seq<T>>, rest: seq<T>, frame: nat)
    requires frame > 0 && Whole(frames, frame) && |rest| < frame
    ensures Framed(Flat(frames) + rest, frame) == frames + (if rest == [] then [] else [rest])
    decreases |frames|
  {
    if frames == [] {
      assert Flat(frames) + rest == rest;
    } else {
      var tail := frames[1..];
      FlatFirst(frames);
      FramedIs(tail, rest, frame);
      assert Flat(frames) + rest == frames[0] + (Flat(tail) + rest);
      FramedFirst(frames[0], Flat(tail) + rest, frame);
      assert frames == [frames[0]] + tail;
    }
  }

  lemma FramedFirst<T>(first: seq<T>, rest: seq<T>, frame: nat)
    requires |first| == frame > 0
    ensures Framed(first + rest, frame) == [first] + Framed(rest, frame)
  {
    var s := first + rest;
    if |rest| == 0 {
      assert s == first;
    } else {
      assert s[..frame] == first && s[frame..] == rest;
    }
  }

  lemma {:induction false} FlatFirst<T>(frames: seq<seq<T>>)
    requires frames != []
    ensures Flat(frames) == frames[0] + Flat(frames[1..])
    decreases |frames|
  {
    var k := |frames| - 1;
    if k == 0 {
      assert frames[..0] == [] && frames[1..] == [];
      assert Flat(frames) == [] + frames[0];
    } else {
      var front, back, j := frames[..k], frames[1..], k - 1;
      FlatFirst(front);
      assert front[1..] == back[..j] && front[0] == frames[0] && back[j] == frames[k];
      assert Flat(frames) == (frames[0] + Flat(front[1..])) + frames[k];
      assert Flat(back) == Flat(front[1..]) + frames[k];
    }
  }

  /** Dropping whole frames of a cut stream is cutting what follows them. */
  lemma {:induction false} FramedSuffix<T>(s: seq<T>, frame: nat, d: nat, k: nat)
    requires frame > 0 && k == d * frame && k <= |s|
    ensures d <= |Framed(s, frame)| && Framed(s[k..], frame) == Framed(s, frame)[d..]
    decreases d
  {
    if d > 0 {
      OneLess(d, frame, k);
      if |s| <= frame {
        assert d == 1 && s[k..] == [];
      } else {
        var first, rest, j := s[..frame], s[frame..], k - frame;
        FramedSuffix(rest, frame, d - 1, j);
        assert s == first + rest && rest[j..] == s[k..];
        FramedFirst(first, rest, frame);
        assert Framed(s, frame) == [first] + Framed(rest, frame);
      }
    }
  }

  lemma OneLess(d: nat, frame: nat, k: nat)
    requires d > 0 && frame > 0 && k == d * frame
    ensures k - frame == (d - 1) * frame >= 0 && (k <= frame ==> d == 1)
  {
    if k <= frame {
      AtMost(d, 1, frame);
    }
  }

  /** The processing chain: a stream whose first sample lies at `base`, handed on in chunks of any size. */
  class Chain<T(0)> {
    const stream: seq<seq<T>>
    const base: int
    const channels: nat
    var at: nat
    /** How often the chain has failed. */
    ghost var faults: nat

    ghost predicate Valid()
      reads `at
    {
      at <= |stream| && forall k :: 0 <= k < |stream| ==> |stream[k]| == channels
    }

    constructor (stream: seq<seq<T>>, base: int, channels: nat)
      requires forall k :: 0 <= k < |stream| ==> |stream[k]| == channels
      ensures Valid() && at == faults == 0 && this.stream == stream && this.base == base && this.channels == channels
    {
      this.stream, this.base, this.channels, at, faults := stream, base, channels, 0, 0;
    }

    /** The next chunk, of any size that fits; or the end; or a failure. */
    method ReadChunk(buf: Buffer<T>) returns (ok: bool, more: bool)
      requires Valid() && buf.Valid() && buf.channels == channels && buf.stride > 0
      modifies this`at, this`faults, buf`n, buf`pos, buf.data
      ensures Valid() && buf.Valid() && (ok && more ==> at == old(at) + buf.n && buf.n > 0 && buf.pos == base + old(at))
      ensures ok && more ==> buf.Frames(0, buf.n) == stream[old(at)..at]
      ensures ok && !more ==> at == old(at) == |stream|
      ensures !ok ==> !more && at == old(at)
      ensures faults >= old(faults) && (!ok ==> faults > old(faults))
    {
      ok, more := *, false;
      faults := if ok then faults else faults + 1;
      if !ok || at == |stream| {
        return;
      }
      var n: int := *;
      n := Max(1, Min(n, Min(|stream| - at, buf.stride)));
      ghost var frames := stream[at..at + n];
      buf.n, buf.pos := 0, base + at;
      assert buf.Contents() == [];
      Append(buf, stream[at..at + n]);
      at, more := at + n, true;
      assert buf.Frames(0, buf.n) == [] + frames;
    }
  }

  /** An encoder, and the frames it has been handed. It makes one packet a frame and counts them; the first `discard`
      are dropped and the rest written. */
  class Encoder<T(0)> {
    const discard: nat
    var pkts: nat
    ghost var fed: seq<seq<seq<T>>>
    ghost var written: seq<seq<seq<T>>>

    ghost predicate Valid()
      reads this
    {
      pkts == |fed| && written == fed[Min(discard, |fed|)..]
    }

    constructor (discard: nat)
      ensures Valid() && fed == [] && this.discard == discard
    {
      this.discard, pkts, fed, written := discard, 0, [], [];
    }

    method Encode(stage: Buffer<T>)
      requires Valid() && stage.Valid()
      modifies this
      ensures Valid() && fed == old(fed) + [stage.Contents()]
    {
      ghost var was := fed;
      fed := fed + [stage.Contents()];
      pkts := pkts + 1;
      if pkts <= discard {
        return;
      }
      written := written + [stage.Contents()];
      assert was[discard..] + [stage.Contents()] == fed[discard..];
    }
  }

  /** stageFrames: the chunk's frames from `start` on, encoded as each frame fills; a partial one stays staged. */
  method StageFrames<T(0)>(stage: Buffer<T>, src: Buffer<T>, start: nat, frame: nat, enc: Encoder<T>,
      ghost before: seq<seq<T>>)
    requires stage.Valid() && src.Valid() && enc.Valid() && stage.channels == src.channels
    requires stage != src && stage.data != src.data && frame == stage.stride && stage.n < frame && start <= src.n
    requires Whole(enc.fed, frame) && before == Flat(enc.fed) + stage.Contents()
    modifies stage`n, stage`pos, stage.data, enc
    ensures stage.Valid() && enc.Valid() && stage.n < frame && Whole(enc.fed, frame)
    ensures Flat(enc.fed) + stage.Contents() == before + src.Frames(start, src.n)
  {
    var i := start;
    assert before + src.Frames(start, i) == before;
    while i < src.n
      invariant start <= i <= src.n
      invariant stage.Valid() && enc.Valid() && stage.n < frame && Whole(enc.fed, frame)
      invariant Flat(enc.fed) + stage.Contents() == before + src.Frames(start, i)
    {
      var end := i + Min(frame - stage.n, src.n - i);
      src.Adjoin(start, i, end);
      Regroup(before, src.Frames(start, i), src.Frames(i, end));
      StageSome(stage, src, i, end, frame, enc, before + src.Frames(start, i));
      i := end;
    }
  }

  lemma Regroup<T>(a: seq<T>, b: seq<T>, c: seq<T>)
    ensures (a + b) + c == a + (b + c)
  {
  }

  /** What of a chunk fits in the frame under way, encoded when that fills it. */
  method StageSome<T(0)>(stage: Buffer<T>, src: Buffer<T>, i: nat, end: nat, frame: nat, enc: Encoder<T>,
      ghost before: seq<seq<T>>)
    requires stage.Valid() && src.Valid() && enc.Valid() && stage.channels == src.channels
    requires stage != src && stage.data != src.data && frame == stage.stride && i < end <= src.n &&
        stage.n + (end - i) <= frame
    requires Whole(enc.fed, frame) && before == Flat(enc.fed) + stage.Contents()
    modifies stage`n, stage`pos, stage.data, enc
    ensures stage.Valid() && enc.Valid() && stage.n < frame && Whole(enc.fed, frame)
    ensures Flat(enc.fed) + stage.Contents() == before + src.Frames(i, end)
  {
    if stage.n == 0 {
      stage.pos := src.pos + i;
    }
    Regroup(Flat(enc.fed), stage.Contents(), src.Frames(i, end));
    AppendFrom(stage, src, i, end);
    if stage.n == frame {
      EncodeFull(stage, frame, enc);
    }
  }

  method EncodeFull<T(0)>(stage: Buffer<T>, frame: nat, enc: Encoder<T>)
    requires stage.Valid() && enc.Valid() && stage.n == frame > 0 && Whole(enc.fed, frame)
    modifies stage`n, enc
    ensures stage.Valid() && stage.n == 0 && enc.Valid() && Whole(enc.fed, frame)
    ensures Flat(enc.fed) + stage.Contents() == old(Flat(enc.fed) + stage.Contents())
  {
    ghost var fed := enc.fed;
    enc.Encode(stage);
    assert enc.fed[..|enc.fed| - 1] == fed;
    stage.n := 0;
  }

  /** The run's loop: whatever chunks the chain hands on, the encoder gets the stream from pEnc cut into whole frames
      and a last short one. A chain that landed past pEnc fails the run. */
  method FeedEncoder<T(0)>(chain: Chain<T>, buf: Buffer<T>, stage: Buffer<T>, enc: Encoder<T>, pEnc: int, frame: nat,
      ghost ahead: int)
    returns (ok: bool)
    requires chain.Valid() && buf.Valid() && stage.Valid() && enc.Valid() && chain.at == 0 && enc.fed == []
    requires buf.channels == stage.channels == chain.channels && buf != stage && buf.data != stage.data
    requires buf.stride > 0 && stage.stride == frame > 0 && stage.n == 0 && ahead == pEnc - chain.base
    modifies chain, buf`n, buf`pos, buf.data, stage`n, stage`pos, stage.data, enc
    ensures enc.Valid()
    ensures ok ==> chain.stream == [] || ahead >= 0
    ensures ok ==> enc.fed == Framed(Drop(chain.stream, ahead), frame)
    ensures chain.faults >= old(chain.faults) && (!ok ==> chain.faults > old(chain.faults) || ahead < 0)
  {
    var skip := -1;
    ok := true;
    var more := true;
    while ok && more
      invariant chain.Valid() && buf.Valid() && stage.Valid() && enc.Valid() && stage.n < frame && Whole(enc.fed, frame)
      invariant ok ==> Fed(chain, stage, enc, skip, ahead) && (!more ==> chain.at == |chain.stream|)
      invariant chain.faults >= old(chain.faults) && (!ok ==> chain.faults > old(chain.faults) || ahead < 0)
      decreases more, |chain.stream| - chain.at
    {
      ok, more, skip := FeedOne(chain, buf, stage, enc, skip, pEnc, frame, ahead);
    }
    if ok {
      assert chain.stream[..|chain.stream|] == chain.stream;
      EncodeRest(stage, enc, frame, Drop(chain.stream, ahead));
    }
  }

  /** The encoder and its stage hold what the chain has handed on from the first sample that is fed. `skip` is negative
      until a chunk says where the chain landed. */
  ghost predicate Fed<T(0)>(chain: Chain<T>, stage: Buffer<T>, enc: Encoder<T>, skip: int, ahead: int)
    reads chain, stage, stage.data, enc
  {
    && chain.at <= |chain.stream| && stage.Valid() && (chain.at == 0 || ahead >= 0)
    && (if skip < 0 then chain.at == 0 else ahead >= 0 && skip == Max(0, ahead - chain.at))
    && Flat(enc.fed) + stage.Contents() == Drop(chain.stream[..chain.at], ahead)
  }

  /** One chunk: what is left to skip comes off its front, and the rest is staged. */
  method FeedChunk<T(0)>(chain: Chain<T>, buf: Buffer<T>, stage: Buffer<T>, enc: Encoder<T>, skip: nat, frame: nat,
      ghost ahead: nat, ghost was: nat) returns (left: nat)
    requires chain.Valid() && buf.Valid() && stage.Valid() && enc.Valid() && buf.channels == stage.channels
    requires buf != stage && buf.data != stage.data && stage.stride == frame && stage.n < frame && Whole(enc.fed, frame)
    requires was <= chain.at && buf.n == chain.at - was && buf.Frames(0, buf.n) == chain.stream[was..chain.at] &&
        skip == Max(0, ahead - was)
    requires Flat(enc.fed) + stage.Contents() == Drop(chain.stream[..was], ahead)
    modifies stage`n, stage`pos, stage.data, enc
    ensures stage.Valid() && enc.Valid() && stage.n < frame && Whole(enc.fed, frame)
    ensures left == Max(0, ahead - chain.at) &&
        Flat(enc.fed) + stage.Contents() == Drop(chain.stream[..chain.at], ahead)
  {
    var n := Min(skip, buf.n);
    left := skip - n;
    buf.Stretch(0, buf.n, n, buf.n);
    Skipped(chain.stream, was, chain.at, ahead, n);
    StageFrames(stage, buf, n, frame, enc, Drop(chain.stream[..was], ahead));
  }

  lemma Skipped<T>(all: seq<T>, was: nat, at: nat, skip: nat, n: nat)
    requires was <= at <= |all| && n == Min(Max(0, skip - was), at - was)
    ensures Drop(all[..at], skip) == Drop(all[..was], skip) + all[was..at][n..]
  {
  }

  method FeedOne<T(0)>(chain: Chain<T>, buf: Buffer<T>, stage: Buffer<T>, enc: Encoder<T>, skip: int, pEnc: int,
      frame: nat, ghost ahead: int) returns (ok: bool, more: bool, left: int)
    requires chain.Valid() && buf.Valid() && stage.Valid() && enc.Valid() && stage.n < frame && Whole(enc.fed, frame)
    requires buf.channels == stage.channels == chain.channels && buf != stage && buf.data != stage.data
    requires buf.stride > 0 && stage.stride == frame && ahead == pEnc - chain.base &&
        Fed(chain, stage, enc, skip, ahead)
    modifies chain, buf`n, buf`pos, buf.data, stage`n, stage`pos, stage.data, enc
    ensures chain.Valid() && buf.Valid() && stage.Valid() && enc.Valid() && stage.n < frame && Whole(enc.fed, frame)
    ensures ok ==> Fed(chain, stage, enc, left, ahead)
    ensures ok ==> if more then old(chain.at) < chain.at else chain.at == |chain.stream|
    ensures !ok ==> !more || old(chain.at) < chain.at
    ensures chain.faults >= old(chain.faults) && (!ok ==> chain.faults > old(chain.faults) || ahead < 0)
  {
    ghost var was := chain.at;
    left := skip;
    ok, more := chain.ReadChunk(buf);
    if ok && more {
      if left < 0 {
        left := pEnc - buf.pos;
        if left < 0 {
          return false, more, left;
        }
      }
      left := FeedChunk(chain, buf, stage, enc, left, frame, ahead, was);
    }
  }

  /** The last, short frame. */
  method EncodeRest<T(0)>(stage: Buffer<T>, enc: Encoder<T>, frame: nat, ghost all: seq<seq<T>>)
    requires stage.Valid() && enc.Valid() && stage.n < frame && Whole(enc.fed, frame) &&
        all == Flat(enc.fed) + stage.Contents()
    modifies stage`n, enc
    ensures enc.Valid() && enc.fed == Framed(all, frame)
  {
    FramedIs(enc.fed, stage.Contents(), frame);
    if stage.n > 0 {
      enc.Encode(stage);
      stage.n := 0;
    }
  }

  // ----- The restart -----

  lemma {:induction false} FrameCount<T>(s: seq<T>, frame: nat)
    requires frame > 0
    ensures |s| <= |Framed(s, frame)| * frame < |s| + frame
  {
    if |s| > frame {
      FrameCount(s[frame..], frame);
      assert |Framed(s, frame)| * frame == |Framed(s[frame..], frame)| * frame + frame;
    }
  }

  lemma Exact(x: int, frame: int)
    requires frame > 0 && x % frame == 0
    ensures x / frame * frame == x && (x >= 0 ==> x / frame >= 0)
  {
  }

  /** Discarding the first d frames is dropping their samples. */
  lemma Discarded<T>(s: seq<T>, frame: nat, d: nat, k: nat)
    requires frame > 0 && k == d * frame
    ensures var f := Framed(s, frame); f[Min(d, |f|)..] == Framed(Drop(s, k), frame)
  {
    if k <= |s| {
      FramedSuffix(s, frame, d, k);
    } else {
      FewFrames(s, frame, d, k);
    }
  }

  lemma FewFrames<T>(s: seq<T>, frame: nat, d: nat, k: nat)
    requires frame > 0 && k == d * frame && k > |s|
    ensures |Framed(s, frame)| <= d
  {
    var n := |Framed(s, frame)|;
    FrameCount(s, frame);
    Ordered(n - 1, d, frame);
  }

  lemma DropTwice<T>(s: seq<T>, j: nat, k: nat, both: nat)
    requires both == j + k
    ensures Drop(Drop(s, j), k) == Drop(s, both)
  {
  }

  /** What a restarted run writes, its encoder entered `enc` samples into its stream, is what the stream holds from its
      first kept sample on, cut into frames: the priming is gone to the sample, even when the stream ends inside it. */
  lemma PrimingIsDropped<T>(stream: seq<seq<T>>, enc: nat, kept: nat, k: nat, frame: nat, fed: seq<seq<seq<T>>>,
      discard: nat)
    requires frame > 0 && k == discard * frame && kept == enc + k && fed == Framed(Drop(stream, enc), frame)
    ensures fed[Min(discard, |fed|)..] == Framed(Drop(stream, kept), frame)
  {
    Discarded(Drop(stream, enc), frame, discard, k);
    DropTwice(stream, enc, k, kept);
  }

  /** So where the restarted chain's stream is the whole one's, the run writes exactly the frames a run of the whole
      stream does from that sample on. */
  lemma RestartIsSuffix<T>(whole: seq<seq<T>>, stream: seq<seq<T>>, enc: nat, kept: nat, k: nat, frame: nat,
      fed: seq<seq<seq<T>>>, discard: nat, p0: nat, first: nat)
    requires frame > 0 && k == discard * frame && kept == enc + k && p0 == first * frame
    requires fed == Framed(Drop(stream, enc), frame) && Drop(stream, kept) == Drop(whole, p0)
    ensures var all := Framed(whole, frame); fed[Min(discard, |fed|)..] == all[Min(first, |all|)..]
  {
    PrimingIsDropped(stream, enc, kept, k, frame, fed, discard);
    Discarded(whole, frame, first, p0);
  }

  /** ceilDiv over the resampler's grid. */
  method CeilDiv(s: int, l: int, m: int) returns (q: int)
    requires l > 0 && m > 0
    ensures FirstOut(q, s, l, m)
  {
    var back := FloorDiv(-(s * l), m);
    q := -back;
    assert q * m == -(back * m) && (q - 1) * m == q * m - m;
  }

  /** The floor in whole frames, and the one source sample a run clamped at it enters at. */
  function WholeFloor(floor: int, frame: int): int requires frame > 0 { Quot(floor, frame) * frame }

  ghost predicate EntersAt(s: int, pChain: int, l: int, m: int) {
    if pChain == 0 then s == 0 else if l == m then s == pChain else (s + 1) * l <= pChain * m < (s + 2) * l
  }

  /** What a chain makes of the source entered at sample s, its first sample at output position q: once it has run for
      `settle` samples those of the whole stream, which is the one it makes entered as early as any run enters. */
  ghost predicate Settles<T(!new)>(entered: int -> seq<seq<T>>, whole: seq<seq<T>>, settle: int, top: int, l: int,
      m: int) {
    forall s: int, q: int, p: int ::
        FirstOut(q, s, l, m) && q <= p && 0 <= p && (s == top || (top < s && settle <= p - q)) ==>
      Drop(entered(s), p - q) == Drop(whole, p)
  }

  lemma SettledAt<T(!new)>(entered: int -> seq<seq<T>>, whole: seq<seq<T>>, settle: int, top: int, l: int, m: int,
      s: int, q: int, p: int, ahead: int)
    requires Settles(entered, whole, settle, top, l, m) && FirstOut(q, s, l, m) && q <= p && 0 <= p && ahead == p - q
    requires s == top || (top < s && settle <= p - q)
    ensures Drop(entered(s), ahead) == Drop(whole, p)
  {
  }

  ghost predicate Wide<T(!new)>(entered: int -> seq<seq<T>>, channels: nat) {
    forall s: int, k: nat :: k < |entered(s)| ==> |entered(s)[k]| == channels
  }

  /** A run enters no earlier than a clamped one, and where that does when it is clamped itself. */
  lemma EntersFromTop(pChain: int, floor: int, frame: int, l: int, m: int, s: int, top: int)
    requires frame > 0 && l > 0 && m > 0 && l <= frame * m && floor <= pChain && floor <= 0 && pChain % frame == 0
    requires EntersAt(s, pChain, l, m) && EntersAt(top, floor, l, m)
    ensures top <= s && (pChain == floor ==> s == top)
  {
    Scaled(floor, pChain, m);
    if pChain > 0 {
      FrameRatio(pChain, frame, l, m);
    }
    if l != m {
      if floor < 0 {
        Scaled(floor, -1, m);
        if pChain != 0 {
          Ordered(top + 1, s + 2, l);
        } else {
          Ordered(top + 1, 0, l);
        }
        if pChain == floor {
          Ordered(s + 1, top + 2, l);
        }
      } else if pChain > 0 {
        AtMost(1, s + 2, l);
        PrimedFromStart(pChain, l, m, s);
      }
    }
  }

  /** The frame a segment starts with. */
  function FrameOf(start: nat, segSamples: nat, frame: nat): nat
    requires frame > 0
  {
    start * segSamples / frame
  }

  /** TranscodeSegmentsMedia from its priming to its encoder. A run started at any segment never asks for audio ahead of
      the media's own, never lands past its priming, and writes exactly the frames a run of the whole stream writes from
      that segment's first sample on, of any chain that settles within the two priming windows together: its own
      horizon, and the encoder's, which is all that covers a chain of none, as a resampler's is. */
  method TranscodeFrom<T(0, !new)>(ghost whole: seq<seq<T>>, entered: int -> seq<seq<T>>, channels: nat,
      segSamples: nat, start: nat, frame: nat, encWindow: nat, horizon: nat, headroom: nat, l: int, m: int, floor: int,
      ghost top: int, ghost settle: nat)
    returns (ok: bool, srcPos: int, enc: Encoder<T>, ghost faults: nat)
    requires frame > 0 && segSamples > 0 && segSamples % frame == 0 && 0 < l <= frame * m && m > 0
    requires floor <= 0 && (floor < 0 ==> headroom > HEADROOM_MARGIN && -floor * m <= (headroom - HEADROOM_MARGIN) * l)
    requires Wide(entered, channels) && EntersAt(top, WholeFloor(floor, frame), l, m)
    requires settle <= encWindow + horizon && Settles(entered, whole, settle, top, l, m)
    ensures srcPos + headroom >= 0 && enc.Valid()
    ensures !ok ==> faults > 0
    ensures ok ==> enc.written == Framed(whole, frame)[Min(FrameOf(start, segSamples, frame), |Framed(whole, frame)|)..]
  {
    var p0 := start * segSamples;
    FirstFrame(start, segSamples, frame);
    var pChain, pEnc := PrimeStarts(p0, frame, encWindow, horizon, floor);
    srcPos := Enter(pChain, frame, headroom, l, m, floor);
    var q := CeilDiv(srcPos, l, m);
    LandsBefore(pChain, l, m, srcPos, q);
    TowardZero(floor, frame);
    EntersFromTop(pChain, WholeFloor(floor, frame), frame, l, m, srcPos, top);
    SettledAt(entered, whole, settle, top, l, m, srcPos, q, p0, p0 - q);
    Exact(p0 - pEnc, frame);
    Exact(p0, frame);
    enc, ok, faults := Run(entered(srcPos), q, channels, (p0 - pEnc) / frame, pEnc, frame, pEnc - q);
    if ok {
      RestartIsSuffix(whole, entered(srcPos), pEnc - q, p0 - q, p0 - pEnc, frame, enc.fed, (p0 - pEnc) / frame, p0,
                      p0 / frame);
    }
  }

  /** Where the run enters the source: a seek, except at the top of a stream with nothing ahead of it to prime with. */
  method Enter(pChain: int, frame: int, headroom: nat, l: int, m: int, floor: int) returns (srcPos: int)
    requires frame > 0 && 0 < l <= frame * m && m > 0 && floor <= pChain && floor <= 0 && pChain % frame == 0
    requires floor < 0 ==> headroom > HEADROOM_MARGIN && -floor * m <= (headroom - HEADROOM_MARGIN) * l
    ensures srcPos + headroom >= 0 && EntersAt(srcPos, pChain, l, m)
  {
    srcPos := 0;
    if pChain != 0 {
      srcPos := MapBack(pChain, l, m);
      if pChain > 0 {
        FrameRatio(pChain, frame, l, m);
      }
      SeekWithinHeadroom(pChain, l, m, srcPos, headroom, floor);
    }
  }

  lemma FirstFrame(start: nat, segSamples: nat, frame: nat)
    requires frame > 0 && segSamples % frame == 0
    ensures start * segSamples % frame == 0 && start * segSamples >= 0
  {
    var k := segSamples / frame;
    assert start * segSamples == start * k * frame;
    Multiple(start * k, frame);
  }

  method Run<T(0)>(stream: seq<seq<T>>, base: int, channels: nat, discard: nat, pEnc: int, frame: nat, ghost ahead: nat)
    returns (enc: Encoder<T>, ok: bool, ghost faults: nat)
    requires frame > 0 && ahead == pEnc - base && forall k :: 0 <= k < |stream| ==> |stream[k]| == channels
    ensures enc.Valid() && enc.discard == discard
    ensures if ok then enc.fed == Framed(Drop(stream, ahead), frame) else faults > 0
  {
    var chain := new Chain(stream, base, channels);
    var buf := new Buffer<T>(channels, STANDARD_CHUNK);
    var stage := new Buffer<T>(channels, frame);
    enc := new Encoder<T>(discard);
    ok := FeedEncoder(chain, buf, stage, enc, pEnc, frame, ahead);
    faults := chain.faults;
  }
}
