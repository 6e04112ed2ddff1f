/** Re-chunking stages (dsp/stages.go): a pump over a buffering kernel, and a framer to an encoder's frame length. */
module Stages {
  import opened Container

  /** A chunk of a stage: its frames, where the first lies, and whether a seek or a splice comes just before it. */
  datatype Chunk<T> = Chunk(s: seq<T>, pos: int, discont: bool)

  datatype Answer<T> = Got(chunk: Chunk<T>) | Eof | Failed

  /** What reaches a stage: chunks, none of them empty. */
  ghost predicate Stream<T>(up: seq<Chunk<T>>) { forall i :: 0 <= i < |up| ==> |up[i].s| > 0 }

  /** The chunk that starts the next segment, at or past the i-th: one marked as coming after a splice. */
  function NextSplice<T>(up: seq<Chunk<T>>, i: nat): (j: nat)
    requires i <= |up|
    ensures i <= j <= |up| && (j < |up| ==> up[j].discont) && forall k :: i <= k < j ==> !up[k].discont
    decreases |up| - i
  {
    if i == |up| || up[i].discont then i else NextSplice(up, i + 1)
  }

  /** The frames of the chunks [i, j), end to end. */
  function Frames<T>(up: seq<Chunk<T>>, i: nat, j: nat): seq<T>
    requires i <= j <= |up|
    decreases j - i
  {
    if i == j then [] else up[i].s + Frames(up, i + 1, j)
  }

  /** One chunk's frames, none of them fed. */
  lemma OneFrames<T>(up: seq<Chunk<T>>, i: nat, next: nat)
    requires i < |up| && next == i + 1
    ensures Frames(up, i, next) == up[i].s == [] + up[i].s[0..]
  {
    assert Frames(up, i, next) == up[i].s + Frames(up, next, next);
  }

  lemma {:induction false} FramesSnoc<T>(up: seq<Chunk<T>>, i: nat, j: nat)
    requires i <= j < |up|
    ensures Frames(up, i, j + 1) == Frames(up, i, j) + up[j].s
    decreases j - i
  {
    if i < j {
      FramesSnoc(up, i + 1, j);
      assert Frames(up, i, j + 1) == up[i].s + (Frames(up, i + 1, j) + up[j].s);
    } else {
      assert Frames(up, i, j + 1) == up[i].s + [];
    }
  }

  /** The frames of the segment that starts at chunk i. */
  function Segment<T>(up: seq<Chunk<T>>, i: nat): seq<T>
    requires i < |up|
  {
    Frames(up, i, NextSplice(up, i + 1))
  }

  /** A buffering kernel as a streaming function: anchored at an input position, a segment's frames become `full`, of
      which the first `ready` are settled before the segment is known to have ended; `start` is where they begin. */
  datatype Kernel<!T(!new)> = Kernel(full: (int, seq<T>) -> seq<T>, ready: (int, seq<T>) -> nat, start: int -> int) {

    /** What is settled never changes with what follows, and no input makes no output. */
    ghost predicate Causal() {
      && (forall a, x :: ready(a, x) <= |full(a, x)|) && (forall a :: full(a, []) == [])
      && forall a, x, y :: ready(a, x) <= ready(a, x + y) && full(a, x)[..ready(a, x)] == full(a, x + y)[..ready(a, x)]
    }

    lemma Settled(a: int, x: seq<T>, y: seq<T>)
      requires Causal()
      ensures ready(a, x) <= ready(a, x + y) <= |full(a, x + y)| && ready(a, x) <= |full(a, x)|
      ensures full(a, x)[..ready(a, x)] == full(a, x + y)[..ready(a, x)]
    {
    }

    /** A segment's whole output. */
    function Output(up: seq<Chunk<T>>, i: nat): seq<T>
      requires i < |up|
    {
      full(up[i].pos, Segment(up, i))
    }

    /** The segment output goes on in, once m frames of segment i's are out; |up| when there is none. */
    function Ahead(up: seq<Chunk<T>>, i: nat, m: nat): (r: (nat, nat))
      requires i <= |up|
      ensures i <= r.0 <= |up|
      decreases |up| - i
    {
      if i == |up| then (i, 0)
      else if m < |Output(up, i)| then (i, m)
      else Ahead(up, NextSplice(up, i + 1), 0)
    }

    lemma AheadSpent(up: seq<Chunk<T>>, i: nat, m: nat, next: nat)
      requires i < |up| && m >= |Output(up, i)| && next == NextSplice(up, i + 1)
      ensures Ahead(up, i, m) == Ahead(up, next, 0)
    {
    }

    lemma {:induction false} RestAhead(up: seq<Chunk<T>>, i: nat, m: nat)
      requires i <= |up| && (i < |up| ==> m <= |Output(up, i)|)
      ensures var (j, k) := Ahead(up, i, m);
        && (j < |up| ==> k < |Output(up, j)|)
        && Rest(up, i, m) == if j == |up| then [] else Output(up, j)[k..] + Rest(up, NextSplice(up, j + 1), 0)
      decreases |up| - i
    {
      if i < |up| && m == |Output(up, i)| {
        var next := NextSplice(up, i + 1);
        RestAhead(up, next, 0);
        assert Rest(up, i, m) == [] + Rest(up, next, 0) == Rest(up, next, 0);
      }
    }

    lemma GoesOn(up: seq<Chunk<T>>, i: nat, m: nat) returns (j: nat, k: nat)
      requires i <= |up| && (i < |up| ==> m <= |Output(up, i)|)
      ensures j <= |up| && Ahead(up, i, m) == (j, k) && (j < |up| ==> k < |Output(up, j)|)
      ensures Rest(up, i, m) == if j == |up| then [] else Output(up, j)[k..] + Rest(up, NextSplice(up, j + 1), 0)
    {
      var goal := Ahead(up, i, m);
      j, k := goal.0, goal.1;
      RestAhead(up, i, m);
    }

    lemma RestGoesOn(up: seq<Chunk<T>>, i: nat, m: nat, s: seq<T>)
      requires i < |up| && |s| <= m <= |Output(up, i)| && s == Output(up, i)[m - |s|..m]
      ensures Output(up, i)[m - |s|..] + Rest(up, NextSplice(up, i + 1), 0) == s + Rest(up, i, m)
    {
      var a, b := Output(up, i)[m..], Rest(up, NextSplice(up, i + 1), 0);
      assert Output(up, i)[m - |s|..] == s + a;
      assert (s + a) + b == s + (a + b);
    }

    /** What is still to come, to the end. */
    function Rest(up: seq<Chunk<T>>, i: nat, m: nat): seq<T>
      requires i <= |up| && (i < |up| ==> m <= |Output(up, i)|)
      decreases |up| - i
    {
      if i == |up| then [] else Output(up, i)[m..] + Rest(up, NextSplice(up, i + 1), 0)
    }
  }

  /** pumpStage: the kernel, the stashed input chunk, and the positions and splices the kernel is too low-level to
      see. */
  class Pump<T(!new)> {
    const kernel: Kernel<T>
    const up: seq<Chunk<T>>
    /** The chunks read from upstream; the last one is stashed. */
    var next: nat
    /** The stashed frames already fed to the kernel. */
    var off: nat
    var outPos: int
    var anchorPos: int
    var needAnchor: bool
    var splice: bool
    var markDiscont: bool
    var started: bool
    var eof: bool

    /** The kernel's own state: where it was anchored, what it was fed, how much of its output it has handed out. */
    var at: int
    var fed: seq<T>
    var made: nat

    /** The segment whose output is under way. */
    ghost var seg: nat
    /** How often upstream has failed. */
    ghost var faults: nat

    ghost predicate Valid()
      reads this
    {
      && kernel.Causal() && Stream(up) && next <= |up| && outPos == kernel.start(at) + made
      && if !started then next == 0 && off == 0 && seg == 0 && made == 0 && at == 0 && fed == [] && !splice &&
          !needAnchor && (eof ==> |up| == 0)
         else 0 < next && if splice || needAnchor then Spliced() else Running()
    }

    /** The stashed chunk starts the next segment, and this one's input is complete. */
    ghost predicate Spliced()
      requires 0 < next <= |up|
      reads this
    {
      && seg < next - 1 == NextSplice(up, seg + 1) && off == 0 && anchorPos == up[next - 1].pos && !eof &&
          !(splice && needAnchor)
      && at == up[seg].pos && fed == Segment(up, seg) && made <= |kernel.Output(up, seg)|
      && (needAnchor ==> made == |kernel.Output(up, seg)|)
    }

    /** The stashed chunk is this segment's, fed up to `off`. */
    ghost predicate Running()
      requires 0 < next <= |up|
      reads this
    {
      && seg < next <= NextSplice(up, seg + 1) && off <= |up[next - 1].s| && at == up[seg].pos
      && fed + up[next - 1].s[off..] == Frames(up, seg, next)
      && if eof then next == |up| && off == |up[next - 1].s| && made <= |kernel.full(at, fed)|
          else made <= kernel.ready(at, fed)
    }

    constructor (kernel: Kernel<T>, up: seq<Chunk<T>>)
      requires kernel.Causal() && Stream(up)
      ensures Valid() && this.kernel == kernel && this.up == up && seg == 0 && made == 0
    {
      this.kernel, this.up := kernel, up;
      next, off, anchorPos := 0, 0, 0;
      needAnchor, splice, markDiscont, started, eof := false, false, false, false, false;
      at, fed, made, seg, faults := 0, [], 0, 0, 0;
      outPos := kernel.start(0);
    }

    // ----- The kernel -----

    /** Feeds the kernel: it takes some input or makes some output, never more than it has settled. */
    method Process(src: seq<T>, room: nat) returns (out: seq<T>, consumed: nat)
      requires kernel.Causal() && |src| > 0 && room > 0 && made <= kernel.ready(at, fed)
      modifies `fed, `made
      ensures consumed <= |src| && fed == old(fed) + src[..consumed] && |out| <= room && made == old(made) + |out|
      ensures made <= kernel.ready(at, fed) <= |kernel.full(at, fed)| && out == kernel.full(at, fed)[old(made)..made]
      ensures |out| > 0 || consumed > 0
    {
      consumed := *;
      consumed := Min(Max(consumed, 0), |src|);
      if consumed == 0 && made == kernel.ready(at, fed) {
        consumed := 1;
      }
      ghost var was := fed;
      assert was + [] == was;
      fed := fed + src[..consumed];
      kernel.Settled(at, was, src[..consumed]);
      var n: int := *;
      n := Min(Max(n, 0), Min(room, kernel.ready(at, fed) - made));
      if n == 0 && consumed == 0 {
        n := 1;
      }
      out := kernel.full(at, fed)[made..made + n];
      made := made + n;
    }

    /** Drains the kernel of a segment that has ended: nothing only when it has handed everything out. */
    method Drain(room: nat) returns (out: seq<T>)
      requires made <= |kernel.full(at, fed)| && room > 0
      modifies `made
      ensures |out| <= room && made == old(made) + |out| <= |kernel.full(at, fed)| &&
          out == kernel.full(at, fed)[old(made)..made]
      ensures out == [] ==> made == |kernel.full(at, fed)|
    {
      var left := |kernel.full(at, fed)| - made;
      var n: int := *;
      n := Min(Max(n, 0), Min(room, left));
      if n == 0 && left > 0 {
        n := 1;
      }
      out := kernel.full(at, fed)[made..made + n];
      made := made + n;
    }

    /** Resets the kernel for a segment starting at an input position. */
    method Anchor(pos: int)
      modifies `at, `fed, `made, `outPos
      ensures at == pos && fed == [] && made == 0 && outPos == kernel.start(pos)
    {
      at, fed, made := pos, [], 0;
      outPos := kernel.start(pos);
    }

    // ----- One chunk -----

    /** A segment's first chunk is marked, unless it is the stream's own first and that came unmarked. */
    ghost predicate Mark(i: nat)
      requires i < |up|
    {
      i > 0 || up[0].discont
    }

    /** The next frame to hand out being the segment's m-th, whether its chunk is to be marked. */
    ghost predicate MarkedFor(m: int)
      requires Valid()
      reads this
    {
      started ==> markDiscont == (m == 0 && Mark(seg))
    }

    /** How much of the loop is left. */
    ghost function Work(): (r: (nat, nat, nat, nat))
      requires Valid()
      reads this
    {
      (|up| - next, if splice then 1 else 0, if next == 0 then 0 else |up[next - 1].s| - off, if eof then 0 else 1)
    }

    ghost predicate Less(a: (nat, nat, nat, nat), b: (nat, nat, nat, nat)) {
      a.0 < b.0 || (a.0 == b.0 && (a.1 < b.1 || (a.1 == b.1 && (a.2 < b.2 || (a.2 == b.2 && a.3 < b.3)))))
    }

    /** The kernel restarts on the stashed chunk's segment. */
    method Restart()
      requires Valid() && started && (needAnchor || (splice && made == |kernel.Output(up, seg)|))
      modifies `needAnchor, `splice, `markDiscont, `at, `fed, `made, `outPos, `seg
      ensures Valid() && MarkedFor(0) && !needAnchor && !splice && seg == NextSplice(up, old(seg) + 1) && made == 0
      ensures kernel.Ahead(up, old(seg), old(made)) == kernel.Ahead(up, seg, made)
    {
      AtSplice(next - 1);
      Reanchor();
    }

    method Reanchor()
      requires kernel.Causal() && Stream(up) && started && 1 < next <= |up| && off == 0 && !eof
      requires anchorPos == up[next - 1].pos
      modifies `needAnchor, `splice, `markDiscont, `at, `fed, `made, `outPos, `seg
      ensures Valid() && markDiscont && !needAnchor && !splice && seg == next - 1 && made == 0
    {
      needAnchor, splice, markDiscont := false, false, true;
      Anchor(anchorPos);
      seg := next - 1;
      Unfed();
    }

    /** At a splice the segment is out, and output goes on in the one the stashed chunk starts. */
    lemma AtSplice(last: int)
      requires Valid() && started && (needAnchor || (splice && made == |kernel.Output(up, seg)|)) && last == next - 1
      ensures seg < last < |up| && last == NextSplice(up, seg + 1) && off == 0 && !eof && anchorPos == up[last].pos
      ensures kernel.Ahead(up, seg, made) == kernel.Ahead(up, last, 0)
    {
      kernel.AheadSpent(up, seg, made, last);
    }

    /** A kernel anchored at the stashed chunk and fed nothing of it is running on its segment. */
    lemma Unfed()
      requires kernel.Causal() && Stream(up) && started && 0 < next <= |up| && off == 0 && !eof
      requires !splice && !needAnchor && seg == next - 1 && at == up[seg].pos && outPos == kernel.start(at)
      requires fed == [] && made == 0
      ensures Valid()
    {
      OneFrames(up, seg, next);
    }

    /** More of the segment's input into the kernel. */
    method Feed(room: nat) returns (got: seq<T>)
      requires Valid() && started && !splice && !needAnchor && !eof && room > 0 && off < |up[next - 1].s|
      modifies `fed, `made, `off, `outPos
      ensures Valid() && seg == old(seg) && |got| <= room && made == old(made) + |got| <= |kernel.Output(up, seg)|
      ensures got == kernel.Output(up, seg)[old(made)..made] && (got == [] ==> old(off) < off)
    {
      var src := up[next - 1].s[off..];
      ghost var was, before := made, fed;
      var consumed;
      got, consumed := Process(src, room);
      off := off + consumed;
      outPos := outPos + |got|;
      ghost var rest := up[next - 1].s[off..];
      assert src[consumed..] == rest;
      Parted(before, src, consumed);
      FedIsPrefix(fed, rest, was, made);
    }

    /** What the kernel was fed is the beginning of its segment, so what it has settled is the segment's output. */
    lemma FedIsPrefix(x: seq<T>, y: seq<T>, lo: nat, hi: nat)
      requires kernel.Causal() && seg < next <= |up| && next <= NextSplice(up, seg + 1) &&
          x + y == Frames(up, seg, next)
      requires lo <= hi <= kernel.ready(up[seg].pos, x)
      ensures hi <= |kernel.Output(up, seg)| && hi <= |kernel.full(up[seg].pos, x)|
      ensures kernel.full(up[seg].pos, x)[lo..hi] == kernel.Output(up, seg)[lo..hi]
    {
      var a, z := up[seg].pos, y + Frames(up, next, NextSplice(up, seg + 1));
      FramesSplit(up, seg, next, NextSplice(up, seg + 1));
      assert Segment(up, seg) == x + z;
      kernel.Settled(a, x, z);
      SameSlice(kernel.full(a, x), kernel.Output(up, seg), kernel.ready(a, x), lo, hi);
    }

    static lemma Parted(a: seq<T>, b: seq<T>, n: nat)
      requires n <= |b|
      ensures a + b == (a + b[..n]) + b[n..]
    {
    }

    static lemma SameSlice(a: seq<T>, b: seq<T>, n: nat, lo: nat, hi: nat)
      requires n <= |a| && n <= |b| && a[..n] == b[..n] && lo <= hi <= n
      ensures a[lo..hi] == b[lo..hi]
    {
      assert a[lo..hi] == a[..n][lo..hi] && b[lo..hi] == b[..n][lo..hi];
    }

    /** The end of a segment's input: the kernel's own backlog, then nothing. */
    method Flush(room: nat) returns (got: seq<T>)
      requires Valid() && room > 0 && (splice || eof)
      modifies `made, `outPos
      ensures Valid() && |got| <= room && made == old(made) + |got|
      ensures started ==> made <= |kernel.Output(up, seg)| && got == kernel.Output(up, seg)[old(made)..made]
      ensures got == [] && started ==> made == |kernel.Output(up, seg)|
      ensures !started ==> got == []
    {
      if started {
        SegmentFed();
      }
      got := Drain(room);
      outPos := outPos + |got|;
    }

    lemma SegmentFed()
      requires Valid() && started && (splice || eof)
      ensures fed == Segment(up, seg) && kernel.full(at, fed) == kernel.Output(up, seg) &&
          made <= |kernel.Output(up, seg)|
    {
      if !splice {
        assert up[next - 1].s[off..] == [] && fed + [] == fed;
      }
    }

    /** The next chunk from upstream: the stream's first, one of this segment's, or the next segment's, which waits. */
    method ReadUp() returns (failed: bool)
      requires Valid() && !splice && !needAnchor && !eof && (next == 0 || off == |up[next - 1].s|)
      modifies `next, `off, `eof, `started, `anchorPos, `splice, `at, `fed, `made, `outPos, `markDiscont, `faults
      ensures Valid() && seg == old(seg) && made == old(made) && !needAnchor &&
          (old(MarkedFor(made)) ==> MarkedFor(made))
      ensures old(started) ==> markDiscont == old(markDiscont) && outPos == old(outPos) && started
      ensures !failed ==>
          if old(next) == |up| then eof && next == |up| && started == old(started)
          else next == old(next) + 1 && started && !eof
      ensures faults >= old(faults) && (failed ==> faults > old(faults))
    {
      failed := *;
      if failed {
        faults := faults + 1;
        return;
      }
      if next == |up| {
        End();
      } else if started {
        Stash();
      } else {
        Begin();
      }
    }

    method End()
      requires Valid() && !splice && !needAnchor && !eof && next == |up| && (next == 0 || off == |up[next - 1].s|)
      modifies `eof
      ensures Valid() && eof
    {
      if started {
        AtSegmentEnd();
      }
      eof := true;
    }

    method Begin()
      requires Valid() && !started && next < |up|
      modifies `next, `off, `started, `at, `fed, `made, `outPos, `markDiscont
      ensures Valid() && seg == old(seg) && made == 0 && MarkedFor(0) && started && next == 1 && !eof && !needAnchor
    {
      var chunk := up[next];
      next, off, started := 1, 0, true;
      Anchor(chunk.pos);
      markDiscont := chunk.discont;
      assert chunk.s[0..] == chunk.s && [] + chunk.s == chunk.s && Frames(up, 0, 1) == chunk.s + [] == chunk.s;
    }

    method Stash()
      requires Valid() && started && !splice && !needAnchor && !eof && next < |up| && off == |up[next - 1].s|
      modifies `next, `off, `anchorPos, `splice
      ensures Valid() && next == old(next) + 1 && !needAnchor
    {
      var chunk := up[next];
      FramesSnoc(up, seg, next);
      assert up[next - 1].s[off..] == [] && fed + [] == fed;
      assert chunk.s[0..] == chunk.s;
      kernel.Settled(at, fed, []);
      next, off := next + 1, 0;
      if chunk.discont {
        anchorPos := chunk.pos;
        splice := true;
      }
    }

    lemma AtSegmentEnd()
      requires Valid() && started && !splice && !needAnchor && next == |up| && off == |up[next - 1].s|
      ensures made <= |kernel.full(at, fed)|
    {
      kernel.Settled(at, fed, []);
    }

    /** What one pass of the loop may do, `begun` when the chunk under way already holds frames: hand out more of the
        segment from its m-th frame on, make progress, or end the chunk - at the stream's end, or, begun, at the
        segment's. */
    ghost predicate Turned(room: nat, begun: bool, seg0: nat, made0: nat, mark0: bool, work0: (nat, nat, nat, nat),
                           got: seq<T>, stop: bool, m: nat)
      requires Valid() && seg0 <= |up|
      reads this
    {
      && |got| <= room && m + |got| == made && (|got| > 0 ==> !stop)
      && kernel.Ahead(up, seg0, made0) == kernel.Ahead(up, seg, m)
      && (|got| > 0 ==> started && made <= |kernel.Output(up, seg)| && got == kernel.Output(up, seg)[m..made])
      && (begun ==> started && seg == seg0 && m == made0 && markDiscont == mark0)
      && (!begun ==> MarkedFor(m)) && (!begun || !stop ==> !needAnchor)
      && (stop && !begun ==> kernel.Ahead(up, seg, made) == (|up|, 0))
      && (got == [] && !stop ==> Less(Work(), work0))
    }

    method TurnSplice(room: nat, begun: bool) returns (got: seq<T>, stop: bool, ghost m: nat)
      requires Valid() && room > 0 && splice && (!begun ==> MarkedFor(made))
      modifies `made, `outPos, `needAnchor, `splice, `markDiscont, `at, `fed, `seg
      ensures Valid() && seg <= |up| &&
          Turned(room, begun, old(seg), old(made), old(markDiscont), old(Work()), got, stop, m)
    {
      m, stop := made, false;
      got := Flush(room);
      if got == [] {
        if begun {
          splice, needAnchor, stop := false, true, true;
        } else {
          Restart();
          m := 0;
        }
      }
    }

    method TurnEnd(room: nat, begun: bool) returns (got: seq<T>, stop: bool)
      requires Valid() && room > 0 && eof && !splice && !needAnchor && (begun ==> started) &&
          (!begun ==> MarkedFor(made))
      modifies `made, `outPos
      ensures Valid() && seg <= |up|
      ensures Turned(room, begun, old(seg), old(made), old(markDiscont), old(Work()), got, stop, old(made))
    {
      got := Flush(room);
      stop := got == [];
    }

    method TurnFeed(room: nat, begun: bool) returns (got: seq<T>)
      requires Valid() && room > 0 && !eof && !splice && !needAnchor && next > 0 && off < |up[next - 1].s| &&
          (!begun ==> MarkedFor(made))
      modifies `fed, `made, `off, `outPos
      ensures Valid() && seg <= |up|
      ensures Turned(room, begun, old(seg), old(made), old(markDiscont), old(Work()), got, false, old(made))
    {
      got := Feed(room);
    }

    method TurnRead(room: nat, begun: bool) returns (failed: bool)
      requires Valid() && !splice && !needAnchor && !eof && (next == 0 || off == |up[next - 1].s|) &&
          (begun ==> started)
      requires !begun ==> MarkedFor(made)
      modifies `next, `off, `eof, `started, `anchorPos, `splice, `at, `fed, `made, `outPos, `markDiscont,
          `faults
      ensures Valid() && seg <= |up|
      ensures !failed ==> Turned(room, begun, old(seg), old(made), old(markDiscont), old(Work()), [], false, old(made))
      ensures faults >= old(faults) && (failed ==> faults > old(faults))
    {
      failed := ReadUp();
    }

    /** The switch of the pump loop. */
    method Turn(room: nat, begun: bool) returns (got: seq<T>, stop: bool, failed: bool, ghost m: nat)
      requires Valid() && room > 0 && !needAnchor && (begun ==> started) && (!begun ==> MarkedFor(made))
      modifies this
      ensures Valid() && seg <= |up| && (failed ==> got == [] && stop)
      ensures !failed ==> Turned(room, begun, old(seg), old(made), old(markDiscont), old(Work()), got, stop, m)
      ensures faults >= old(faults) && (failed ==> faults > old(faults))
    {
      got, stop, failed, m := [], false, false, made;
      if splice {
        got, stop, m := TurnSplice(room, begun);
      } else if next > 0 && off < |up[next - 1].s| {
        got := TurnFeed(room, begun);
      } else if eof {
        got, stop := TurnEnd(room, begun);
      } else {
        failed := TurnRead(room, begun);
        stop := failed;
      }
    }

    /** Between reads. */
    ghost predicate Idle()
      reads this
    {
      Valid() && (needAnchor || MarkedFor(made))
    }

    /** The chunk under way: frames of one segment's output from its m-th on, where they lie, and its mark. */
    ghost predicate UnderWay(out: seq<T>, pos: int, discont: bool, m: nat)
      requires Valid()
      reads this
    {
      && m + |out| == made
      && if out == [] then needAnchor || MarkedFor(made)
         else
           && started && made <= |kernel.Output(up, seg)| && out == kernel.Output(up, seg)[m..made]
           && pos == kernel.start(up[seg].pos) + m && discont == (m == 0 && Mark(seg)) && !markDiscont
    }

    /** mark: stamps a chunk with its first frames. */
    method MarkFirst(got: seq<T>, ghost m: nat) returns (pos: int, discont: bool)
      requires Valid() && 0 < |got| && m + |got| == made && started && markDiscont == (m == 0 && Mark(seg)) &&
          at == up[seg].pos
      requires made <= |kernel.Output(up, seg)| && got == kernel.Output(up, seg)[m..made]
      modifies `markDiscont
      ensures Valid() && UnderWay(got, pos, discont, m)
    {
      pos, discont := outPos - |got|, markDiscont;
      markDiscont := false;
    }

    lemma AnchoredAt()
      requires Valid() && started && !needAnchor
      ensures at == up[seg].pos
    {
    }

    /** Frames of the same segment go on where the chunk under way ends. */
    static lemma Extends(all: seq<T>, m: nat, out: seq<T>, mid: nat, got: seq<T>, made: nat)
      requires m <= mid <= made <= |all| && out == all[m..mid] && got == all[mid..made]
      ensures all[m..made] == out + got
    {
    }

    /** ReadChunk: the output's next frames, all of one segment, positions counted from its anchor, the mark on its
        first. A chunk with no room is answered as the end is, and nothing moves. */
    method ReadChunk(cap: nat) returns (r: Answer<T>)
      requires Idle()
      modifies this
      ensures Valid() && seg <= |up| && (!r.Failed? ==> Idle())
      ensures r.Got? ==>
        var (i, m) := kernel.Ahead(up, old(seg), old(made));
        && i == seg < |up| && m < made <= |kernel.Output(up, i)| && made - m <= cap
        && r.chunk == Chunk(kernel.Output(up, i)[m..made], kernel.start(up[i].pos) + m, m == 0 && Mark(i))
      ensures r.Eof? && cap > 0 ==> kernel.Ahead(up, old(seg), old(made)) == (|up|, 0)
      ensures cap == 0 ==> r == Eof && seg == old(seg) && made == old(made) && next == old(next) && off == old(off)
      ensures faults >= old(faults) && (r.Failed? ==> faults > old(faults))
    {
      if cap == 0 {
        return Eof;
      }
      ghost var goal, m := kernel.Ahead(up, seg, made), 0;
      var out: seq<T> := [];
      var pos, discont, failed := 0, false, false;
      out, pos, discont, failed, m := Pump(cap, goal);
      if failed {
        return Failed;
      }
      if out == [] {
        return Eof;
      }
      Starts(m);
      r := Got(Chunk(out, pos, discont));
    }

    /** Frames from the m-th on are still to come of the segment under way, so output goes on there. */
    lemma Starts(m: nat)
      requires seg < |up| && m < |kernel.Output(up, seg)|
      ensures kernel.Ahead(up, seg, m) == (seg, m)
    {
    }

    /** The output still goes on where it was to. */
    ghost predicate Bound(goal: (nat, nat), m: nat)
      reads `seg
    {
      seg <= |up| && kernel.Ahead(up, seg, m) == goal
    }

    /** The pump loop. */
    method Pump(cap: nat, ghost goal: (nat, nat))
        returns (out: seq<T>, pos: int, discont: bool, failed: bool, ghost m: nat)
      requires Idle() && cap > 0 && Bound(goal, made)
      modifies this
      ensures Valid() && |out| <= cap && (!failed ==> Idle() && UnderWay(out, pos, discont, m) && Bound(goal, m))
      ensures !failed && out == [] ==> goal == (|up|, 0)
      ensures faults >= old(faults) && (failed ==> faults > old(faults))
    {
      out, pos, discont, failed, m := FirstOutput(cap, goal);
      if failed || out == [] {
        return;
      }
      while |out| < cap
        invariant Valid() && 0 < |out| <= cap && UnderWay(out, pos, discont, m) && !needAnchor && Bound(goal, m)
        invariant !failed && faults >= old(faults)
        decreases cap - |out|, |up| - next, if splice then 1 else 0, if next == 0 then 0
            else |up[next - 1].s| - off, if eof then 0 else 1
      {
        var stop;
        out, stop, failed := MoreOutput(cap, out, pos, discont, goal, m);
        if stop {
          return;
        }
      }
    }

    /** The passes that come before a chunk's first frames. */
    method FirstOutput(cap: nat, ghost goal: (nat, nat))
        returns (out: seq<T>, pos: int, discont: bool, failed: bool, ghost m: nat)
      requires Idle() && cap > 0 && Bound(goal, made)
      modifies this
      ensures Valid() && |out| <= cap && (!failed ==> Idle() && UnderWay(out, pos, discont, m) && Bound(goal, m))
      ensures !failed && out == [] ==> goal == (|up|, 0)
      ensures out != [] ==> !needAnchor
      ensures faults >= old(faults) && (failed ==> faults > old(faults))
    {
      if needAnchor {
        Restart();
      }
      while true
        invariant Valid() && !needAnchor && MarkedFor(made) && Bound(goal, made) && faults >= old(faults)
        decreases |up| - next, if splice then 1 else 0, if next == 0 then 0 else |up[next - 1].s| - off, if eof then 0
            else 1
      {
        var stop;
        out, pos, discont, stop, failed, m := FirstPass(cap, goal);
        if stop {
          return;
        }
      }
    }

    /** One of them: the chunk's first frames, its end, or progress. */
    method FirstPass(cap: nat, ghost goal: (nat, nat))
      returns (out: seq<T>, pos: int, discont: bool, stop: bool, failed: bool, ghost m: nat)
      requires Valid() && !needAnchor && MarkedFor(made) && cap > 0 && Bound(goal, made)
      modifies this
      ensures Valid() && |out| <= cap && (failed ==> stop && out == []) &&
          (!failed ==> UnderWay(out, pos, discont, m) && Bound(goal, m))
      ensures !failed ==> !needAnchor && (stop && out == [] ==> goal == (|up|, 0)) && (out != [] ==> stop)
      ensures !failed ==> Idle()
      ensures !stop ==> MarkedFor(made) && Less(Work(), old(Work())) && m == made
      ensures faults >= old(faults) && (failed ==> faults > old(faults))
    {
      pos, discont := 0, false;
      out, stop, failed, m := Turn(cap, false);
      if out != [] {
        AnchoredAt();
        pos, discont := MarkFirst(out, m);
        stop := true;
      }
    }

    /** A pass over a chunk that already holds frames. */
    method MoreOutput(cap: nat, out: seq<T>, pos: int, discont: bool, ghost goal: (nat, nat), ghost m: nat)
      returns (out': seq<T>, stop: bool, failed: bool)
      requires Valid() && UnderWay(out, pos, discont, m) && 0 < |out| < cap && !needAnchor && Bound(goal, m)
      modifies this
      ensures Valid() && |out'| <= cap && (failed ==> stop)
      ensures !failed ==> |out| <= |out'| && UnderWay(out', pos, discont, m) && Bound(goal, m) && Idle()
      ensures !stop ==> !needAnchor && (|out| < |out'| || Less(Work(), old(Work())))
      ensures faults >= old(faults) && (failed ==> faults > old(faults))
    {
      var got;
      ghost var mid, all;
      got, stop, failed, mid := Turn(cap - |out|, true);
      out' := out + got;
      if !failed && got != [] {
        all := kernel.Output(up, seg);
        Extends(all, m, out, mid, got, made);
      } else {
        assert out + [] == out;
      }
    }

    // ----- Whole runs -----

    lemma MadeInside()
      requires Idle()
      ensures seg <= |up| && (seg < |up| ==> made <= |kernel.Output(up, seg)|)
    {
      if started && !splice && !needAnchor {
        var a, z := up[seg].pos, Frames(up, next, NextSplice(up, seg + 1));
        FramesSplit(up, seg, next, NextSplice(up, seg + 1));
        if eof {
          SegmentFed();
        } else {
          FedIsPrefix(fed, up[next - 1].s[off..], 0, made);
        }
      }
    }

    /** Any reader at all, with whatever capacities: what it gets is every segment's whole output, end to end, however
        the input came in chunks. */
    method ReadAll() returns (done: bool, s: seq<T>)
      requires Idle() && seg == 0 && made == 0
      modifies this
      ensures done ==> s == kernel.Rest(up, 0, 0)
      ensures faults >= old(faults) && (!done ==> faults > old(faults))
    {
      s := [];
      ghost var all := kernel.Rest(up, 0, 0);
      while true
        invariant Idle() && seg <= |up| && (seg < |up| ==> made <= |kernel.Output(up, seg)|)
        invariant s + kernel.Rest(up, seg, made) == all && faults >= old(faults)
        decreases |all| - |s|
      {
        var r := ReadNext(s, all);
        if !r.Got? {
          return r.Eof?, s;
        }
        s := s + r.chunk.s;
      }
    }

    method ReadNext(before: seq<T>, ghost all: seq<T>) returns (r: Answer<T>)
      requires Idle() && seg <= |up| && (seg < |up| ==> made <= |kernel.Output(up, seg)|)
      requires before + kernel.Rest(up, seg, made) == all
      modifies this
      ensures r.Got? ==> Idle() && |r.chunk.s| > 0 && seg < |up| && made <= |kernel.Output(up, seg)|
      ensures r.Got? ==> before + r.chunk.s + kernel.Rest(up, seg, made) == all
      ensures r.Eof? ==> before == all
      ensures faults >= old(faults) && (r.Failed? ==> faults > old(faults))
    {
      ghost var j, f := kernel.GoesOn(up, seg, made);
      r := ReadPart(j, f);
      if r.Got? {
        Onward(before, r.chunk.s, all, j, f);
      } else if r.Eof? {
        assert before + [] == before;
      }
    }

    method ReadPart(ghost j: nat, ghost f: nat) returns (r: Answer<T>)
      requires Idle() && kernel.Ahead(up, seg, made) == (j, f)
      modifies this
      ensures r.Got? ==>
          Idle() && 0 < |r.chunk.s| <= made && seg == j < |up| && f + |r.chunk.s| == made <= |kernel.Output(up, j)|
      ensures r.Got? ==> r.chunk.s == kernel.Output(up, j)[f..made]
      ensures r.Eof? ==> j == |up|
      ensures faults >= old(faults) && (r.Failed? ==> faults > old(faults))
    {
      var cap: nat :| cap > 0;
      r := ReadChunk(cap);
    }

    lemma Onward(before: seq<T>, s: seq<T>, all: seq<T>, j: nat, f: nat)
      requires seg == j < |up| && f + |s| == made <= |kernel.Output(up, j)| && s == kernel.Output(up, j)[f..made]
      requires before + (kernel.Output(up, j)[f..] + kernel.Rest(up, NextSplice(up, j + 1), 0)) == all
      ensures before + s + kernel.Rest(up, seg, made) == all
    {
      kernel.RestGoesOn(up, seg, made, s);
      var rest := kernel.Rest(up, seg, made);
      assert before + (s + rest) == before + s + rest;
    }
  }

  lemma Grouped<T>(a: seq<T>, b: seq<T>, c: seq<T>)
    ensures a + (b + c) == (a + b) + c
  {
  }

  lemma {:induction false} FramesSplit<T>(up: seq<Chunk<T>>, i: nat, j: nat, k: nat)
    requires i <= j <= k <= |up|
    ensures Frames(up, i, k) == Frames(up, i, j) + Frames(up, j, k)
    decreases j - i
  {
    if i < j {
      FramesSplit(up, i + 1, j, k);
      Grouped(up[i].s, Frames(up, i + 1, j), Frames(up, j, k));
    } else {
      assert [] + Frames(up, j, k) == Frames(up, j, k);
    }
  }

  lemma NoFrames<T>(up: seq<Chunk<T>>, i: nat, j: nat)
    requires Stream(up) && i <= j <= |up| && Frames(up, i, j) == []
    ensures i == j
  {
  }

  // ----- The framer -----

  /** framerStage: the stream in chunks of exactly `size` frames, short only before a splice or at the end. */
  class Framer<T> {
    const size: nat
    const up: seq<Chunk<T>>
    var next: nat
    var off: nat
    var pendDiscont: bool
    var eof: bool
    /** How often upstream has failed. */
    ghost var faults: nat

    ghost predicate Valid()
      reads this
    {
      size > 0 && Stream(up) && next <= |up| && off <= (if next == 0 then 0 else |up[next - 1].s|) &&
          (eof ==> next == |up| && Spent())
    }

    /** The stashed chunk is used up. */
    ghost predicate Spent()
      requires next <= |up|
      reads this
    {
      next == 0 || off >= |up[next - 1].s|
    }

    /** The frames left of the stash and of the chunks that follow it without a splice. */
    ghost function Run(): seq<T>
      requires Valid()
      reads this
    {
      (if next == 0 then [] else up[next - 1].s[off..]) + Frames(up, next, NextSplice(up, next))
    }

    /** What the next chunk is cut from: the segment under way, or the one upstream starts next. */
    ghost function Left(): seq<T>
      requires Valid()
      reads this
    {
      if !Spent() then Run() else if next == |up| then [] else Frames(up, next, NextSplice(up, next + 1))
    }

    /** Where its first frame lies, and whether a splice comes before it. */
    ghost function Pos(): int
      requires Valid() && (!Spent() || next < |up|)
      reads this
    {
      if !Spent() then up[next - 1].pos + off else up[next].pos
    }

    ghost function Mark(): bool
      requires Valid() && (!Spent() || next < |up|)
      reads this
    {
      pendDiscont || (Spent() && up[next].discont)
    }

    constructor (size: nat, up: seq<Chunk<T>>)
      requires size > 0 && Stream(up)
      ensures Valid() && this.size == size && this.up == up && next == 0 && !pendDiscont
    {
      this.size, this.up := size, up;
      next, off, pendDiscont, eof, faults := 0, 0, false, false, 0;
    }

    /** Another chunk from upstream into the stash. */
    method ReadUp() returns (failed: bool)
      requires Valid() && Spent() && !eof
      modifies `next, `off, `pendDiscont, `eof, `faults
      ensures Valid()
      ensures failed ==> next == old(next) && eof == old(eof)
      ensures !failed && old(next) == |up| ==> eof && next == |up| && pendDiscont == old(pendDiscont)
      ensures !failed && old(next) < |up| ==>
          next == old(next) + 1 && off == 0 && !eof && pendDiscont == (old(pendDiscont) || up[next - 1].discont)
      ensures faults >= old(faults) && (failed ==> faults > old(faults))
    {
      failed := *;
      if failed {
        faults := faults + 1;
        return;
      }
      if next == |up| {
        eof := true;
        return;
      }
      next, off := next + 1, 0;
      if up[next - 1].discont {
        pendDiscont := true;
      }
    }

    /** ReadChunk: the next `size` frames, or what is left before a splice or the end. */
    method ReadChunk(cap: nat) returns (r: Answer<T>)
      requires Valid()
      modifies `next, `off, `pendDiscont, `eof, `faults
      ensures Valid() && (cap < size ==> r.Failed?)
      ensures r.Got? ==> (!old(Spent()) || old(next) < |up|) && |r.chunk.s| == Min(size, |old(Left())|) > 0
      ensures r.Got? ==> r.chunk == Chunk(old(Left())[..|r.chunk.s|], old(Pos()), old(Mark()))
      ensures r.Got? && |r.chunk.s| < |old(Left())| ==> Run() == old(Left())[|r.chunk.s|..] && !pendDiscont
      ensures r.Got? && |r.chunk.s| == |old(Left())| ==> Ended()
      ensures r.Eof? ==> old(Left()) == [] && Left() == []
      ensures faults >= old(faults) && (r.Failed? ==> cap < size || faults > old(faults))
    {
      if cap < size {
        return Failed;
      }
      ghost var left := Left();
      var pos, discont, failed, s := 0, false, false, [];
      s, pos, discont, failed := FirstPart();
      if failed {
        return Failed;
      }
      if s == [] {
        return Eof;
      }
      var more;
      s, more, failed := OtherParts(s, left);
      if failed {
        return Failed;
      }
      r := Got(Chunk(s, pos, discont));
      Framed(left, s, more);
    }

    /** What a chunk takes of what was left, and what it leaves. */
    lemma Framed(left: seq<T>, s: seq<T>, more: bool)
      requires Valid() && 0 < |s| <= size
      requires if more then |s| == size && s + Run() == left && !pendDiscont else s == left && Ended()
      ensures |s| == Min(size, |left|) && s == left[..|s|]
      ensures |s| < |left| ==> Run() == left[|s|..] && !pendDiscont
      ensures |s| == |left| ==> Ended()
    {
      Cut(left, s, if more then Run() else []);
      if more && Run() == [] {
        RunSpent();
      }
    }

    /** The loop: until the frame is full, or a splice or the end cuts it short. */
    method OtherParts(first: seq<T>, ghost left: seq<T>) returns (s: seq<T>, more: bool, failed: bool)
      requires Valid() && 0 < |first| <= size && first + Run() == left && !pendDiscont
      modifies `next, `off, `pendDiscont, `eof, `faults
      ensures Valid() && |first| <= |s| <= size &&
          (!failed ==> if more then |s| == size && s + Run() == left && !pendDiscont else s == left && Ended())
      ensures faults >= old(faults) && (failed ==> faults > old(faults))
    {
      s, more, failed := first, true, false;
      while |s| < size && more
        invariant faults >= old(faults)
        invariant Valid() && |first| <= |s| <= size && if more then s + Run() == left && !pendDiscont
            else s == left && Ended()
        decreases more, size - |s|
      {
        s, more, failed := MorePart(s, left);
        if failed {
          return;
        }
      }
    }

    /** The segment is at its end: nothing is left of it, and the chunk that starts the next one waits, or there is
        none. */
    ghost predicate Ended()
      requires next <= |up|
      reads this
    {
      (Spent() && NextSplice(up, next) == next && !pendDiscont) ||
          (next > 0 && off == 0 && up[next - 1].discont && pendDiscont)
    }

    static lemma Cut(left: seq<T>, s: seq<T>, rest: seq<T>)
      requires s + rest == left
      ensures |s| <= |left| && left[..|s|] == s && left[|s|..] == rest
    {
    }

    lemma RunSpent()
      requires Valid() && Run() == []
      ensures Spent() && NextSplice(up, next) == next
    {
      NoFrames(up, next, NextSplice(up, next));
    }

    /** Frames of the stash, as many as fit. */
    method TakeStash(room: nat) returns (s: seq<T>)
      requires Valid() && !Spent() && !eof && room > 0
      modifies `off
      ensures Valid() && 0 < |s| <= room && |s| <= |old(Run())| && old(Run()) == s + Run()
    {
      var n := Min(room, |up[next - 1].s| - off);
      s := up[next - 1].s[off..off + n];
      ghost var rest := Frames(up, next, NextSplice(up, next));
      assert up[next - 1].s[off..] == s + up[next - 1].s[off + n..];
      assert (s + up[next - 1].s[off + n..]) + rest == s + (up[next - 1].s[off + n..] + rest);
      off := off + n;
    }

    /** The frames that start a chunk. */
    method FirstPart() returns (s: seq<T>, pos: int, discont: bool, failed: bool)
      requires Valid()
      modifies `next, `off, `pendDiscont, `eof, `faults
      ensures Valid() && |s| <= size
      ensures !failed && s == [] ==> old(Left()) == [] && Left() == []
      ensures !failed && s != [] ==> (!old(Spent()) || old(next) < |up|) && pos == old(Pos()) && discont == old(Mark())
      ensures !failed && s != [] ==> s + Run() == old(Left()) && !pendDiscont
      ensures faults >= old(faults) && (failed ==> faults > old(faults))
    {
      s, pos, discont, failed := [], 0, false, false;
      if next == 0 || off >= |up[next - 1].s| {
        if eof {
          return;
        }
        ghost var left := Left();
        failed := ReadUp();
        if failed || eof {
          return;
        }
        assert up[next - 1].s[0..] == up[next - 1].s;
        assert Run() == left;
      }
      pos, discont := up[next - 1].pos + off, pendDiscont;
      pendDiscont := false;
      s := TakeStash(size);
    }

    /** More frames of a chunk: of the stash, or of the next chunk unless a splice comes before it. */
    method MorePart(s: seq<T>, ghost left: seq<T>) returns (s': seq<T>, more: bool, failed: bool)
      requires Valid() && 0 < |s| < size && s + Run() == left && !pendDiscont
      modifies `next, `off, `pendDiscont, `eof, `faults
      ensures Valid() &&
          (!failed ==> |s| <= |s'| <= size && (more ==> |s| < |s'| && s' + Run() == left && !pendDiscont))
      ensures |s'| <= size && |s| <= |s'| && (!failed && !more ==> s' == left && Ended())
      ensures faults >= old(faults) && (failed ==> faults > old(faults))
    {
      s', more, failed := s, true, false;
      if next == 0 || off >= |up[next - 1].s| {
        more, failed := NextStash(Run());
        if failed || !more {
          assert s + [] == s;
          return;
        }
      }
      var got := TakeStash(size - |s|);
      Grouped(s, got, Run());
      s' := s + got;
    }

    /** The stash used up: the chunk that goes on with the segment, when there is one before a splice and the end. */
    method NextStash(ghost run: seq<T>) returns (more: bool, failed: bool)
      requires Valid() && Spent() && run == Run() && !pendDiscont
      modifies `next, `off, `pendDiscont, `eof, `faults
      ensures Valid() && (failed ==> !more) && (more ==> !Spent() && !eof && Run() == run && !pendDiscont)
      ensures !failed && !more ==> run == [] && Ended()
      ensures faults >= old(faults) && (failed ==> faults > old(faults))
    {
      more, failed := false, false;
      if eof {
        return;
      }
      assert run == Frames(up, next, NextSplice(up, next));
      failed := ReadUp();
      if failed || eof || up[next - 1].discont {
        return;
      }
      assert up[next - 1].s[0..] == up[next - 1].s;
      more := true;
    }
  }

  // ----- Chunking does not matter -----

  /** A stream's segments, whatever chunks they come in: where each is anchored, and its frames. */
  function Segments<T>(up: seq<Chunk<T>>, i: nat): seq<(int, seq<T>)>
    requires i <= |up|
    decreases |up| - i
  {
    if i == |up| then [] else [(up[i].pos, Segment(up, i))] + Segments(up, NextSplice(up, i + 1))
  }

  function Outputs<T(!new)>(k: Kernel<T>, segments: seq<(int, seq<T>)>): seq<T> {
    if |segments| == 0 then [] else k.full(segments[0].0, segments[0].1) + Outputs(k, segments[1..])
  }

  lemma {:induction false} RestIsOutputs<T(!new)>(k: Kernel<T>, up: seq<Chunk<T>>, i: nat)
    requires i <= |up|
    ensures k.Rest(up, i, 0) == Outputs(k, Segments(up, i))
    decreases |up| - i
  {
    if i < |up| {
      RestIsOutputs(k, up, NextSplice(up, i + 1));
      assert Segments(up, i)[1..] == Segments(up, NextSplice(up, i + 1));
    }
  }

  /** Chunking independence: streams of the same segments come out of the stage the same, chunk by chunk as they may. */
  lemma ChunkingIndependence<T(!new)>(k: Kernel<T>, up: seq<Chunk<T>>, other: seq<Chunk<T>>)
    requires Segments(up, 0) == Segments(other, 0)
    ensures k.Rest(up, 0, 0) == k.Rest(other, 0, 0)
  {
    RestIsOutputs(k, up, 0);
    RestIsOutputs(k, other, 0);
  }
}
