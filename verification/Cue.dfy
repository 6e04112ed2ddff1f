/** Dividing a file by its CUE sheet (cue/cue.go): where each track starts, and the pieces a split writes or skips. */
module Cue {
  import opened Container
  import Slice
  import Timeline

  /** An INDEX point: its number, and how many CD frames into the file it lies. */
  datatype Index = Index(number: int, frame: nat)

  /** A track: its number, -1 when unreadable, and its datatype down to whether it is audio and whether its sectors are
      raw. */
  datatype Track = Track(number: int, audio: bool, raw: bool, indexes: seq<Index>)

  /** Samples [from, end), `end` negative for the file's end; `track` is -1 for audio ahead of the first track. */
  datatype Piece = Piece(from: int, end: int, track: int, audio: bool)

  const FRAMES_PER_SECOND: int := 75

  function Samples(frames: nat, rate: nat): nat { frames * rate / FRAMES_PER_SECOND }

  /** Frames ascend to samples, and at a rate of at least 75 Hz two frames never share one. */
  lemma SamplesAscend(a: nat, b: nat, rate: nat)
    requires a < b
    ensures Samples(a, rate) <= Samples(b, rate) && (rate >= FRAMES_PER_SECOND ==> Samples(a, rate) < Samples(b, rate))
  {
    Gap(a, b, rate);
    Divides(a * rate, b * rate, rate);
  }

  lemma Gap(a: nat, b: nat, rate: nat)
    requires a < b
    ensures a * rate + rate <= b * rate
  {
    assert a * rate + rate == (a + 1) * rate;
  }

  lemma Divides(x: nat, y: nat, rate: nat)
    requires x + rate <= y
    ensures x / FRAMES_PER_SECOND <= y / FRAMES_PER_SECOND
    ensures rate >= FRAMES_PER_SECOND ==> x / FRAMES_PER_SECOND < y / FRAMES_PER_SECOND
  {
  }

  /** The frame of the first index numbered 1, which is where a track's audio starts. */
  function Start(indexes: seq<Index>): Option<nat> {
    if indexes == [] then None else if indexes[0].number == 1 then Some(indexes[0].frame) else Start(indexes[1..])
  }

  /** The frame of the first index numbered 1 or less. */
  function Earliest(indexes: seq<Index>): Option<nat> {
    if indexes == [] then None else if indexes[0].number <= 1 then Some(indexes[0].frame) else Earliest(indexes[1..])
  }

  /** boundary: the frame track i's piece begins at. */
  function Boundary(tracks: seq<Track>, i: nat): Option<nat>
    requires i < |tracks|
  {
    if tracks[i].audio then Start(tracks[i].indexes) else if i == 0 then Some(0) else Earliest(tracks[i].indexes)
  }

  /** The frame the next track may not precede. */
  function Floor(t: Track, start: nat): nat {
    if !t.audio && Start(t.indexes).Some? && Start(t.indexes).value > start then Start(t.indexes).value else start
  }

  predicate Follows(prev: Track, prevStart: nat, start: nat) {
    var floor := Floor(prev, prevStart);
    start > floor || (start == floor && !prev.audio)
  }

  /** A track starts at or past the one before it: past an audio one, and nowhere short of a data track's INDEX 01. */
  lemma FollowsWhen(prev: Track, prevStart: nat, start: nat)
    ensures Follows(prev, prevStart, start) <==>
      if prev.audio then prevStart < start
      else prevStart <= start && (Start(prev.indexes).Some? ==> Start(prev.indexes).value <= start)
  {
  }

  /** Tracks that divide a file: numbered, each with a start, and none starting inside the one before it. */
  predicate Ascends(tracks: seq<Track>, k: nat)
    requires k <= |tracks|
  {
    && (forall i :: 0 <= i < k ==> tracks[i].number >= 0 && Boundary(tracks, i).Some?)
    && forall i :: 0 < i < k ==> Follows(tracks[i - 1], Boundary(tracks, i - 1).value, Boundary(tracks, i).value)
  }

  /** Starts: every track's start in samples, for exactly the sheets whose tracks ascend. */
  method Starts(tracks: seq<Track>, rate: nat) returns (out: Option<seq<nat>>)
    ensures out.Some? <==> tracks != [] && Ascends(tracks, |tracks|)
    ensures out.Some? ==> out.value == StartSamples(tracks, rate)
  {
    if |tracks| == 0 {
      return None;
    }
    var starts: seq<nat> := [];
    var floor := 0;
    for i := 0 to |tracks|
      invariant Ascends(tracks, i) && |starts| == i
      invariant i > 0 ==> floor == Floor(tracks[i - 1], Boundary(tracks, i - 1).value)
      invariant forall j :: 0 <= j < i ==> starts[j] == Samples(Boundary(tracks, j).value, rate)
    {
      var t := tracks[i];
      var start := Boundary(tracks, i);
      if t.number < 0 || start.None? {
        return None;
      }
      if i > 0 && (start.value < floor || (start.value == floor && tracks[i - 1].audio)) {
        assert !Follows(tracks[i - 1], Boundary(tracks, i - 1).value, Boundary(tracks, i).value);
        return None;
      }
      floor := start.value;
      var indexed := Start(t.indexes);
      if indexed.Some? && !t.audio && indexed.value > floor {
        floor := indexed.value;
      }
      starts := starts + [Samples(start.value, rate)];
    }
    return Some(starts);
  }

  function StartSamples(tracks: seq<Track>, rate: nat): (r: seq<nat>)
    requires Ascends(tracks, |tracks|)
    ensures |r| == |tracks| && forall i :: 0 <= i < |tracks| ==> r[i] == Samples(Boundary(tracks, i).value, rate)
  {
    seq(|tracks|, i requires 0 <= i < |tracks| => Samples(Boundary(tracks, i).value, rate))
  }

  /** A track's start lies at or past every earlier start, past an earlier audio one, and past where an earlier data
      track's INDEX 01 says it runs to. */
  lemma {:induction false} StartsAscend(tracks: seq<Track>, i: nat, j: nat)
    requires i < j < |tracks| && Ascends(tracks, |tracks|)
    ensures var a, b := Boundary(tracks, i).value, Boundary(tracks, j).value;
      Floor(tracks[i], a) <= b && (tracks[i].audio ==> a < b)
    decreases j
  {
    assert Follows(tracks[j - 1], Boundary(tracks, j - 1).value, Boundary(tracks, j).value);
    if i < j - 1 {
      StartsAscend(tracks, i, j - 1);
    }
  }

  // ----- The pieces -----

  predicate HasAudio(tracks: seq<Track>) { exists i :: 0 <= i < |tracks| && tracks[i].audio }

  /** The division before anything is absorbed: what precedes track 1, and a piece a track. */
  function All(tracks: seq<Track>, starts: seq<nat>, precededByData: bool): (r: seq<Piece>)
    requires |starts| == |tracks| > 0
    ensures |r| == |tracks| + if starts[0] > 0 then 1 else 0
  {
    (if starts[0] > 0 then [Piece(0, starts[0], -1, !precededByData)] else []) +
    seq(|tracks|, i requires 0 <= i < |tracks| => TrackPiece(tracks, starts, i))
  }

  /** A track's span: to the next one's start, or to the end. */
  function TrackPiece(tracks: seq<Track>, starts: seq<nat>, i: nat): Piece
    requires i < |starts| == |tracks|
  {
    Piece(starts[i], if i + 1 < |starts| then starts[i + 1] else -1, i, tracks[i].audio)
  }

  /** The file holds none of a data track's span. */
  predicate Absorbed(p: Piece, total: int) { !p.audio && (p.end == p.from || (total >= 0 && p.from >= total)) }

  predicate Past(p: Piece, total: int) { p.audio && total >= 0 && p.from >= total }

  predicate AudioAfter(all: seq<Piece>, i: nat) { exists j :: i < j < |all| && all[j].audio }

  /** A data track of cooked sectors occupies the file ahead of audio. */
  predicate Cooked(tracks: seq<Track>, all: seq<Piece>, i: nat, total: int)
    requires i < |all| && all[i].track < |tracks|
  {
    !all[i].audio && !Absorbed(all[i], total) && all[i].track >= 0 && AudioAfter(all, i) && !tracks[all[i].track].raw
  }

  /** The first k pieces the file holds. */
  function Held(all: seq<Piece>, total: int, k: nat): seq<Piece>
    requires k <= |all|
  {
    if k == 0 then [] else Held(all, total, k - 1) + if Absorbed(all[k - 1], total) then [] else [all[k - 1]]
  }

  /** Pieces that each run on to the next, the last to `end`. */
  function Joined(ps: seq<Piece>, end: int): (r: seq<Piece>)
    ensures |r| == |ps|
  {
    seq(|ps|, i requires 0 <= i < |ps| => ps[i].(end := if i + 1 < |ps| then ps[i + 1].from else end))
  }

  ghost predicate Fits(tracks: seq<Track>, all: seq<Piece>, total: int, k: nat)
    requires k <= |all| && forall i :: 0 <= i < |all| ==> all[i].track < |tracks|
  {
    forall i :: 0 <= i < k ==> !Past(all[i], total) && !Cooked(tracks, all, i, total)
  }

  ghost predicate Accepted(tracks: seq<Track>, rate: nat, total: int, precededByData: bool) {
    && HasAudio(tracks) && Ascends(tracks, |tracks|) && |tracks| > 1
    && var all := All(tracks, StartSamples(tracks, rate), precededByData);
       Fits(tracks, all, total, |all|) && |Held(all, total, |all|)| >= 2
  }

  ghost function Division(tracks: seq<Track>, rate: nat, total: int, precededByData: bool): seq<Piece>
    requires Ascends(tracks, |tracks|) && tracks != []
  {
    var all := All(tracks, StartSamples(tracks, rate), precededByData);
    Joined(Held(all, total, |all|), -1)
  }

  /** Pieces: the division of the file, for exactly the sheets that have one. */
  method Pieces(tracks: seq<Track>, rate: nat, total: int, precededByData: bool) returns (out: Option<seq<Piece>>)
    ensures out.Some? <==> Accepted(tracks, rate, total, precededByData)
    ensures out.Some? ==> out.value == Division(tracks, rate, total, precededByData)
  {
    if !HasAudio(tracks) {
      return None;
    }
    var starts := Starts(tracks, rate);
    if starts.None? || |tracks| == 1 {
      return None;
    }
    var all := Divide(tracks, starts.value, precededByData);
    AllAbut(tracks, starts.value, precededByData);
    out := Keep(tracks, all, total);
    if out.Some? && |out.value| < 2 {
      out := None;
    }
  }

  method Divide(tracks: seq<Track>, starts: seq<nat>, precededByData: bool) returns (all: seq<Piece>)
    requires |starts| == |tracks| > 0
    ensures all == All(tracks, starts, precededByData)
  {
    all := [];
    if starts[0] > 0 {
      all := all + [Piece(0, starts[0], -1, !precededByData)];
    }
    ghost var lead, rest: seq<Piece> := all, [];
    for i := 0 to |tracks|
      invariant all == lead + rest
      invariant rest == seq(i, j requires 0 <= j < i => TrackPiece(tracks, starts, j))
    {
      var p := Piece(starts[i], -1, i, tracks[i].audio);
      if i + 1 < |starts| {
        p := p.(end := starts[i + 1]);
      }
      all := all + [p];
      rest := rest + [p];
    }
  }

  /** The pieces of a division abut. */
  predicate RunsOn(all: seq<Piece>, i: nat)
    requires i < |all| - 1
  {
    all[i].end == all[i + 1].from
  }

  ghost predicate Abut(all: seq<Piece>) {
    && (forall i :: 0 <= i < |all| - 1 ==> RunsOn(all, i))
    && (all != [] ==> all[|all| - 1].end == -1)
  }

  /** The last audio piece, which is the first piece when none follows it. */
  method LastAudio(all: seq<Piece>) returns (last: nat)
    ensures forall i :: 0 <= i < |all| ==> (i < last <==> AudioAfter(all, i))
  {
    last := 0;
    for i := 0 to |all|
      invariant last == 0 || (last < i && all[last].audio)
      invariant forall j :: last < j < i ==> !all[j].audio
    {
      if all[i].audio {
        last := i;
      }
    }
  }

  /** One piece more: it joins on, or the piece before it runs on over it. */
  lemma JoinsOn(ps: seq<Piece>, p: Piece, end: int)
    ensures Joined(ps, p.from) + [p.(end := end)] == Joined(ps + [p], end)
    ensures ps != [] ==> Joined(ps, p.from)[|ps| - 1 := Joined(ps, p.from)[|ps| - 1].(end := end)] == Joined(ps, end)
    ensures ps == [] ==> Joined(ps, p.from) == Joined(ps, end)
  {
  }

  lemma AllAbut(tracks: seq<Track>, starts: seq<nat>, precededByData: bool)
    requires |starts| == |tracks| > 0
    ensures var all := All(tracks, starts, precededByData); Abut(all) && forall i :: 0 <= i < |all| ==>
        all[i].track < |tracks|
  {
  }

  method Keep(tracks: seq<Track>, all: seq<Piece>, total: int) returns (out: Option<seq<Piece>>)
    requires forall i :: 0 <= i < |all| ==> all[i].track < |tracks|
    requires Abut(all)
    ensures out.Some? <==> Fits(tracks, all, total, |all|)
    ensures out.Some? ==> out.value == Joined(Held(all, total, |all|), -1)
  {
    var lastAudio := LastAudio(all);
    var ps: seq<Piece> := [];
    for i := 0 to |all|
      invariant Fits(tracks, all, total, i)
      invariant ps == Joined(Held(all, total, i), if i < |all| then all[i].from else -1)
    {
      var p := all[i];
      assert i < |all| - 1 ==> RunsOn(all, i);
      JoinsOn(Held(all, total, i), p, p.end);
      if p.audio && total >= 0 && p.from >= total {
        assert Past(all[i], total);
        return None;
      }
      if !p.audio && (p.end == p.from || (total >= 0 && p.from >= total)) {
        var n := |ps|;
        if n > 0 {
          ps := ps[n - 1 := ps[n - 1].(end := p.end)];
        }
        continue;
      }
      if !p.audio && p.track >= 0 && i < lastAudio && !tracks[p.track].raw {
        assert Cooked(tracks, all, i, total);
        return None;
      }
      ps := ps + [p];
    }
    return Some(ps);
  }

  // ----- What a division is -----

  /** Pieces that start at 0, abut, ascend, end open, and lie before a known end. */
  ghost predicate Tiles(ps: seq<Piece>, total: int) {
    && ps != [] && ps[0].from == 0 && Abut(ps)
    && (forall i, j :: 0 <= i < j < |ps| ==> ps[i].from <= ps[j].from)
    && forall i :: 0 <= i < |ps| ==> 0 <= ps[i].from && (total >= 0 ==> ps[i].from < total)
  }

  /** The division before anything is absorbed ascends from 0, past an audio piece strictly where frames and samples
      do. */
  ghost predicate Climbs(all: seq<Piece>, rate: nat) {
    && all != [] && all[0].from == 0 && Abut(all) && (forall i :: 0 <= i < |all| ==> all[i].from >= 0)
    && forall i :: 0 <= i < |all| - 1 ==> Steps(all, i, rate)
  }

  predicate Steps(all: seq<Piece>, i: nat, rate: nat)
    requires i < |all| - 1
  {
    all[i].from <= all[i + 1].from && (all[i].audio && rate >= FRAMES_PER_SECOND ==> all[i].from < all[i + 1].from)
  }

  lemma AllClimbs(tracks: seq<Track>, rate: nat, precededByData: bool)
    requires tracks != [] && Ascends(tracks, |tracks|)
    ensures Climbs(All(tracks, StartSamples(tracks, rate), precededByData), rate)
  {
    var starts := StartSamples(tracks, rate);
    var all := All(tracks, starts, precededByData);
    AllAbut(tracks, starts, precededByData);
    var lead := if starts[0] > 0 then 1 else 0;
    forall i | 0 <= i < |all| - 1
      ensures Steps(all, i, rate)
    {
      if i >= lead {
        NextStart(tracks, rate, i - lead);
        assert all[i] == TrackPiece(tracks, starts, i - lead) && all[i + 1] == TrackPiece(tracks, starts, i - lead + 1);
      }
    }
  }

  lemma NextStart(tracks: seq<Track>, rate: nat, i: nat)
    requires i < |tracks| - 1 && Ascends(tracks, |tracks|)
    ensures var starts := StartSamples(tracks, rate);
      starts[i] <= starts[i + 1] && (tracks[i].audio && rate >= FRAMES_PER_SECOND ==> starts[i] < starts[i + 1])
  {
    var a, b := Boundary(tracks, i).value, Boundary(tracks, i + 1).value;
    StartsAscend(tracks, i, i + 1);
    if a < b {
      SamplesAscend(a, b, rate);
    }
  }

  /** Pieces that start at 0, lie before a known end and ascend, past a solid one strictly, to where the next one
      starts. */
  ghost predicate ClimbsTo(h: seq<Piece>, rate: nat, total: int, end: int) {
    && (forall i :: 0 <= i < |h| ==> 0 <= h[i].from && (total >= 0 ==> h[i].from < total))
    && (forall i, j :: 0 <= i < j < |h| ==> h[i].from <= h[j].from && (Solid(h[i], rate) ==> h[i].from < h[j].from))
    && (if h == [] then end == -1 || end == 0
        else
          && h[0].from == 0
          && (end == -1 || (h[|h| - 1].from <= end && (Solid(h[|h| - 1], rate) ==> h[|h| - 1].from < end))))
  }

  /** What is absorbed leaves no gap: the pieces held so far start at 0 and ascend to where the next one starts. */
  lemma {:induction false} HeldClimbs(tracks: seq<Track>, all: seq<Piece>, rate: nat, total: int, k: nat)
    requires Climbs(all, rate) && k <= |all| && total != 0
    requires forall i :: 0 <= i < |all| ==> all[i].track < |tracks|
    requires Fits(tracks, all, total, k)
    ensures ClimbsTo(Held(all, total, k), rate, total, if k < |all| then all[k].from else -1)
    decreases k
  {
    if k > 0 {
      HeldClimbs(tracks, all, rate, total, k - 1);
      var p, end := all[k - 1], if k < |all| then all[k].from else -1;
      assert k < |all| ==> RunsOn(all, k - 1) && Steps(all, k - 1, rate);
      assert p.end == end && !Past(p, total);
      HeldStep(all, total, rate, k);
      OneClimb(Held(all, total, k - 1), p, rate, total, end);
    }
  }

  lemma OneClimb(h: seq<Piece>, p: Piece, rate: nat, total: int, end: int)
    requires ClimbsTo(h, rate, total, p.from) && 0 <= p.from && p.end == end && !Past(p, total) && total != 0
    requires end == -1 || (p.from <= end && (p.audio && rate >= FRAMES_PER_SECOND ==> p.from < end))
    ensures ClimbsTo(if Absorbed(p, total) then h else h + [p], rate, total, end)
  {
  }

  /** A piece with something in it wherever two frames never share a sample. */
  predicate Solid(p: Piece, rate: nat) { !p.audio || rate >= FRAMES_PER_SECOND }

  lemma HeldStep(all: seq<Piece>, total: int, rate: nat, k: nat)
    requires 0 < k <= |all|
    ensures var h, p := Held(all, total, k - 1), all[k - 1];
      Held(all, total, k) == if Absorbed(p, total) then h else h + [p]
  {
    if Absorbed(all[k - 1], total) {
      assert Held(all, total, k - 1) + [] == Held(all, total, k - 1);
    }
  }

  lemma AudioPiece(tracks: seq<Track>, starts: seq<nat>, precededByData: bool, t: nat) returns (i: nat)
    requires |starts| == |tracks| && t < |tracks|
    ensures var all := All(tracks, starts, precededByData); i < |all| && all[i] == TrackPiece(tracks, starts, t)
  {
    i := t + if starts[0] > 0 then 1 else 0;
  }

  /** Pieces tiles the file. At a rate of at least 75 Hz no piece is empty; a skipped one never is. */
  lemma DivisionTiles(tracks: seq<Track>, rate: nat, total: int, precededByData: bool)
    requires Accepted(tracks, rate, total, precededByData)
    ensures var ps := Division(tracks, rate, total, precededByData);
      |ps| >= 2 && Tiles(ps, total) && forall i :: 0 <= i < |ps| - 1 && Solid(ps[i], rate) ==> ps[i].from < ps[i].end
  {
    var all := All(tracks, StartSamples(tracks, rate), precededByData);
    AllClimbs(tracks, rate, precededByData);
    AllAbut(tracks, StartSamples(tracks, rate), precededByData);
    NotEmptyFile(tracks, rate, total, precededByData, all);
    HeldClimbs(tracks, all, rate, total, |all|);
    JoinedTiles(Held(all, total, |all|), rate, total);
  }

  /** A file some audio track starts in is not of no length. */
  lemma NotEmptyFile(tracks: seq<Track>, rate: nat, total: int, precededByData: bool, all: seq<Piece>)
    requires Accepted(tracks, rate, total, precededByData) &&
        all == All(tracks, StartSamples(tracks, rate), precededByData)
    ensures total != 0
  {
    var t :| 0 <= t < |tracks| && tracks[t].audio;
    var i := AudioPiece(tracks, StartSamples(tracks, rate), precededByData, t);
    assert !Past(all[i], total);
  }

  lemma JoinedTiles(h: seq<Piece>, rate: nat, total: int)
    requires h != [] && ClimbsTo(h, rate, total, -1)
    ensures var ps := Joined(h, -1);
      Tiles(ps, total) && forall i :: 0 <= i < |ps| - 1 && Solid(ps[i], rate) ==> ps[i].from < ps[i].end
  {
    var ps := Joined(h, -1);
    forall i | 0 <= i < |ps| - 1
      ensures RunsOn(ps, i) && (Solid(ps[i], rate) ==> ps[i].from < ps[i].end)
    {
      assert ps[i].from == h[i].from && ps[i + 1].from == h[i + 1].from && ps[i].end == h[i + 1].from;
      assert Solid(ps[i], rate) == Solid(h[i], rate);
    }
  }

  /** At every rate below 75 Hz frames 0 and 1 are one sample, so a sheet whose two audio tracks start there is accepted
      and its first piece, which is written, is empty: 75 Hz is exactly where none ever is. */
  lemma LowRatesLeaveOneEmpty(rate: nat)
    requires rate < FRAMES_PER_SECOND
    ensures var tracks := [Track.Track(1, true, true, [Index(1, 0)]), Track.Track(2, true, true, [Index(1, 1)])];
      && Accepted(tracks, rate, -1, false)
      && Division(tracks, rate, -1, false) == [Piece(0, 0, 0, true), Piece(0, -1, 1, true)]
  {
    var tracks := [Track.Track(1, true, true, [Index(1, 0)]), Track.Track(2, true, true, [Index(1, 1)])];
    assert tracks[0].audio;
    assert Boundary(tracks, 0) == Some(0) && Boundary(tracks, 1) == Some(1);
    var starts := StartSamples(tracks, rate);
    assert starts == [0, 0];
    var all := All(tracks, starts, false);
    assert all == [TrackPiece(tracks, starts, 0), TrackPiece(tracks, starts, 1)];
    assert Held(all, -1, 0) == [];
    assert Held(all, -1, 1) == [all[0]];
    assert Held(all, -1, 2) == all;
  }

  // ----- Which tracks are written -----

  /** Held keeps exactly what the file holds some of, in order. */
  lemma {:induction false} HeldHas(all: seq<Piece>, total: int, k: nat, p: Piece)
    requires k <= |all|
    ensures p in Held(all, total, k) <==> p in all[..k] && !Absorbed(p, total)
    decreases k
  {
    if k > 0 {
      HeldHas(all, total, k - 1, p);
      HeldStep(all, total, 0, k);
      assert all[..k] == all[..k - 1] + [all[k - 1]];
    }
  }

  ghost predicate HasTrack(ps: seq<Piece>, t: int, from: int, audio: bool) {
    exists i :: 0 <= i < |ps| && ps[i].track == t && ps[i].from == from && ps[i].audio == audio
  }

  /** Every audio track is written from its INDEX 01, and a data track is skipped unless the file holds none of it, when
      it has no piece at all. */
  lemma TracksAreDivided(tracks: seq<Track>, rate: nat, total: int, precededByData: bool, t: nat)
    requires Accepted(tracks, rate, total, precededByData) && t < |tracks|
    ensures var ps, starts := Division(tracks, rate, total, precededByData), StartSamples(tracks, rate);
      && (tracks[t].audio ==>
          HasTrack(ps, t, starts[t], true) && starts[t] == Samples(Start(tracks[t].indexes).value, rate))
      && (!tracks[t].audio ==>
          && starts[t] == (if t == 0 then 0 else Samples(Earliest(tracks[t].indexes).value, rate))
          && (HasTrack(ps, t, starts[t], false) <==>
            ((t + 1 == |tracks| || starts[t] < starts[t + 1]) && (total < 0 || starts[t] < total))))
  {
    var starts := StartSamples(tracks, rate);
    var all := All(tracks, starts, precededByData);
    var p := TrackPiece(tracks, starts, t);
    var i := AudioPiece(tracks, starts, precededByData, t);
    assert all[..|all|] == all && p == all[i];
    HeldHas(all, total, |all|, p);
    if t + 1 < |tracks| {
      NextStart(tracks, rate, t);
    }
    var h, ps := Held(all, total, |all|), Division(tracks, rate, total, precededByData);
    if p in h {
      var j :| 0 <= j < |h| && h[j] == p;
      assert ps[j].track == t && ps[j].from == starts[t] && ps[j].audio == tracks[t].audio;
    }
    if HasTrack(ps, t, starts[t], tracks[t].audio) {
      var j :| 0 <= j < |ps| && ps[j].track == t && ps[j].from == starts[t] && ps[j].audio == tracks[t].audio;
      HeldHas(all, total, |all|, h[j]);
      OnlyPiece(tracks, starts, precededByData, h[j]);
    }
  }

  lemma OnlyPiece(tracks: seq<Track>, starts: seq<nat>, precededByData: bool, p: Piece)
    requires |starts| == |tracks| > 0 && p in All(tracks, starts, precededByData) && p.track >= 0
    ensures p.track < |tracks| && p == TrackPiece(tracks, starts, p.track)
  {
  }

  /** Each kind of track starts at the first index that is its kind's: INDEX 01, or the first of INDEX 00 and 01. */
  lemma {:induction false} FirstIndex(indexes: seq<Index>)
    ensures Start(indexes).None? <==> forall k :: 0 <= k < |indexes| ==> indexes[k].number != 1
    ensures Start(indexes).Some? ==>
      exists k :: 0 <= k < |indexes| && indexes[k] == Index(1, Start(indexes).value) && forall j :: 0 <= j < k ==>
          indexes[j].number != 1
    ensures Earliest(indexes).None? <==> forall k :: 0 <= k < |indexes| ==> indexes[k].number > 1
    ensures Earliest(indexes).Some? ==>
      exists k :: 0 <= k < |indexes| && indexes[k].number <= 1 && indexes[k].frame == Earliest(indexes).value &&
          forall j :: 0 <= j < k ==> indexes[j].number > 1
  {
    if indexes != [] {
      var rest := indexes[1..];
      FirstIndex(rest);
      assert forall k :: 0 < k < |indexes| ==> indexes[k] == rest[k - 1];
      if indexes[0].number != 1 && Start(rest).Some? {
        var k :| 0 <= k < |rest| && rest[k] == Index(1, Start(rest).value) && forall j :: 0 <= j < k ==>
            rest[j].number != 1;
        assert indexes[k + 1] == Index(1, Start(indexes).value);
      }
      if indexes[0].number > 1 && Earliest(rest).Some? {
        var k :| 0 <= k < |rest| && rest[k].number <= 1 && rest[k].frame == Earliest(rest).value &&
            forall j :: 0 <= j < k ==> rest[j].number > 1;
        assert indexes[k + 1].number <= 1;
      }
    }
  }

  predicate IsTracks(p: Piece, n: nat) { 0 <= p.track < n }

  /** The audio ahead of a first track that does not start the file is the first piece, written unless a data track in
      an earlier file precedes it; every other piece is a track's. */
  lemma LeadIn(tracks: seq<Track>, rate: nat, total: int, precededByData: bool)
    requires Accepted(tracks, rate, total, precededByData)
    ensures var ps, start := Division(tracks, rate, total, precededByData), StartSamples(tracks, rate)[0];
      && (if tracks[0].audio then start == Samples(Start(tracks[0].indexes).value, rate) else start == 0)
      && HasTrack(ps, -1, 0, !precededByData) == (start > 0)
      && (start > 0 ==> ps != [] && ps[0].track == -1 && (0 in Skipped(ps) <==> precededByData))
      && forall i :: 0 <= i < |ps| && (i > 0 || start == 0) ==> IsTracks(ps[i], |tracks|)
  {
    var starts := StartSamples(tracks, rate);
    var all := All(tracks, starts, precededByData);
    NotEmptyFile(tracks, rate, total, precededByData, all);
    var h, ps := Held(all, total, |all|), Division(tracks, rate, total, precededByData);
    HeldTracks(all, total, |all|, |tracks|, |all| - |tracks|);
    SkippedAre(ps);
    if starts[0] > 0 {
      assert all[0] == Piece(0, starts[0], -1, !precededByData) && !Absorbed(all[0], total);
      FirstHeld(all, total, |all|);
      assert ps[0].track == -1 && ps[0].from == 0 && ps[0].audio == !precededByData;
    }
  }

  lemma {:induction false} FirstHeld(all: seq<Piece>, total: int, k: nat)
    requires 0 < k <= |all| && !Absorbed(all[0], total)
    ensures Held(all, total, k) != [] && Held(all, total, k)[0] == all[0]
    decreases k
  {
    if k > 1 {
      FirstHeld(all, total, k - 1);
    } else {
      assert Held(all, total, 0) == [];
    }
  }

  /** No piece but the first is the lead-in. */
  lemma {:induction false} HeldTracks(all: seq<Piece>, total: int, k: nat, n: nat, lead: nat)
    requires k <= |all| && lead <= 1 && forall i :: lead <= i < |all| ==> IsTracks(all[i], n)
    ensures |Held(all, total, k)| <= k
    ensures forall i :: lead <= i < |Held(all, total, k)| ==> IsTracks(Held(all, total, k)[i], n)
    decreases k
  {
    if k > 0 {
      HeldTracks(all, total, k - 1, n, lead);
      var h, p := Held(all, total, k - 1), all[k - 1];
      HeldStep(all, total, 0, k);
      assert |h| >= lead ==> IsTracks(p, n);
    }
  }

  /** The file holds some of data track t's span. */
  predicate Occupies(starts: seq<nat>, t: nat, total: int)
    requires t < |starts|
  {
    (t + 1 == |starts| || starts[t] != starts[t + 1]) && (total < 0 || starts[t] < total)
  }

  predicate StartsPast(tracks: seq<Track>, starts: seq<nat>, t: nat, total: int)
    requires t < |starts| == |tracks|
  {
    tracks[t].audio && total >= 0 && starts[t] >= total
  }

  /** A data track of cooked sectors occupies the file ahead of an audio track. */
  predicate Blocks(tracks: seq<Track>, starts: seq<nat>, t: nat, total: int)
    requires t < |starts| == |tracks|
  {
    !tracks[t].audio && !tracks[t].raw && Occupies(starts, t, total) && exists u :: t < u < |tracks| && tracks[u].audio
  }

  /** The refusals, said of the sheet: audio that starts past the file's end, and a data track of cooked sectors that
      occupies the file ahead of audio. */
  lemma RefusedWhen(tracks: seq<Track>, starts: seq<nat>, total: int, precededByData: bool)
    requires |starts| == |tracks| > 0
    ensures var all := All(tracks, starts, precededByData);
      (forall i :: 0 <= i < |all| ==> all[i].track < |tracks|) &&
      (Fits(tracks, all, total, |all|) <==>
        && (starts[0] > 0 && !precededByData ==> total != 0)
        && forall t :: 0 <= t < |tracks| ==> !StartsPast(tracks, starts, t, total) && !Blocks(tracks, starts, t, total))
  {
    var all := All(tracks, starts, precededByData);
    var lead := |all| - |tracks|;
    AllAbut(tracks, starts, precededByData);
    forall t | 0 <= t < |tracks|
      ensures Past(all[lead + t], total) <==> StartsPast(tracks, starts, t, total)
      ensures Cooked(tracks, all, lead + t, total) <==> Blocks(tracks, starts, t, total)
    {
      AudioAhead(tracks, starts, precededByData, t, lead);
    }
    assert lead > 0 ==> all[0] == Piece(0, starts[0], -1, !precededByData);
    if Fits(tracks, all, total, |all|) {
      assert lead > 0 ==> !Past(all[0], total);
      forall t | 0 <= t < |tracks|
        ensures !StartsPast(tracks, starts, t, total) && !Blocks(tracks, starts, t, total)
      {
        var i := lead + t;
        assert !Past(all[i], total) && !Cooked(tracks, all, i, total);
      }
    } else {
      var i :| 0 <= i < |all| && !(!Past(all[i], total) && !Cooked(tracks, all, i, total));
      var t := i - lead;
      assert t >= 0 ==> StartsPast(tracks, starts, t, total) || Blocks(tracks, starts, t, total);
    }
  }

  lemma AudioAhead(tracks: seq<Track>, starts: seq<nat>, precededByData: bool, t: nat, lead: nat)
    requires |starts| == |tracks| > t && lead == if starts[0] > 0 then 1 else 0
    ensures var all := All(tracks, starts, precededByData);
      |all| == lead + |tracks| && all[lead + t] == TrackPiece(tracks, starts, t)
      && (AudioAfter(all, lead + t) <==> exists u :: t < u < |tracks| && tracks[u].audio)
  {
    var all := All(tracks, starts, precededByData);
    forall u | 0 <= u < |tracks|
      ensures all[lead + u].audio == tracks[u].audio
    {
    }
    if AudioAfter(all, lead + t) {
      var j :| lead + t < j < |all| && all[j].audio;
      assert tracks[j - lead].audio;
    }
  }

  // ----- Cutting at the pieces -----

  /** The pieces a split does not write. */
  function Skipped(pieces: seq<Piece>): seq<int> {
    if pieces == [] then []
    else Skipped(pieces[..|pieces| - 1]) + if pieces[|pieces| - 1].audio then [] else [|pieces| - 1]
  }

  /** They are exactly the ones that are not audio, in order. */
  lemma {:induction false} SkippedAre(pieces: seq<Piece>)
    ensures forall i :: i in Skipped(pieces) <==> 0 <= i < |pieces| && !pieces[i].audio
    ensures forall i, j :: 0 <= i < j < |Skipped(pieces)| ==> Skipped(pieces)[i] < Skipped(pieces)[j]
    decreases |pieces|
  {
    if pieces != [] {
      var init := pieces[..|pieces| - 1];
      SkippedAre(init);
      assert forall i :: 0 <= i < |Skipped(init)| ==> Skipped(init)[i] in Skipped(init);
    }
  }

  /** Cutpoints: where the pieces meet, and the ones a split does not write. */
  method Cutpoints(pieces: seq<Piece>) returns (cuts: seq<int>, skip: seq<int>)
    ensures cuts == Meets(pieces) && skip == Skipped(pieces)
  {
    cuts, skip := [], [];
    for i := 0 to |pieces|
      invariant cuts == Meets(pieces[..i]) && skip == Skipped(pieces[..i])
    {
      var p := pieces[i];
      MeetsOn(pieces, i);
      assert pieces[..i + 1][..i] == pieces[..i];
      if i > 0 {
        cuts := cuts + [p.from];
      }
      if !p.audio {
        skip := skip + [i];
      }
    }
    assert pieces[..|pieces|] == pieces;
  }

  lemma MeetsOn(pieces: seq<Piece>, i: nat)
    requires i < |pieces|
    ensures Meets(pieces[..i + 1]) == Meets(pieces[..i]) + if i > 0 then [pieces[i].from] else []
  {
  }

  function Meets(pieces: seq<Piece>): (r: seq<int>) {
    if pieces == [] then [] else seq(|pieces| - 1, i requires 0 <= i < |pieces| - 1 => pieces[i + 1].from)
  }

  function CutList(ps: seq<Piece>, total: int): seq<int> { [0] + Meets(ps) + [total] }

  lemma CutAt(ps: seq<Piece>, total: int, i: nat)
    requires i <= |ps| && ps != []
    ensures |CutList(ps, total)| == |ps| + 1 && CutList(ps, total)[i] == if 0 < i < |ps| then ps[i].from
        else if i == 0 then 0 else total
  {
  }

  lemma TilesAreCuts(ps: seq<Piece>, total: nat)
    requires Tiles(ps, total)
    ensures Slice.Cuts(CutList(ps, total), total)
  {
    var cuts := CutList(ps, total);
    CutAt(ps, total, 0);
    CutAt(ps, total, |ps|);
    forall i | 0 <= i < |cuts| - 1
      ensures Slice.Ascends(cuts, i)
    {
      CutAt(ps, total, i);
      CutAt(ps, total, i + 1);
      assert 0 <= ps[i].from < total;
    }
  }

  lemma OpenWindow<T>(source: seq<T>, from: nat)
    ensures Slice.Window(source, from, TO_END) == Slice.Window(source, from, Max(from, |source|))
  {
  }

  /** Piece i of a cut stream is that piece's window of it. */
  lemma PieceIsWindow<T>(source: seq<T>, ps: seq<Piece>, i: nat)
    requires Tiles(ps, |source|) && i < |ps|
    ensures var p := ps[i];
      && Slice.Cuts(CutList(ps, |source|), |source|) && |Slice.Pieces(source, CutList(ps, |source|))| == |ps|
      && 0 <= p.from && (p.end == -1 || p.from <= p.end)
      && Slice.Pieces(source, CutList(ps, |source|))[i] == Slice.Window(source, p.from, p.end)
  {
    TilesAreCuts(ps, |source|);
    var lo, hi := ps[i].from, if i < |ps| - 1 then ps[i].end else |source|;
    CutAt(ps, |source|, i);
    CutAt(ps, |source|, i + 1);
    Bounded(ps, |source|, i);
    Slice.PieceAt(source, CutList(ps, |source|), i, lo, hi);
    OpenWindow(source, lo);
  }

  lemma Bounded(ps: seq<Piece>, total: nat, i: nat)
    requires Tiles(ps, total) && i < |ps|
    ensures 0 <= ps[i].from < total && (i == 0 ==> ps[i].from == 0)
    ensures ps[i].end == if i < |ps| - 1 then ps[i + 1].from else -1
    ensures i < |ps| - 1 ==> ps[i].from <= ps[i].end
  {
    assert i < |ps| - 1 ==> RunsOn(ps, i);
  }

  /** The pieces are cuts of the file: each is its window of the stream, and played end to end they are the whole of
      it. */
  lemma SplitRejoins<T>(source: seq<T>, tracks: seq<Track>, rate: nat, precededByData: bool, curve: (int, T, T) -> T)
    requires Accepted(tracks, rate, |source|, precededByData)
    ensures var ps := Division(tracks, rate, |source|, precededByData);
      && Slice.Cuts(CutList(ps, |source|), |source|) && |Slice.Pieces(source, CutList(ps, |source|))| == |ps|
      && forall i :: 0 <= i < |ps| ==>
        && 0 <= ps[i].from && (ps[i].end == -1 || ps[i].from <= ps[i].end)
        && Slice.Pieces(source, CutList(ps, |source|))[i] == Slice.Window(source, ps[i].from, ps[i].end)
    ensures var ps := Division(tracks, rate, |source|, precededByData);
      var joined := Timeline.Joined(Slice.Pieces(source, CutList(ps, |source|)), 0, curve);
          joined.Ok() && joined.Rest(0) == source
  {
    var ps := Division(tracks, rate, |source|, precededByData);
    DivisionTiles(tracks, rate, |source|, precededByData);
    TilesRejoin(source, ps, curve);
  }

  lemma TilesRejoin<T>(source: seq<T>, ps: seq<Piece>, curve: (int, T, T) -> T)
    requires Tiles(ps, |source|)
    ensures Slice.Cuts(CutList(ps, |source|), |source|) && |Slice.Pieces(source, CutList(ps, |source|))| == |ps|
    ensures forall i :: 0 <= i < |ps| ==>
      && 0 <= ps[i].from && (ps[i].end == -1 || ps[i].from <= ps[i].end)
      && Slice.Pieces(source, CutList(ps, |source|))[i] == Slice.Window(source, ps[i].from, ps[i].end)
    ensures var joined := Timeline.Joined(Slice.Pieces(source, CutList(ps, |source|)), 0, curve);
      joined.Ok() && joined.Rest(0) == source
  {
    TilesAreCuts(ps, |source|);
    CutAt(ps, |source|, 0);
    Slice.CutThenJoin(source, CutList(ps, |source|), curve);
    forall i | 0 <= i < |ps|
      ensures 0 <= ps[i].from && (ps[i].end == -1 || ps[i].from <= ps[i].end)
      ensures Slice.Pieces(source, CutList(ps, |source|))[i] == Slice.Window(source, ps[i].from, ps[i].end)
    {
      PieceIsWindow(source, ps, i);
    }
  }
}
