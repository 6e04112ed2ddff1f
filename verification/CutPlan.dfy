/** The cut's arithmetic (cut.go): requested spans become packet windows, trims, landed spans and a synthesized
    track. */
module CutPlan {
  import opened Container
  import opened CutTimeline

  /** The samples [from, to) of a track, to be kept; the last span of a request may end at TO_END. */
  datatype Span = Span(from: int, to: int)

  /** A kept range of the raw timeline; a negative `to` runs to the end of the packets. */
  datatype Window = Window(from: int, to: int)

  /** What a cut is walked and muxed by. */
  datatype Plan = Plan(
    track: Track, landed: seq<Span>, windows: seq<Window>, lastEnd: int, blind: bool, trims: seq<PacketTrim>)

  /** A plan, a decline (another rung serves the request), or an error no rung escapes. */
  datatype Answer = Planned(plan: Plan) | Declined | InvalidRequest | MalformedInput

  predicate OnAllowlist(c: Codec) { c.Opus? || c.AacLc? || c.HeAac? }

  /** How far ahead of the first kept sample a codec's decoder needs to start. */
  function Preroll(c: Codec): (r: int) ensures r >= 0 {
    match c
    case Opus => 3840
    case AacLc => 1024
    case HeAac => 24576
    case _ => 0
  }

  // ----- Span validation -----

  predicate SpanOk(track: Track, spans: seq<Span>, i: nat)
    requires i < |spans|
  {
    var s := spans[i];
    && 0 <= s.from < MAX_CUT_SAMPLE && s.to < MAX_CUT_SAMPLE
    && (s.from < s.to || (s.to == TO_END && i == |spans| - 1))
    && (track.samples >= 0 ==> s.from <= track.samples && s.to <= track.samples)
    && (track.samples >= 0 && s.to == TO_END ==> s.from < track.samples)
    && (i > 0 ==> spans[i - 1].to <= s.from)
  }

  ghost predicate ValidSpans(track: Track, spans: seq<Span>) {
    |spans| > 0 && forall i :: 0 <= i < |spans| ==> SpanOk(track, spans, i)
  }

  method ValidateCutSpans(track: Track, spans: seq<Span>) returns (ok: bool)
    ensures ok <==> ValidSpans(track, spans)
  {
    if |spans| == 0 {
      return false;
    }
    for i := 0 to |spans|
      invariant forall j :: 0 <= j < i ==> SpanOk(track, spans, j)
    {
      var s := spans[i];
      if s.from < 0 || s.to < TO_END || (s.to == TO_END && i < |spans| - 1) || (s.to >= 0 && s.to < s.from)
         || s.from >= MAX_CUT_SAMPLE || s.to >= MAX_CUT_SAMPLE || s.to == s.from
         || (s.to == TO_END && track.samples >= 0 && s.from == track.samples)
      {
        assert !SpanOk(track, spans, i);
        return false;
      }
      if track.samples >= 0 && (s.from > track.samples || s.to > track.samples) {
        assert !SpanOk(track, spans, i);
        return false;
      }
      if i > 0 && s.from < spans[i - 1].to {
        assert !SpanOk(track, spans, i);
        return false;
      }
    }
    return true;
  }

  // ----- Snapping, span by span -----

  /** One span's bounds on the raw timeline: the request is [df, dt), its packets are [sd, su), its audio starts at
      hd. */
  datatype Bounds = Bounds(df: int, dt: int, sd: int, su: int, hd: int)

  /** A request the arithmetic runs on: `splice` is the SpliceTrims option where it has an interior edge to act on. */
  datatype Ask = Ask(track: Track, preroll: int, splice: bool, spans: seq<Span>, g: int) {

    function N(): nat { |spans| }

    ghost predicate Fit() {
      && g > 0 && preroll >= 0 && track.delay >= 0 && track.padding >= 0 && track.midPadding >= 0
      && ValidSpans(track, spans) && (splice ==> N() > 1)
      && Placed(track.midTrims, g) && Sum(track.midTrims) == track.midPadding
    }

    function LastToEnd(): bool requires N() > 0 { spans[N() - 1].to == TO_END }

    function DecodedEnd(): int { EndOfDecode(track) }

    /** The requested span on the raw timeline. */
    function Df(i: nat): int requires i < N() { RawOf(track.midTrims, track.delay, spans[i].from) }

    function Dt(i: nat): int requires i < N() {
      if spans[i].to != TO_END then RawEndOf(track.midTrims, track.delay, spans[i].to)
      else if DecodedEnd() >= 0 then DecodedEnd() - track.padding
      else -1
    }

    /** Where the audio of a span starts: the first head backs off by the pre-roll, the others snap inward. */
    function Hd(i: nat): int requires i < N() && g > 0 {
      if i == 0 then SnapGridDown(Df(i) - preroll, g) else SnapGridUp(Df(i), g)
    }

    /** Where its packets start: ahead of the audio by a discarded pre-roll on a spliced interior head. */
    function Sd(i: nat): int requires i < N() && g > 0 {
      if splice && i > 0 then SnapGridDown(Hd(i) - preroll, g) else Hd(i)
    }

    function SnappedEnd(i: nat): int requires i < N() && g > 0 {
      if spans[i].to != TO_END then
        if i == N() - 1 || splice then SnapGridUp(Dt(i), g) else SnapGridDown(Dt(i), g)
      else DecodedEnd()
    }

    predicate Adjacent(i: nat) requires i < N() {
      !splice && i < N() - 1 && spans[i].to == spans[i + 1].from
    }

    /** Where its packets end, adjacent spans sharing the later one's head. */
    function MergedEnd(i: nat): int requires i < N() && g > 0 {
      if Adjacent(i) && SnappedEnd(i) >= 0 then Sd(i + 1) else SnappedEnd(i)
    }

    /** The last packet of a bounded last span ends past the declared decode, so the span takes what there is. */
    predicate TailClamped() requires N() > 0 && g > 0 {
      !LastToEnd() && DecodedEnd() >= 0 && MergedEnd(N() - 1) > DecodedEnd()
    }

    function Su(i: nat): int requires i < N() && g > 0 {
      if i == N() - 1 && TailClamped() then DecodedEnd() else MergedEnd(i)
    }

    predicate KeepsPackets(i: nat) requires i < N() && g > 0 { MergedEnd(i) >= 0 ==> Hd(i) < MergedEnd(i) }

    predicate Apart(i: nat) requires i + 1 < N() && g > 0 { MergedEnd(i) <= Sd(i + 1) }

    ghost predicate Keepable() requires g > 0 {
      (forall i :: 0 <= i < N() ==> KeepsPackets(i)) && (forall i :: 0 <= i < N() - 1 ==> Apart(i))
    }

    ghost predicate Accepts() { Fit() && Keepable() }

    function BoundsOf(i: nat): Bounds requires i < N() && g > 0 { Bounds(Df(i), Dt(i), Sd(i), Su(i), Hd(i)) }

    ghost function AllBounds(): (r: seq<Bounds>)
      requires g > 0
      ensures |r| == N() && forall i :: 0 <= i < N() ==> r[i] == BoundsOf(i)
    {
      seq(N(), i requires 0 <= i < N() => BoundsOf(i))
    }

    /** The request with its bounds; the last window is open when it runs to the end of the packets. */
    ghost function Snapped(): Cut requires g > 0 && N() > 0 {
      Cut(track, splice, spans, g, LastToEnd() || TailClamped(), AllBounds())
    }
  }

  /** Where a source's decode ends on the raw timeline, -1 when it declares no length. */
  function EndOfDecode(track: Track): int {
    if track.samples >= 0 then track.delay + track.samples + track.padding + track.midPadding else -1
  }

  // ----- The plan of the snapped bounds -----

  datatype Cut = Cut(track: Track, splice: bool, spans: seq<Span>, g: int, open: bool, at: seq<Bounds>) {

    function N(): nat { |at| }

    function LastToEnd(): bool requires 0 < N() == |spans| { spans[N() - 1].to == TO_END }

    predicate UnknownEnd() requires 0 < N() == |spans| { LastToEnd() && track.samples < 0 }

    /** Head and tail of an accepted span. */
    ghost predicate HeadLaid(i: nat)
      requires i < N() == |spans| && g > 0
    {
      var b := at[i];
      && 0 <= b.sd <= b.hd && OnGrid(b.sd, g) && OnGrid(b.hd, g) && (!splice ==> b.sd == b.hd)
      && 0 <= b.df && !Inside(track.midTrims, b.df) && TrackOf(track.midTrims, track.delay, b.df) == spans[i].from
      && (if i == 0 then b.sd == b.hd <= b.df else b.df <= b.hd < b.df + g)
    }

    ghost predicate TailLaid(i: nat)
      requires i < N() == |spans| && g > 0
    {
      var b := at[i];
      && (spans[i].to != TO_END ==>
        && b.df < b.dt && Clear(track.midTrims, b.dt) && !Inside(track.midTrims, b.dt - 1)
        && TrackOf(track.midTrims, track.delay, b.dt) == spans[i].to)
      && (if i < N() - 1 then InnerTailLaid(i) else LastTailLaid())
    }

    ghost predicate InnerTailLaid(i: nat)
      requires i < N() - 1 && |spans| == N() && g > 0
    {
      var b, next := at[i], at[i + 1];
      && spans[i].to != TO_END && b.hd < b.su <= next.sd && OnGrid(b.su, g) && b.dt <= next.df
      && (if splice then b.hd < b.dt <= b.su < b.dt + g
          else if spans[i].to == spans[i + 1].from then b.su == next.sd
          else b.su <= b.dt < b.su + g)
    }

    ghost predicate LastTailLaid()
      requires 0 < N() == |spans| && g > 0
    {
      var b, end := at[N() - 1], EndOfDecode(track);
      && (LastToEnd() ==> open)
      && (if !open then b.hd < b.dt <= b.su < b.dt + g && OnGrid(b.su, g)
          else if UnknownEnd() then b.su == -1
          else
            && b.su == end && b.hd < b.su && 0 <= end
            && (if LastToEnd() then b.dt == end - track.padding
                else
                  && b.hd < b.dt <= end - track.padding
                  && (exists e :: OnGrid(e, g) && b.dt <= e < b.dt + g && b.su < e)))
    }

    /** What snapping leaves of an accepted request. */
    ghost predicate Laid() {
      && g > 0 && 0 < N() == |spans| && track.delay >= 0 && track.padding >= 0 && track.midPadding >= 0
      && ValidSpans(track, spans) && (splice ==> N() > 1)
      && Placed(track.midTrims, g) && Sum(track.midTrims) == track.midPadding
      && (forall i :: 0 <= i < N() ==> HeadLaid(i))
      && (forall i :: 0 <= i < N() ==> TailLaid(i))
    }

    // The synthesized track's own trims, on the output's raw timeline where the kept windows run back to back.

    /** The output position of a window's first packet. */
    function Base(i: nat): int requires i <= N() {
      if i == 0 then 0 else Base(i - 1) + (if at[i - 1].su >= 0 then at[i - 1].su - at[i - 1].sd else 0)
    }

    /** The slop past a spliced interior tail, stated as its packet's own trim. */
    function TailSlop(i: nat): int requires i < N() {
      if splice && i < N() - 1 && at[i].su >= 0 then at[i].su - at[i].dt else 0
    }

    /** The last packet's trim in window i is stated elsewhere: by the tail slop, or by the trailer. */
    predicate Restated(i: nat) requires i < N() { TailSlop(i) > 0 || (i == N() - 1 && !open) }

    /** How many of the source's trims end in or before the window, and how many of those stay the cut's. */
    function TrimsEnd(i: nat): (k: nat)
      requires i < N()
      ensures k <= |track.midTrims|
    {
      if at[i].su < 0 then |track.midTrims| else Before(track.midTrims, at[i].su)
    }

    function TrimsUpTo(i: nat): (k: nat)
      requires i < N()
      ensures k <= |track.midTrims|
    {
      if at[i].su >= 0 && Restated(i) then Before(track.midTrims, at[i].su - 1) else TrimsEnd(i)
    }

    ghost function Heads(i: nat): seq<PacketTrim> requires i < N() && g > 0 {
      if splice && i > 0 then Discards(at[i].sd, at[i].hd, g) else []
    }

    ghost function Inner(i: nat): seq<PacketTrim> requires i < N() {
      var lo, hi := Before(track.midTrims, at[i].hd), TrimsUpTo(i);
      if lo <= hi then track.midTrims[lo..hi] else []
    }

    ghost function WindowTrims(i: nat): seq<PacketTrim> requires i < N() && g > 0 {
      Heads(i) + Inner(i) + TailOf(at[i].su, TailSlop(i))
    }

    /** How far window i's packets move onto the output's timeline. */
    function Shift(i: nat): int requires i < N() { Base(i) - at[i].sd }

    ghost function PlacedTrims(i: nat): seq<PacketTrim> requires i < N() && g > 0 {
      Shifted(WindowTrims(i), Shift(i))
    }

    ghost function Parts(): (r: seq<seq<PacketTrim>>)
      requires g > 0
      ensures |r| == N() && forall i :: 0 <= i < N() ==> r[i] == PlacedTrims(i)
    {
      seq(N(), i requires 0 <= i < N() => PlacedTrims(i))
    }

    ghost function CutTrims(i: nat): seq<PacketTrim> requires i <= N() && g > 0 { Concat(Parts(), i) }

    /** The head's snap slop, after the packets' own trims come off it. */
    function Delay(): int requires N() > 0 {
      at[0].df - at[0].sd - (SumTo(track.midTrims, Before(track.midTrims, at[0].df))
                             - SumTo(track.midTrims, Before(track.midTrims, at[0].sd)))
    }

    function Delivered(i: nat): int requires i <= N() {
      if i == 0 then 0 else Delivered(i - 1) + at[i - 1].su - at[i - 1].sd
    }

    function Padding(): int requires 0 < N() == |spans| {
      if UnknownEnd() then track.padding else at[N() - 1].su - at[N() - 1].dt
    }

    ghost function Samples(): int requires 0 < N() == |spans| && g > 0 {
      if UnknownEnd() then -1 else Delivered(N()) - Sum(CutTrims(N())) - Delay() - Padding()
    }

    ghost function CutTrack(): Track requires 0 < N() == |spans| && g > 0 {
      track.(
        config := if track.codec.Opus? then OpusHead(Delay()) else track.config,
        samples := Samples(), delay := Delay(), padding := Padding(),
        midPadding := Sum(CutTrims(N())), midTrims := CutTrims(N()),
        samplesExact := !LastToEnd() || track.samplesExact,
        samplesAdvisory := LastToEnd() && track.samplesAdvisory)
    }

    function Landing(i: nat): Span requires i < N() == |spans| {
      Span(
        if i == 0 then spans[0].from else TrackOf(track.midTrims, track.delay, at[i].hd),
        if i == N() - 1 then
          if !LastToEnd() then spans[i].to else if track.samples >= 0 then track.samples else TO_END
        else if splice then spans[i].to
        else TrackOf(track.midTrims, track.delay, at[i].su))
    }

    function WindowOf(i: nat): Window requires i < N() {
      Window(at[i].sd, if i == N() - 1 && open then -1 else at[i].su)
    }

    ghost function Landings(): (r: seq<Span>)
      requires N() == |spans|
      ensures |r| == N() && forall i :: 0 <= i < N() ==> r[i] == Landing(i)
    {
      seq(N(), i requires 0 <= i < N() => Landing(i))
    }

    ghost function Windows(): (r: seq<Window>)
      ensures |r| == N() && forall i :: 0 <= i < N() ==> r[i] == WindowOf(i)
    {
      seq(N(), i requires 0 <= i < N() => WindowOf(i))
    }

    ghost function ToPlan(): Plan requires 0 < N() == |spans| && g > 0 {
      var t := CutTrack();
      Plan(t, Landings(), Windows(),
           if t.samplesExact && t.samples >= 0 then at[N() - 1].dt else -1,
           track.samples < 0 || track.samplesAdvisory, track.midTrims)
    }
  }

  /** The first k parts, end to end. */
  ghost function Concat(parts: seq<seq<PacketTrim>>, k: nat): seq<PacketTrim>
    requires k <= |parts|
  {
    if k == 0 then [] else Concat(parts, k - 1) + parts[k - 1]
  }

  /** A packet's last `slop` samples, as a trim of their own. */
  function TailOf(end: int, slop: int): seq<PacketTrim> { if slop > 0 then [PacketTrim(end - slop, slop)] else [] }

  /** Whole-packet trims over the packets of [from, end). */
  ghost function Discards(from: int, end: int, g: int): seq<PacketTrim>
    requires g > 0
    decreases end - from
  {
    if from >= end then [] else Discards(from, end - g, g) + [PacketTrim(end - g, g)]
  }

  ghost function Shifted(trims: seq<PacketTrim>, shift: int): (r: seq<PacketTrim>)
    ensures |r| == |trims|
    ensures forall i :: 0 <= i < |r| ==> r[i] == PacketTrim(trims[i].pos + shift, trims[i].samples)
  {
    seq(|trims|, i requires 0 <= i < |trims| => PacketTrim(trims[i].pos + shift, trims[i].samples))
  }

  function AskOf(track: Track, spliceTrims: bool, spans: seq<Span>, grid: int): Ask {
    Ask(track, Preroll(track.codec), spliceTrims && |spans| > 1, spans, grid)
  }

  /** A track, or a grid, no span is cut from. */
  ghost predicate Ineligible(track: Track, spans: seq<Span>, grid: int) requires |spans| > 0 {
    || !OnAllowlist(track.codec) || (track.codec.HeAac? && spans[0].from > 0) || grid <= 0
    || track.delay < 0 || track.delay >= MAX_CUT_SAMPLE || grid >= MAX_CUT_SAMPLE
    || ((track.midPadding > 0 || |track.midTrims| > 0) && !Placeable(track, grid))
  }

  /** The ladder of refusals, in the order the code asks. */
  ghost function AnswerTo(track: Track, spliceTrims: bool, spans: seq<Span>, grid: int): Answer {
    if !ValidSpans(track, spans) then InvalidRequest
    else if Ineligible(track, spans, grid) then Declined
    else AnswerOn(AskOf(track, spliceTrims, spans, grid))
  }

  /** The refusals the snapped windows and the codec's own priming field add. */
  ghost function AnswerOn(a: Ask): Answer
    requires a.g > 0 && a.N() > 0
  {
    if !a.Keepable() then Declined else AnswerFor(a.Snapped())
  }

  ghost function AnswerFor(c: Cut): Answer
    requires c.g > 0 && 0 < c.N() == |c.spans|
  {
    if c.track.codec.Opus? && !c.track.config.OpusHead? then MalformedInput
    else if c.track.codec.Opus? && !(0 <= c.Delay() <= 65535) then Declined
    else Planned(c.ToPlan())
  }

  // ----- Facts the computation itself needs -----

  lemma ShiftedSnoc(trims: seq<PacketTrim>, tr: PacketTrim, shift: int)
    ensures Shifted(trims + [tr], shift) == Shifted(trims, shift) + [PacketTrim(tr.pos + shift, tr.samples)]
  {
  }

  lemma ShiftedAppend(a: seq<PacketTrim>, b: seq<PacketTrim>, shift: int)
    ensures Shifted(a + b, shift) == Shifted(a, shift) + Shifted(b, shift)
  {
  }

  lemma {:induction false} SumPrefix(a: seq<PacketTrim>, b: seq<PacketTrim>, k: nat)
    requires k <= |a| && k <= |b| && a[..k] == b[..k]
    ensures SumTo(a, k) == SumTo(b, k)
  {
    if k > 0 {
      assert a[..k][k - 1] == b[..k][k - 1];
      assert a[..k - 1] == a[..k][..k - 1] && b[..k - 1] == b[..k][..k - 1];
      SumPrefix(a, b, k - 1);
    }
  }

  lemma SumSnoc(a: seq<PacketTrim>, tr: PacketTrim)
    ensures Sum(a + [tr]) == Sum(a) + tr.samples
  {
    SumPrefix(a, a + [tr], |a|);
  }

  lemma {:induction false} SumAppend(a: seq<PacketTrim>, b: seq<PacketTrim>)
    ensures Sum(a + b) == Sum(a) + Sum(b)
    decreases |b|
  {
    if |b| == 0 {
      assert a + b == a;
    } else {
      var init, last := b[..|b| - 1], b[|b| - 1];
      assert a + b == (a + init) + [last] && b == init + [last];
      SumSnoc(a + init, last);
      SumSnoc(init, last);
      SumAppend(a, init);
    }
  }

  lemma {:induction false} SumSlice(a: seq<PacketTrim>, lo: nat, hi: nat)
    requires lo <= hi <= |a|
    ensures Sum(a[lo..hi]) == SumTo(a, hi) - SumTo(a, lo)
    decreases hi
  {
    if lo < hi {
      assert a[lo..hi] == a[lo..hi - 1] + [a[hi - 1]];
      SumSnoc(a[lo..hi - 1], a[hi - 1]);
      SumSlice(a, lo, hi - 1);
    }
  }

  /** The first requested sample on the raw timeline. */
  lemma HeadMaps(a: Ask, i: nat)
    requires a.Fit() && i < a.N()
    ensures 0 <= a.Df(i) && !Inside(a.track.midTrims, a.Df(i))
    ensures TrackOf(a.track.midTrims, a.track.delay, a.Df(i)) == a.spans[i].from
  {
    var trims, from := a.track.midTrims, a.spans[i].from;
    assert SpanOk(a.track, a.spans, i);
    RawOfIsTheSample(trims, a.g, a.track.delay, from, a.Df(i));
    SteppedLands(trims, a.g, 0, from + a.track.delay);
  }

  /** The requested end of a bounded span on the raw timeline. */
  lemma TailMaps(a: Ask, i: nat)
    requires a.Fit() && i < a.N() && a.spans[i].to != TO_END
    ensures a.Df(i) < a.Dt(i) && Clear(a.track.midTrims, a.Dt(i)) && !Inside(a.track.midTrims, a.Dt(i) - 1)
    ensures TrackOf(a.track.midTrims, a.track.delay, a.Dt(i)) == a.spans[i].to
  {
    var trims, s := a.track.midTrims, a.spans[i];
    assert SpanOk(a.track, a.spans, i);
    TimelinesAreInverse(trims, a.g, a.track.delay, s.from, s.to, 0);
    RawOfIsTheSample(trims, a.g, a.track.delay, s.to - 1, a.Dt(i) - 1);
  }

  /** The requested spans keep their order on the raw timeline. */
  lemma RequestInOrder(a: Ask, i: nat)
    requires a.Fit() && i + 1 < a.N()
    ensures a.spans[i].to != TO_END && a.Dt(i) <= a.Df(i + 1)
  {
    var trims, delay, s := a.track.midTrims, a.track.delay, a.spans[i];
    assert SpanOk(a.track, a.spans, i) && SpanOk(a.track, a.spans, i + 1);
    RawOfMonotone(trims, a.g, delay, s.to - 1, s.to);
    if s.to < a.spans[i + 1].from {
      RawOfMonotone(trims, a.g, delay, s.to, a.spans[i + 1].from);
    }
  }

  /** A bounded last span ends within the audio a declared length promises. */
  lemma RequestReachesAudio(a: Ask)
    requires a.Fit() && !a.LastToEnd() && a.track.samples >= 0
    ensures a.Dt(a.N() - 1) <= a.DecodedEnd() - a.track.padding
  {
    var i, trims := a.N() - 1, a.track.midTrims;
    TailMaps(a, i);
    assert SpanOk(a.track, a.spans, i);
    SumToMonotone(trims, a.g, Before(trims, a.Dt(i)), |trims|);
  }

  /** A bounded last span's audio starts before its requested end. */
  lemma HeadBeforeTail(a: Ask)
    requires a.Accepts() && !a.LastToEnd()
    ensures a.Hd(a.N() - 1) < a.Dt(a.N() - 1)
  {
    var i := a.N() - 1;
    TailMaps(a, i);
    assert a.KeepsPackets(i);
    if a.Dt(i) <= a.Hd(i) {
      GridGap(a.Hd(i), a.MergedEnd(i), a.g);
    }
  }

  /** Snapping an accepted request lays every head and tail where the plan needs it. */
  lemma SnapsLaid(a: Ask)
    requires a.Accepts()
    ensures a.Snapped().Laid()
  {
    var c := a.Snapped();
    forall i | 0 <= i < a.N()
      ensures c.HeadLaid(i)
    {
      HeadIsLaid(a, c, i);
    }
    forall i | 0 <= i < a.N()
      ensures c.TailLaid(i)
    {
      if i < a.N() - 1 {
        InnerTailIsLaid(a, c, i);
      } else {
        LastTailIsLaid(a, c);
      }
    }
  }

  lemma HeadIsLaid(a: Ask, c: Cut, i: nat)
    requires a.Accepts() && i < a.N() && c == a.Snapped()
    ensures c.HeadLaid(i)
  {
    HeadMaps(a, i);
    assert c.at[i] == a.BoundsOf(i);
  }

  lemma InnerTailIsLaid(a: Ask, c: Cut, i: nat)
    requires a.Accepts() && i < a.N() - 1 && c == a.Snapped()
    ensures c.TailLaid(i)
  {
    assert c.at[i] == a.BoundsOf(i) && c.at[i + 1] == a.BoundsOf(i + 1);
    assert a.KeepsPackets(i) && a.Apart(i);
    HeadMaps(a, i);
    RequestInOrder(a, i);
    TailMaps(a, i);
    HeadMaps(a, i + 1);
    if a.splice {
      GridGap(a.Hd(i), a.Su(i), a.g);
    }
  }

  lemma LastTailIsLaid(a: Ask, c: Cut)
    requires a.Accepts() && c == a.Snapped()
    ensures c.TailLaid(a.N() - 1)
  {
    var i := a.N() - 1;
    assert c.at[i] == a.BoundsOf(i);
    assert a.KeepsPackets(i);
    HeadMaps(a, i);
    if !a.LastToEnd() {
      TailMaps(a, i);
      HeadBeforeTail(a);
      if a.track.samples >= 0 {
        RequestReachesAudio(a);
      }
    }
  }

  // ----- Facts about the laid bounds -----

  /** A window's packets and audio start on the grid, and it holds a packet of audio. */
  lemma WindowShape(c: Cut, i: nat)
    requires c.Laid() && i < c.N()
    ensures 0 <= c.at[i].sd <= c.at[i].hd && OnGrid(c.at[i].sd, c.g) && OnGrid(c.at[i].hd, c.g)
    ensures c.at[i].su >= 0 ==> c.at[i].hd < c.at[i].su
    ensures i < c.N() - 1 ==> 0 <= c.at[i].su <= c.at[i + 1].sd
    ensures i < c.N() - 1 || !c.open ==> OnGrid(c.at[i].su, c.g) && 0 <= c.at[i].su
    ensures !c.splice || i == 0 ==> c.at[i].sd == c.at[i].hd
    ensures c.at[i].su < 0 ==> i == c.N() - 1 && c.UnknownEnd() && c.open
  {
    assert c.HeadLaid(i) && c.TailLaid(i);
  }

  /** A window's discarded, kept and restated trims follow each other. */
  lemma TrimsInOrder(c: Cut, i: nat)
    requires c.Laid() && i < c.N()
    ensures Before(c.track.midTrims, c.at[i].sd) <= Before(c.track.midTrims, c.at[i].hd) <= c.TrimsUpTo(i) <=
        c.TrimsEnd(i)
    ensures c.TailSlop(i) >= 0
  {
    WindowShape(c, i);
    SlopIsWithin(c, i);
    TrimCountsInOrder(c.track.midTrims, c.g, c.at[i]);
  }

  lemma SlopIsWithin(c: Cut, i: nat)
    requires c.Laid() && i < c.N()
    ensures c.TailSlop(i) >= 0
  {
    assert c.TailLaid(i);
  }

  lemma TrimCountsInOrder(trims: seq<PacketTrim>, g: int, b: Bounds)
    requires Placed(trims, g) && b.sd <= b.hd && (b.su >= 0 ==> b.hd < b.su)
    ensures Before(trims, b.sd) <= Before(trims, b.hd) <= |trims|
    ensures b.su >= 0 ==> Before(trims, b.hd) <= Before(trims, b.su - 1) <= Before(trims, b.su)
  {
    BeforeMonotone(trims, g, b.sd, b.hd);
    if b.su >= 0 {
      BeforeMonotone(trims, g, b.hd, b.su - 1);
      BeforeMonotone(trims, g, b.su - 1, b.su);
    }
  }

  lemma {:induction false} WindowsApart(c: Cut, i: nat, j: nat)
    requires c.Laid() && i < j < c.N()
    ensures c.at[i].su <= c.at[j].sd
    decreases j
  {
    assert c.TailLaid(i);
    if i < j - 1 {
      WindowsApart(c, i, j - 1);
      assert c.HeadLaid(j - 1) && c.TailLaid(j - 1);
    }
  }
}
