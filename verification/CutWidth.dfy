/** The planner's arithmetic on the machine's 64-bit integers (cut.go): exactly which tracks it never wraps on. */
module CutWidth {
  import opened Container
  import opened CutTimeline
  import opened CutPlan
  import opened CutLayout
  import opened CutLength
  import opened CutListening
  import opened CutLanding
  import opened CutLaws

  const INT64_MAX: int := 0x7FFF_FFFF_FFFF_FFFF
  const INT64_MIN: int := -0x8000_0000_0000_0000

  predicate Int64(x: int) { INT64_MIN <= x <= INT64_MAX }

  /** What the machine makes of a sum. */
  function Wrap(x: int): int { (x - INT64_MIN) % 0x1_0000_0000_0000_0000 + INT64_MIN }

  /** A difference that fits comes out right even of a sum that did not. */
  lemma WrapsBack(x: int, y: int)
    requires Int64(x - y)
    ensures Wrap(Wrap(x) - y) == x - y
  {
  }

  // ----- A request -----

  /** Every sum that carries track position t past the delay and the trims. */
  ghost predicate MappedFits(a: Ask, t: int) {
    forall k :: 0 <= k <= |a.track.midTrims| ==> Int64(t + a.track.delay + SumTo(a.track.midTrims, k))
  }

  /** Every sum behind one span's bounds. */
  ghost predicate SpanFits(a: Ask, i: nat)
    requires a.g > 0 && i < a.N()
  {
    && MappedFits(a, a.spans[i].from)
    && (a.spans[i].to != TO_END ==> MappedFits(a, a.spans[i].to - 1) && Int64(a.Dt(i) + a.g - 1))
    && Int64(a.Df(i) - a.preroll) && Int64(a.Df(i) + a.g - 1) && Int64(a.Hd(i) - a.preroll)
    && Int64(a.Df(i)) && Int64(a.Dt(i)) && Int64(a.Hd(i)) && Int64(a.Sd(i))
    && Int64(a.SnappedEnd(i)) && Int64(a.MergedEnd(i)) && Int64(a.Su(i))
  }

  /** Every sum formed of a request before its plan. */
  ghost predicate RequestFits(a: Ask)
    requires a.g > 0
  {
    var t := a.track;
    && (forall k :: 0 <= k < |t.midTrims| ==> Int64(t.midTrims[k].End()))
    && (forall k :: 0 <= k <= |t.midTrims| ==> Int64(SumTo(t.midTrims, k)))
    && (t.samples >= 0 ==>
      Int64(t.delay + t.samples) && Int64(t.delay + t.samples + t.padding) && Int64(EndOfDecode(t)))
    && forall i :: 0 <= i < a.N() ==> SpanFits(a, i)
  }

  /** The track's own numbers leave room: each recorded trim's end is a position, and so is the declared decode's. */
  ghost predicate Bounded(t: Track) {
    && (forall k :: 0 <= k < |t.midTrims| ==> t.midTrims[k].End() <= INT64_MAX)
    && (t.samples >= 0 ==> t.samples <= INT64_MAX - t.delay - t.padding - t.midPadding)
  }

  /** The ceiling the planner holds its addends to. */
  ghost predicate UnderCeiling(a: Ask) {
    && a.track.delay < MAX_CUT_SAMPLE && a.g < MAX_CUT_SAMPLE && a.track.midPadding < MAX_CUT_SAMPLE
    && a.preroll < MAX_CUT_SAMPLE
  }

  /** A mapped position is the track sample plus at most the delay and every trim. */
  lemma MappedBound(a: Ask, t: int)
    requires a.Fit() && t >= -1
    ensures t + a.track.delay <= RawOf(a.track.midTrims, a.track.delay, t) <= t + a.track.delay + a.track.midPadding
  {
    var trims, raw := a.track.midTrims, RawOf(a.track.midTrims, a.track.delay, t);
    SteppedLands(trims, a.g, 0, t + a.track.delay);
    SumToMonotone(trims, a.g, Before(trims, raw), |trims|);
  }

  /** The sums of recorded trims are between none and all of them. */
  lemma SumsBound(a: Ask, k: nat)
    requires a.Fit() && k <= |a.track.midTrims|
    ensures 0 <= SumTo(a.track.midTrims, k) <= a.track.midPadding
  {
    SumToMonotone(a.track.midTrims, a.g, 0, k);
    SumToMonotone(a.track.midTrims, a.g, k, |a.track.midTrims|);
  }

  /** No requested or snapped bound of a span below the end wraps: under the ceiling, the raw span, the sums the snaps
      form on the way, and the snapped span all fit, whatever the track declares. */
  lemma BoundsFit(a: Ask, i: nat)
    requires a.Fit() && i < a.N() && UnderCeiling(a)
    ensures 0 <= a.Df(i) <= a.Df(i) + a.g - 1 <= INT64_MAX && 0 <= a.Sd(i) <= a.Hd(i) <= INT64_MAX
    ensures MappedFits(a, a.spans[i].from)
    ensures a.spans[i].to != TO_END ==>
      && MappedFits(a, a.spans[i].to - 1)
      && 0 < a.Dt(i) <= a.Dt(i) + a.g - 1 <= INT64_MAX && 0 <= a.SnappedEnd(i) <= INT64_MAX
  {
    assert SpanOk(a.track, a.spans, i);
    var from, end := a.spans[i].from, a.spans[i].to;
    MappedBound(a, from);
    if end != TO_END {
      MappedBound(a, end - 1);
    }
    forall k | 0 <= k <= |a.track.midTrims|
      ensures Int64(from + a.track.delay + SumTo(a.track.midTrims, k))
      ensures end != TO_END ==> Int64(end - 1 + a.track.delay + SumTo(a.track.midTrims, k))
    {
      SumsBound(a, k);
    }
  }

  lemma SpanFitsWhen(a: Ask, i: nat)
    requires a.Fit() && i < a.N() && UnderCeiling(a) && Bounded(a.track)
    ensures SpanFits(a, i)
  {
    BoundsFit(a, i);
    if i + 1 < a.N() {
      BoundsFit(a, i + 1);
    }
  }

  /** Every sum a request's bounds are made of fits exactly when the track's own numbers leave room for it. */
  lemma RequestFitsWhen(a: Ask)
    requires a.Fit() && UnderCeiling(a)
    ensures RequestFits(a) <==> Bounded(a.track)
  {
    if Bounded(a.track) {
      forall k | 0 <= k <= |a.track.midTrims|
        ensures Int64(SumTo(a.track.midTrims, k))
      {
        SumsBound(a, k);
      }
      forall k | 0 <= k < |a.track.midTrims|
        ensures Int64(a.track.midTrims[k].End())
      {
      }
      forall i | 0 <= i < a.N()
        ensures SpanFits(a, i)
      {
        SpanFitsWhen(a, i);
      }
    }
  }

  // ----- Its plan -----

  /** Every number a plan states, and the sums it is built up in. A trim's place is base + pos - sd: the sum may pass
      the range on the way, and WrapsBack says that the place is right when it fits. */
  ghost predicate PlanFits(c: Cut)
    requires c.g > 0 && 0 < c.N() == |c.spans|
  {
    var trims := c.CutTrims(c.N());
    && (forall i :: 0 <= i <= c.N() ==> Int64(c.Base(i)) && (c.UnknownEnd() || Int64(c.Delivered(i))))
    && (forall k :: 0 <= k < |trims| ==> Int64(trims[k].pos) && Int64(trims[k].End()))
    && (forall k :: 0 <= k <= |trims| ==> Int64(SumTo(trims, k)))
    && Int64(c.Delay()) && Int64(c.Padding()) && Int64(c.Samples())
    && (forall i :: 0 <= i < c.N() ==> Int64(c.Landing(i).from) && Int64(c.Landing(i).to))
  }

  /** A window lands no later on the output's timeline than on the source's. */
  lemma {:induction false} OutputFits(c: Cut, i: nat)
    requires c.Laid() && i < c.N()
    ensures 0 <= c.Base(i) <= c.at[i].sd
  {
    WindowShape(c, i);
    if i > 0 {
      OutputFits(c, i - 1);
      WindowShape(c, i - 1);
    }
  }

  /** The bounds of an accepted request's plan are positions. */
  ghost predicate Positions(c: Cut) {
    && (forall i :: 0 <= i < c.N() ==>
      c.at[i].df <= INT64_MAX && c.at[i].hd <= INT64_MAX && c.at[i].su <= INT64_MAX)
    && (forall k :: 0 <= k < |c.track.midTrims| ==> c.track.midTrims[k].End() <= INT64_MAX)
    && Int64(c.track.padding) && c.track.samples <= INT64_MAX
    && c.track.delay < MAX_CUT_SAMPLE && c.g < MAX_CUT_SAMPLE
  }

  lemma {:induction false} BaseFits(c: Cut, i: nat)
    requires c.Laid() && Positions(c) && i <= c.N()
    ensures 0 <= c.Base(i) <= INT64_MAX
    ensures !(i == c.N() && c.UnknownEnd()) ==> c.Delivered(i) == c.Base(i)
  {
    if i > 0 {
      BaseFits(c, i - 1);
      OutputFits(c, i - 1);
      WindowShape(c, i - 1);
      assert c.TailLaid(i - 1);
    }
  }

  lemma {:induction false} WithinSums(trims: seq<PacketTrim>, g: int, hi: int, k: nat)
    requires Within(trims, g, 0, hi) && k <= |trims|
    ensures 0 <= SumTo(trims, k) <= (if k == 0 then 0 else trims[k - 1].End())
  {
    if k > 0 {
      WithinSums(trims, g, hi, k - 1);
    }
  }

  lemma ReachFits(c: Cut, i: nat)
    requires c.Laid() && Positions(c) && i < c.N()
    ensures Reach(c, i) <= INT64_MAX
  {
  }

  lemma TrimsFitWhen(c: Cut, trims: seq<PacketTrim>)
    requires c.Laid() && Positions(c) && trims == c.CutTrims(c.N())
    ensures forall k :: 0 <= k < |trims| ==> Int64(trims[k].pos) && Int64(trims[k].End())
    ensures forall k :: 0 <= k <= |trims| ==> Int64(SumTo(trims, k))
  {
    var last := c.N() - 1;
    PartsTile(c);
    ConcatWithin(c.Parts(), EndsOf(c), c.g, c.N());
    OutputFits(c, last);
    ReachFits(c, last);
    var hi := BaseReach(c, c.N());
    assert EndsOf(c)[0] == 0 && EndsOf(c)[c.N()] == hi <= INT64_MAX;
    forall k | 0 <= k <= |trims|
      ensures Int64(SumTo(trims, k))
    {
      WithinSums(trims, c.g, hi, k);
    }
  }

  lemma DelayFits(c: Cut)
    requires c.Laid() && TrimsCovered(c.track) && Positions(c)
    ensures 0 <= c.Delay() <= INT64_MAX
  {
    HeadsMeet(c);
    WindowShape(c, 0);
    GridIsClear(c.track.midTrims, c.g, c.at[0].hd);
    assert c.HeadLaid(0);
    HeardMonotone(c.track.midTrims, c.g, c.at[0].hd, c.at[0].df);
  }

  lemma PaddingFits(c: Cut)
    requires c.Laid() && Positions(c)
    ensures 0 <= c.Padding() <= INT64_MAX
  {
    WindowShape(c, c.N() - 1);
    assert c.TailLaid(c.N() - 1);
  }

  lemma {:induction false} ForwardsPositive(xs: seq<int>, k: nat)
    requires k <= |xs|
    ensures Forwards(xs, k) >= 0
  {
    if k > 0 {
      ForwardsPositive(xs, k - 1);
    }
  }

  lemma HeardFromZero(trims: seq<PacketTrim>, g: int, x: nat)
    requires Placed(trims, g) && OnGrid(x, g)
    ensures Heard(trims, x) >= 0
  {
    GridIsClear(trims, g, 0);
    BeforeIs(trims, g, 0, 0);
    HeardMonotone(trims, g, 0, x);
  }

  /** The two corners run back no further than the planner's own ceilings. */
  lemma FirstGapBounded(c: Cut)
    requires c.Laid() && Positions(c)
    ensures FirstGap(c) <= 2 * MAX_CUT_SAMPLE
  {
    assert c.HeadLaid(0) && SpanOk(c.track, c.spans, 0);
    WindowShape(c, 0);
    if c.N() > 1 {
      HeardFromZero(c.track.midTrims, c.g, c.at[0].su);
    }
  }

  lemma LastGapBounded(c: Cut, last: nat)
    requires c.Laid() && TrimsCovered(c.track) && Positions(c) && !c.UnknownEnd() && last == c.N() - 1
    ensures LastGap(c) <= MAX_CUT_SAMPLE
  {
    GapOfLast(c);
    if last > 0 {
      assert SpanOk(c.track, c.spans, last);
      HeadLanding(c, last);
      TailLanding(c, last);
    }
  }

  lemma SamplesFit(c: Cut)
    requires c.Laid() && TrimsCovered(c.track) && Positions(c)
    ensures Int64(c.Samples())
  {
    if !c.UnknownEnd() {
      SamplesAreLanded(c);
      NegativeWhen(c);
      ForwardsPositive(Extents(c.Landings()), c.N());
      FirstGapBounded(c);
      LastGapBounded(c, c.N() - 1);
      BaseFits(c, c.N());
      DelayFits(c);
      PaddingFits(c);
      TrimsFitWhen(c, c.CutTrims(c.N()));
      SumNotNegative(c);
      assert c.CutTrack().samples == c.Samples();
    }
  }

  lemma SumNotNegative(c: Cut)
    requires c.Laid()
    ensures Sum(c.CutTrims(c.N())) >= 0
  {
    CutTrimsArePlaced(c);
    SumToMonotone(c.CutTrims(c.N()), c.g, 0, |c.CutTrims(c.N())|);
  }

  lemma LandingFits(c: Cut, i: nat)
    requires c.Laid() && TrimsCovered(c.track) && Positions(c) && i < c.N()
    ensures Int64(c.Landing(i).from) && Int64(c.Landing(i).to)
  {
    LandingFromFits(c, i);
    assert SpanOk(c.track, c.spans, i);
    if i == c.N() - 1 || c.splice {
      TailLanding(c, i);
    } else {
      var next := i + 1;
      assert SpanOk(c.track, c.spans, next);
      LandingFromFits(c, next);
      InnerLandingFits(c, i, next);
    }
  }

  lemma InnerLandingFits(c: Cut, i: nat, next: nat)
    requires c.Laid() && TrimsCovered(c.track) && next == i + 1 < c.N() && !c.splice && c.g < MAX_CUT_SAMPLE
    requires 0 <= c.spans[i].to < MAX_CUT_SAMPLE && c.spans[i].to <= c.spans[next].from
    requires Int64(c.Landing(next).from)
    ensures Int64(c.Landing(i).to)
  {
    TailLanding(c, i);
  }

  lemma LandingFromFits(c: Cut, i: nat)
    requires c.Laid() && TrimsCovered(c.track) && Positions(c) && i < c.N()
    ensures Int64(c.Landing(i).from)
  {
    assert SpanOk(c.track, c.spans, i);
    HeadLanding(c, i);
  }

  lemma PlanFitsWhen(c: Cut)
    requires c.Laid() && TrimsCovered(c.track) && Positions(c)
    ensures PlanFits(c)
  {
    forall i | 0 <= i <= c.N()
      ensures Int64(c.Base(i)) && (c.UnknownEnd() || Int64(c.Delivered(i)))
    {
      BaseFits(c, i);
    }
    TrimsFitWhen(c, c.CutTrims(c.N()));
    DelayFits(c);
    PaddingFits(c);
    SamplesFit(c);
    forall i | 0 <= i < c.N()
      ensures Int64(c.Landing(i).from) && Int64(c.Landing(i).to)
    {
      LandingFits(c, i);
    }
  }

  lemma SnapsArePositions(a: Ask, c: Cut)
    requires a.Accepts() && c == a.Snapped() && UnderCeiling(a) && Bounded(a.track)
    requires Int64(a.track.padding)
    ensures Positions(c)
  {
    forall i | 0 <= i < c.N()
      ensures c.at[i].df <= INT64_MAX && c.at[i].hd <= INT64_MAX && c.at[i].su <= INT64_MAX
    {
      SpanFitsWhen(a, i);
      assert c.at[i] == a.BoundsOf(i);
    }
  }

  /** Nothing the planner forms wraps, of any request it takes as far as its windows and of any plan it makes, exactly
      when the end of each recorded trim and of the declared decode are positions. */
  lemma NothingWraps(a: Ask)
    requires a.Fit() && UnderCeiling(a) && TrimsCovered(a.track)
    requires Int64(a.track.padding)
    ensures (RequestFits(a) && (a.Keepable() ==> PlanFits(a.Snapped()))) <==> Bounded(a.track)
  {
    RequestFitsWhen(a);
    if Bounded(a.track) && a.Keepable() {
      SnapsLaid(a);
      SnapsArePositions(a, a.Snapped());
      PlanFitsWhen(a.Snapped());
    }
  }

  /** The declared length is held to no ceiling: a track that declares 2^63 - 1 samples behind one of priming is
      accepted. */
  lemma DecodedEndCanWrap()
    ensures var t := Track(0, AacLc, OtherConfig, INT64_MAX, 1, 0, 0, [], true, false);
      var a := AskOf(t, false, [Span(0, 5000)], 1024);
      a.Fit() && a.Keepable() && AnswerTo(t, false, [Span(0, 5000)], 1024).Planned? && a.DecodedEnd() > INT64_MAX
  {
    var t := Track(0, AacLc, OtherConfig, INT64_MAX, 1, 0, 0, [], true, false);
    var a := AskOf(t, false, [Span(0, 5000)], 1024);
    assert SpanOk(t, a.spans, 0) && ValidSpans(t, a.spans);
    assert a.Df(0) == 1 && a.Hd(0) == 0 && a.Dt(0) == 5001 && a.MergedEnd(0) == 5120;
    assert a.KeepsPackets(0);
  }

  const FarTrim: Track := Track(0, AacLc, OtherConfig, -1, 0, 0, 512, [PacketTrim(INT64_MAX - 511, 512)], false, false)

  /** Nor is a recorded trim's place: one in the packet that ends at 2^63 is accepted, and lies past every window, but
      its end wraps to below them all, so that comparing its place with a window's start and its end with a window's end
      puts it inside each. */
  lemma TrimEndCanWrap()
    ensures var spans := [Span(0, 3000), Span(5000, 9000)];
      && Accepted(FarTrim, false, spans, 1024)
      && var plan, end := AnswerTo(FarTrim, false, spans, 1024).plan, FarTrim.midTrims[0].End();
         && plan.windows == [Window(0, 2048), Window(5120, 9216)] && plan.track.delay == 0
         && end > INT64_MAX && FarTrim.midTrims[0].pos >= 9216 && Wrap(end) < 0
  {
    var spans := [Span(0, 3000), Span(5000, 9000)];
    FarTrimPlaced();
    FarRequest(AskOf(FarTrim, false, spans, 1024));
    var c := CutOf(FarTrim, false, spans, 1024);
    assert c.ToPlan().windows == [c.WindowOf(0), c.WindowOf(1)];
  }

  lemma FarTrimPlaced()
    ensures Placeable(FarTrim, 1024)
  {
    var trims := FarTrim.midTrims;
    MultipleOnGrid(0x20_0000_0000_0000, 1024);
    assert SumTo(trims, 1) == SumTo(trims, 0) + 512;
    assert trims[0].End() == 0x20_0000_0000_0000 * 1024;
  }

  lemma FarRequest(a: Ask)
    requires a == AskOf(FarTrim, false, [Span(0, 3000), Span(5000, 9000)], 1024)
    ensures ValidSpans(FarTrim, a.spans) && a.Keepable()
    ensures a.BoundsOf(0) == Bounds(0, 3000, 0, 2048, 0) && a.BoundsOf(1) == Bounds(5000, 9000, 5120, 9216, 5120)
    ensures !a.TailClamped() && !a.LastToEnd()
  {
    assert SpanOk(FarTrim, a.spans, 0) && SpanOk(FarTrim, a.spans, 1);
    assert a.Df(0) == 0 && a.Dt(0) == 3000 && a.Df(1) == 5000 && a.Dt(1) == 9000;
    assert SnapGridDown(-1024, 1024) == 0 && SnapGridDown(3000, 1024) == 2048;
    assert SnapGridUp(5000, 1024) == 5120 && SnapGridUp(9000, 1024) == 9216;
    assert a.KeepsPackets(0) && a.KeepsPackets(1) && a.Apart(0);
  }
}
