/** How a cut warms its decoder (cut.go): the packets ahead of a head that are decoded and not heard. Labels cannot see
    a decoder converge, so this is said of where the windows start. */
module CutPreroll {
  import opened Container
  import opened CutTimeline
  import opened CutPlan
  import opened CutLaws

  /** 80 ms of Opus at 48 kHz (section 4.2 of RFC 7845), one AAC-LC frame, twelve HE-AAC access units. */
  lemma PrerollLengths()
    ensures 1000 * Preroll(Opus) == 80 * 48000 && Preroll(AacLc) == 1024 && Preroll(HeAac) == 12 * 2048
  {
  }

  /** A packet boundary and the raw place of its own track position: nothing between the two is heard. */
  lemma BoundaryPlace(trims: seq<PacketTrim>, g: int, delay: int, h: int, raw: int)
    requires Placed(trims, g) && OnGrid(h, g) && raw == RawOf(trims, delay, TrackOf(trims, delay, h))
    ensures h <= raw && Heard(trims, raw) == Heard(trims, h) && (PartialTrims(trims, g) ==> raw == h)
  {
    var t := TrackOf(trims, delay, h);
    TimelinesAreInverse(trims, g, delay, t, t + 1, h);
    if raw < h {
      OutsideIsClear(trims, g, raw);
      HeardMonotone(trims, g, raw, h);
    }
    if PartialTrims(trims, g) {
      StartIsHeard(trims, g, h);
    }
  }

  /** A window that starts at w warms the decoder up for the sample at raw: by the codec's pre-roll unless the stream
      itself starts there, and by less than a packet more of what is heard. */
  ghost predicate Warms(trims: seq<PacketTrim>, g: int, pre: int, w: int, raw: int) {
    && OnGrid(w, g) && w <= raw && (w == 0 || w + pre <= raw)
    && Heard(trims, raw) - Heard(trims, w) < pre + g && (PartialTrims(trims, g) ==> raw < w + pre + g)
  }

  lemma SnapWarms(trims: seq<PacketTrim>, g: int, pre: nat, h: int, w: int, raw: int)
    requires Placed(trims, g) && 0 <= h <= raw && Heard(trims, raw) == Heard(trims, h)
    requires PartialTrims(trims, g) ==> raw == h
    requires w == SnapGridDown(h - pre, g)
    ensures Warms(trims, g, pre, w, raw)
  {
    GridIsClear(trims, g, w);
    HeardMonotone(trims, g, w, h);
  }

  /** Every window of an accepted plan: the first, and every spliced one, is warmed up for the sample its span lands at,
      and a plain interior one starts with that sample, nothing before it heard. */
  lemma EveryHeadIsWarm(track: Track, spliceTrims: bool, spans: seq<Span>, grid: int, plan: Plan, i: nat)
    requires Accepted(track, spliceTrims, spans, grid) && Planned(plan) == AnswerTo(track, spliceTrims, spans, grid)
    requires i < |spans|
    ensures |plan.windows| == |plan.landed| == |spans| && grid > 0 && (i == 0 ==> plan.landed[i].from == spans[0].from)
    ensures var w, raw := plan.windows[i].from, RawOf(track.midTrims, track.delay, plan.landed[i].from);
      if i == 0 || spliceTrims then Warms(track.midTrims, grid, Preroll(track.codec), w, raw)
      else
        && OnGrid(w, grid) && w <= raw && Heard(track.midTrims, w) == Heard(track.midTrims, raw)
        && (PartialTrims(track.midTrims, grid) ==> w == raw)
  {
    var a := WindowsStart(track, spliceTrims, spans, grid, plan, i);
    HeadMaps(a, i);
    HeadIsWarm(a, i, if i == 0 then a.Df(0) else
      RawOf(track.midTrims, track.delay, TrackOf(track.midTrims, track.delay, a.Hd(i))));
  }

  /** A plan's windows start where the request's packets do. */
  lemma WindowsStart(track: Track, spliceTrims: bool, spans: seq<Span>, grid: int, plan: Plan, i: nat)
      returns (a: Ask)
    requires Accepted(track, spliceTrims, spans, grid) && Planned(plan) == AnswerTo(track, spliceTrims, spans, grid)
    requires i < |spans|
    ensures grid > 0 && a == AskOf(track, spliceTrims, spans, grid) && a.Fit()
    ensures |plan.windows| == |plan.landed| == |spans| && plan.windows[i].from == a.Sd(i)
    ensures plan.landed[i].from == if i == 0 then spans[0].from else TrackOf(track.midTrims, track.delay, a.Hd(i))
  {
    var c;
    a, c := AcceptedAsk(track, spliceTrims, spans, grid);
    assert plan == c.ToPlan() && plan.windows == c.Windows() && plan.landed == c.Landings();
    assert plan.windows[i] == c.WindowOf(i) && plan.landed[i] == c.Landing(i) && c.at[i] == a.BoundsOf(i);
  }

  lemma HeadIsWarm(a: Ask, i: nat, raw: int)
    requires a.Fit() && i < a.N() && a.Df(i) >= 0
    requires raw == if i == 0 then a.Df(0)
      else RawOf(a.track.midTrims, a.track.delay, TrackOf(a.track.midTrims, a.track.delay, a.Hd(i)))
    ensures if i == 0 || a.splice then Warms(a.track.midTrims, a.g, a.preroll, a.Sd(i), raw)
      else
        && OnGrid(a.Sd(i), a.g) && a.Sd(i) <= raw && Heard(a.track.midTrims, a.Sd(i)) == Heard(a.track.midTrims, raw)
        && (PartialTrims(a.track.midTrims, a.g) ==> a.Sd(i) == raw)
  {
    var trims, hd := a.track.midTrims, a.Hd(i);
    if i == 0 {
      SnapWarms(trims, a.g, a.preroll, raw, hd, raw);
    } else {
      BoundaryPlace(trims, a.g, a.track.delay, hd, raw);
      if a.splice {
        var sd := a.Sd(i);
        assert sd == SnapGridDown(hd - a.preroll, a.g);
        SnapWarms(trims, a.g, a.preroll, hd, sd, raw);
      }
    }
  }

  // ----- The codecs a cut survives -----

  /** Only the codecs on the allowlist are cut, and HE-AAC only from sample 0. */
  lemma OnlyAllowed(track: Track, spliceTrims: bool, spans: seq<Span>, grid: int)
    requires Accepted(track, spliceTrims, spans, grid)
    ensures (track.codec == Opus || track.codec == AacLc || track.codec == HeAac) && |spans| > 0
    ensures track.codec == HeAac ==> spans[0].from == 0
  {
    assert ValidSpans(track, spans) && !Ineligible(track, spans, grid);
    assert SpanOk(track, spans, 0);
  }

  /** An HE-AAC cut keeps its stream's first packet exactly when the priming ahead of sample 0 is less than the pre-roll
      and a packet. */
  lemma HeadOnly(track: Track, spliceTrims: bool, spans: seq<Span>, grid: int, plan: Plan, raw: int)
    requires Accepted(track, spliceTrims, spans, grid) && Planned(plan) == AnswerTo(track, spliceTrims, spans, grid)
    requires track.codec == HeAac && raw == RawOf(track.midTrims, track.delay, 0)
    ensures |plan.windows| > 0 && (plan.windows[0].from == 0 <==> raw < Preroll(HeAac) + grid)
  {
    OnlyAllowed(track, spliceTrims, spans, grid);
    var a := WindowsStart(track, spliceTrims, spans, grid, plan, 0);
    FirstStart(a, raw);
  }

  lemma FirstStart(a: Ask, raw: int)
    requires a.g > 0 && a.N() > 0 && raw == RawOf(a.track.midTrims, a.track.delay, a.spans[0].from)
    ensures a.Sd(0) == 0 <==> raw < a.preroll + a.g
  {
    SnapBelow(raw - a.preroll, a.g);
  }

  lemma SnapBelow(x: int, g: int)
    requires g > 0
    ensures SnapGridDown(x, g) == 0 <==> x < g
  {
    var r := SnapGridDown(x, g);
    if 0 < x < g && r > 0 {
      GridGap(0, r, g);
    }
  }

  /** A longer priming is accepted too, and costs the stream its first packet. */
  const LongPrimed: Track := Track(0, HeAac, OtherConfig, 100000, 26624, 0, 0, [], true, false)

  lemma FirstPacketDropped()
    ensures var spans := [Span(0, 50000)];
      && Accepted(LongPrimed, false, spans, 2048)
      && AnswerTo(LongPrimed, false, spans, 2048).plan.windows[0].from == 2048
  {
    var spans := [Span(0, 50000)];
    var a := AskOf(LongPrimed, false, spans, 2048);
    assert SpanOk(LongPrimed, spans, 0) && ValidSpans(LongPrimed, spans);
    assert a.Df(0) == 26624 && a.Hd(0) == 2048 && a.Dt(0) == 76624 && a.MergedEnd(0) == 77824;
    assert a.KeepsPackets(0);
    var c := a.Snapped();
    assert c.ToPlan().windows[0] == c.WindowOf(0) && c.at[0] == a.BoundsOf(0);
  }
}
