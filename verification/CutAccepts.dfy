/** What a cut never declines (cut.go): spans a caller can see are long enough, and far enough apart. */
module CutAccepts {
  import opened Container
  import opened CutTimeline
  import opened CutPlan

  /** A span of two packets or more; spliced, the pre-roll and two packets past the one before it. */
  predicate Roomy(track: Track, splice: bool, spans: seq<Span>, g: int, i: nat)
    requires i < |spans|
  {
    var s := spans[i];
    var end := if s.to == TO_END then track.samples else s.to;
    && (end >= 0 ==> s.from + 2 * g <= end)
    && (splice && i > 0 ==> spans[i - 1].to + Preroll(track.codec) + 2 * g <= s.from)
  }

  /** A priming a 16-bit field can state. */
  predicate Primes(track: Track, g: int) {
    track.codec.Opus? ==> track.config.OpusHead? && Preroll(Opus) + g <= 65536
  }

  /** No valid request of a track that is cut at all is declined, or refused, while its spans are roomy. */
  lemma RoomyIsCut(track: Track, spliceTrims: bool, spans: seq<Span>, grid: int)
    requires track.padding >= 0 && track.midPadding >= 0 && ValidSpans(track, spans) && Primes(track, grid)
    requires !Ineligible(track, spans, grid)
    requires forall i :: 0 <= i < |spans| ==> Roomy(track, spliceTrims, spans, grid, i)
    ensures AnswerTo(track, spliceTrims, spans, grid).Planned?
  {
    var a := AskOf(track, spliceTrims, spans, grid);
    assert a.Fit();
    forall i | 0 <= i < a.N()
      ensures a.KeepsPackets(i) && (i < a.N() - 1 ==> a.Apart(i))
    {
      assert Roomy(track, spliceTrims, spans, grid, i);
      RoomyKeeps(a, i);
      if i < a.N() - 1 {
        assert Roomy(track, spliceTrims, spans, grid, i + 1);
        RoomyApart(a, i);
      }
    }
    ShortPriming(a, a.Df(0), a.Hd(0));
  }

  /** How far apart two places are heard is no more than how far apart they lie. */
  lemma Spread(a: Ask, i: nat)
    requires a.Fit() && i < a.N() && a.spans[i].to != TO_END
    ensures a.spans[i].to - a.spans[i].from <= a.Dt(i) - a.Df(i)
  {
    HeadMaps(a, i);
    TailMaps(a, i);
    HeardMonotone(a.track.midTrims, a.g, a.Df(i), a.Dt(i));
  }

  lemma RoomyKeeps(a: Ask, i: nat)
    requires a.Fit() && i < a.N() && Roomy(a.track, a.splice, a.spans, a.g, i)
    ensures a.KeepsPackets(i)
  {
    HeadMaps(a, i);
    if a.spans[i].to == TO_END {
      assert SpanOk(a.track, a.spans, i);
      OpenReaches(a, i);
    } else {
      Spread(a, i);
      assert a.Hd(i) < a.Df(i) + a.g <= a.Dt(i) - a.g;
      if a.Adjacent(i) {
        RequestInOrder(a, i);
        assert a.Dt(i) <= a.Df(i + 1) <= a.Hd(i + 1) == a.Sd(i + 1);
      } else {
        assert a.Dt(i) - a.g < a.SnappedEnd(i);
      }
    }
  }

  lemma OpenReaches(a: Ask, i: nat)
    requires a.Fit() && i < a.N() && Roomy(a.track, a.splice, a.spans, a.g, i) && a.spans[i].to == TO_END
    ensures a.track.samples >= 0 ==> a.Df(i) + 2 * a.g <= a.DecodedEnd()
  {
    HeadMaps(a, i);
    SumToMonotone(a.track.midTrims, a.g, Before(a.track.midTrims, a.Df(i)), |a.track.midTrims|);
  }

  lemma RoomyApart(a: Ask, i: nat)
    requires a.Fit() && i + 1 < a.N() && Roomy(a.track, a.splice, a.spans, a.g, i + 1)
    requires a.preroll == Preroll(a.track.codec)
    ensures a.Apart(i)
  {
    RequestInOrder(a, i);
    if a.splice {
      TailMaps(a, i);
      HeadMaps(a, i + 1);
      HeardMonotone(a.track.midTrims, a.g, a.Dt(i), a.Df(i + 1));
    }
  }

  /** The synthesized delay is less than the pre-roll and a packet. */
  lemma ShortPriming(a: Ask, df: int, hd: int)
    requires a.Fit() && df == a.Df(0) && hd == a.Hd(0)
    ensures 0 <= a.Snapped().Delay() < a.preroll + a.g
  {
    var c := a.Snapped();
    assert c.at[0] == a.BoundsOf(0) && c.track == a.track;
    DelayIs(c, hd, df);
    HeadMaps(a, 0);
    ShortHead(a.track.midTrims, a.g, a.preroll, df, hd);
  }

  lemma DelayIs(c: Cut, sd: int, df: int)
    requires c.N() > 0 && c.at[0].sd == sd && c.at[0].df == df
    ensures c.Delay() == Heard(c.track.midTrims, df) - Heard(c.track.midTrims, sd)
  {
  }

  lemma ShortHead(trims: seq<PacketTrim>, g: int, pre: nat, df: int, hd: int)
    requires Placed(trims, g) && 0 <= df && hd == SnapGridDown(df - pre, g)
    ensures 0 <= Heard(trims, df) - Heard(trims, hd) < pre + g
  {
    GridIsClear(trims, g, hd);
    HeardMonotone(trims, g, hd, df);
  }
}
