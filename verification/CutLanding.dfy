/** Where a cut's spans land: inside the request, exactly at its two ends, and less than a packet off everywhere
    else. */
module CutLanding {
  import opened Container
  import opened CutTimeline
  import opened CutPlan
  import opened CutLayout
  import opened CutLength
  import opened CutLaws

  /** Raw positions less than a packet apart are less than a packet apart on the track. */
  lemma NearOnTrack(c: Cut, x: int, y: int)
    requires c.Laid() && x <= y < x + c.g && Clear(c.track.midTrims, x)
    ensures var delay := c.track.delay;
      TrackOf(c.track.midTrims, delay, x) <= TrackOf(c.track.midTrims, delay, y) <
          TrackOf(c.track.midTrims, delay, x) + c.g
  {
    HeardMonotone(c.track.midTrims, c.g, x, y);
  }

  /** The first head is exact, and every other one moves in by less than a packet. */
  lemma HeadLanding(c: Cut, i: nat)
    requires c.Laid() && TrimsCovered(c.track) && i < c.N()
    ensures c.spans[i].from <= c.Landing(i).from < c.spans[i].from + c.g
    ensures i == 0 ==> c.Landing(i).from == c.spans[i].from
  {
    if i > 0 {
      assert c.HeadLaid(i);
      OutsideIsClear(c.track.midTrims, c.g, c.at[i].df);
      NearOnTrack(c, c.at[i].df, c.at[i].hd);
    }
  }

  /** The last tail is exact, as is every spliced one; a plain interior one moves in by less than a packet, except that
      adjacent spans share the later one's head. */
  lemma TailLanding(c: Cut, i: nat)
    requires c.Laid() && TrimsCovered(c.track) && i < c.N()
    ensures i == c.N() - 1 ==>
      c.Landing(i).to == if c.spans[i].to != TO_END then c.spans[i].to else if c.track.samples >= 0 then c.track.samples
          else TO_END
    ensures i < c.N() - 1 && c.splice ==> c.Landing(i).to == c.spans[i].to
    ensures i < c.N() - 1 && !c.splice && c.spans[i].to < c.spans[i + 1].from ==>
      c.spans[i].to - c.g < c.Landing(i).to <= c.spans[i].to
    ensures i < c.N() - 1 && !c.splice && c.spans[i].to == c.spans[i + 1].from ==>
        c.Landing(i).to == c.Landing(i + 1).from
  {
    if i < c.N() - 1 && !c.splice {
      assert c.TailLaid(i) && c.HeadLaid(i + 1) && SpanOk(c.track, c.spans, i + 1);
      if c.spans[i].to < c.spans[i + 1].from {
        GridIsClear(c.track.midTrims, c.g, c.at[i].su);
        NearOnTrack(c, c.at[i].su, c.at[i].dt);
      }
    }
  }

  /** Landed spans are in order and do not overlap. */
  lemma LandingsApart(c: Cut, i: nat)
    requires c.Laid() && TrimsCovered(c.track) && i + 1 < c.N()
    ensures c.Landing(i).to <= c.Landing(i + 1).from
  {
    WindowShape(c, i);
    WindowShape(c, i + 1);
    TailBounds(c, i);
    LandedAt(c, i);
    LandedAt(c, i + 1);
    if Tail(c, i) == c.at[i].su {
      GridIsClear(c.track.midTrims, c.g, c.at[i].su);
    }
    HeardMonotone(c.track.midTrims, c.g, Tail(c, i), c.at[i + 1].hd);
  }

  /** Sample t is one the i-th span asks for. */
  predicate Asks(spans: seq<Span>, i: nat, t: int)
    requires i < |spans|
  {
    spans[i].from <= t && (spans[i].to == TO_END || t < spans[i].to)
  }

  /** The head adjacent spans share is not past the later one's end. */
  lemma SharedHead(c: Cut, i: nat)
    requires c.Laid() && TrimsCovered(c.track) && CornersClosed(c) && 0 < i < c.N()
    ensures c.spans[i].to != TO_END || c.track.samples >= 0 ==>
      c.Landing(i).from <= if c.spans[i].to == TO_END then c.track.samples else c.spans[i].to
  {
    if i == c.N() - 1 {
      if !c.UnknownEnd() {
        LaterLanding(c, i);
      }
    } else {
      TailLanding(c, i);
      LaterLanding(c, i);
      if !c.splice && c.spans[i].to == c.spans[i + 1].from {
        SharedBoundary(c, i);
      } else {
        assert SpanOk(c.track, c.spans, i + 1);
      }
    }
  }

  /** A span that keeps a packet before a shared boundary starts at or before its own requested end. */
  lemma SharedBoundary(c: Cut, i: nat)
    requires c.Laid() && 0 < i < c.N() - 1 && !c.splice && c.spans[i].to == c.spans[i + 1].from
    ensures TrackOf(c.track.midTrims, c.track.delay, c.at[i].hd) <= c.spans[i].to
  {
    assert c.TailLaid(i) && c.HeadLaid(i) && c.HeadLaid(i + 1);
    GridGap(c.at[i].hd, c.at[i].su, c.g);
    GridIsClear(c.track.midTrims, c.g, c.at[i].hd);
    HeardMonotone(c.track.midTrims, c.g, c.at[i].hd, c.at[i + 1].df);
  }

  /** Landing is one-sided: every sample a landed span names is one some requested span asks for. */
  lemma LandingInside(c: Cut, i: nat, t: int)
    requires c.Laid() && TrimsCovered(c.track) && CornersClosed(c) && i < c.N()
    requires c.Landing(i).from <= t && ((i == c.N() - 1 && c.UnknownEnd()) || t < c.Landing(i).to)
    ensures exists j :: i <= j < c.N() && Asks(c.spans, j, t)
  {
    HeadLanding(c, i);
    TailLanding(c, i);
    if i == c.N() - 1 || c.splice || t < c.spans[i].to {
      assert Asks(c.spans, i, t);
    } else {
      assert SpanOk(c.track, c.spans, i + 1);
      assert c.spans[i].to == c.spans[i + 1].from;
      SharedHead(c, i + 1);
      assert Asks(c.spans, i + 1, t);
    }
  }
}
