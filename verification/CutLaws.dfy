/** The laws of a cut, said of what computeCut answers. */
module CutLaws {
  import opened Container
  import opened CutTimeline
  import opened CutPlan
  import opened CutWalk
  import opened Listening
  import opened GridSource
  import opened CutLayout
  import opened CutContent
  import opened CutLength
  import opened CutListening

  /** The snapped bounds behind an accepted request. */
  ghost function CutOf(track: Track, spliceTrims: bool, spans: seq<Span>, grid: int): Cut
    requires grid > 0 && |spans| > 0
  {
    AskOf(track, spliceTrims, spans, grid).Snapped()
  }

  /** The request got a plan, of a track whose trims a declared length covers. */
  ghost predicate Accepted(track: Track, spliceTrims: bool, spans: seq<Span>, grid: int) {
    && track.padding >= 0 && track.midPadding >= 0 && TrimsCovered(track)
    && AnswerTo(track, spliceTrims, spans, grid).Planned?
  }

  lemma AcceptedIsLaid(track: Track, spliceTrims: bool, spans: seq<Span>, grid: int)
    requires Accepted(track, spliceTrims, spans, grid)
    ensures grid > 0 && |spans| > 0 && AskOf(track, spliceTrims, spans, grid).Accepts()
    ensures var c := CutOf(track, spliceTrims, spans, grid);
      c.Laid() && LayoutOf(c).Sound() && AnswerTo(track, spliceTrims, spans, grid) == Planned(c.ToPlan())
  {
    var a, c := AcceptedAsk(track, spliceTrims, spans, grid);
    SnapsLaid(a);
    LayoutSound(c);
  }

  lemma AcceptedAsk(track: Track, spliceTrims: bool, spans: seq<Span>, grid: int) returns (a: Ask, c: Cut)
    requires Accepted(track, spliceTrims, spans, grid)
    ensures grid > 0 && |spans| > 0 && a == AskOf(track, spliceTrims, spans, grid) && a.Accepts()
    ensures c == a.Snapped() && c.track == track
    ensures 0 < c.N() == |c.spans| && AnswerTo(track, spliceTrims, spans, grid) == Planned(c.ToPlan())
  {
    a := AskOf(track, spliceTrims, spans, grid);
    c := a.Snapped();
    FitFromAnswer(track, spliceTrims, spans, grid);
  }

  lemma FitFromAnswer(track: Track, spliceTrims: bool, spans: seq<Span>, grid: int)
    requires Accepted(track, spliceTrims, spans, grid)
    ensures grid > 0 && |spans| > 0 && AskOf(track, spliceTrims, spans, grid).Fit()
    ensures AnswerTo(track, spliceTrims, spans, grid) == AnswerOn(AskOf(track, spliceTrims, spans, grid))
  {
    if track.midPadding == 0 && |track.midTrims| == 0 {
      assert Sum(track.midTrims) == 0;
    }
  }

  /** A source on the grid holding the audio asked for: a declared length is reached, and an undeclared one at least as
      far as the last span says. */
  ghost predicate Holds(c: Cut, s: Source)
    requires c.g > 0 && 0 < c.N() == |c.spans|
  {
    && OnGrid(s.last, c.g) && 0 <= s.last < s.total <= s.last + c.g && 0 <= s.finalPad <= s.total - s.last
    && (forall i :: 0 <= i < |c.track.midTrims| ==> c.track.midTrims[i].End() <= s.last)
    && (if c.track.samples >= 0 then
          EndOfDecode(c.track) <= s.total && EndOfDecode(c.track) - c.track.padding <= s.total - s.finalPad
        else if c.LastToEnd() then c.at[c.N() - 1].hd < s.total
        else c.at[c.N() - 1].dt <= s.total - s.finalPad)
  }

  lemma HoldsFits(a: Ask, c: Cut, s: Source)
    requires a.Accepts() && c == a.Snapped() && c.Laid() && LayoutOf(c).Sound() && Holds(c, s)
    ensures Fits(c, s)
  {
    var reaches := !a.LastToEnd() && a.track.samples >= 0;
    if reaches {
      RequestReachesAudio(a);
      assert c.at[c.N() - 1] == a.BoundsOf(a.N() - 1);
    }
    assert c.TailLaid(c.N() - 1);
    AudioReached(c, LayoutOf(c), s);
  }

  lemma AudioReached(c: Cut, l: Layout, s: Source)
    requires c.g > 0 && 0 < c.N() == |c.spans| && l == LayoutOf(c) && l.Sound() && Holds(c, s) && c.LastTailLaid()
    requires c.track.padding >= 0
    requires !c.LastToEnd() && c.track.samples >= 0 ==> c.at[c.N() - 1].dt <= EndOfDecode(c.track) - c.track.padding
    ensures Fits(c, s)
  {
    EndsOfLayout(c, l);
    AudioEnds(c, s);
  }

  lemma EndsOfLayout(c: Cut, l: Layout)
    requires c.g > 0 && 0 < c.N() == |c.spans| && l == LayoutOf(c)
    ensures l.heads[l.N() - 1] == c.at[c.N() - 1].hd && (l.plan.lastEnd == -1 || l.plan.lastEnd == c.at[c.N() - 1].dt)
    ensures c.UnknownEnd() ==> l.plan.lastEnd == -1
    ensures l.plan.trims == c.track.midTrims && l.g == c.g
  {
  }

  lemma AudioEnds(c: Cut, s: Source)
    requires c.g > 0 && 0 < c.N() == |c.spans| && Holds(c, s) && c.LastTailLaid() && c.track.padding >= 0
    requires !c.LastToEnd() && c.track.samples >= 0 ==> c.at[c.N() - 1].dt <= EndOfDecode(c.track) - c.track.padding
    ensures c.at[c.N() - 1].hd < s.total && (!c.UnknownEnd() ==> c.at[c.N() - 1].dt <= s.total - s.finalPad)
  {
  }

  /** The source's own samples over the reported spans, one ending TO_END running to the end of the audio. */
  ghost function SamplesOver(track: Track, landed: seq<Span>, audioEnd: int, i: nat): seq<int>
    requires i <= |landed|
    decreases |landed| - i
  {
    if i == |landed| then []
    else
      TrackSamples(track.midTrims, track.delay, landed[i].from,
                   if i == |landed| - 1 && landed[i].to == TO_END then audioEnd else landed[i].to)
      + SamplesOver(track, landed, audioEnd, i + 1)
  }

  /** No reported span runs backwards. */
  ghost predicate NoneBack(landed: seq<Span>) {
    forall i :: 0 <= i < |landed| ==> (i == |landed| - 1 && landed[i].to == TO_END) || landed[i].from <= landed[i].to
  }

  lemma {:induction false} OverIsStretches(track: Track, landed: seq<Span>, audioEnd: int, from: seq<int>,
      end: seq<int>, i: nat)
    requires |from| == |end| == |landed| && i <= |landed|
    requires forall j :: 0 <= j < |landed| ==>
      && from[j] == landed[j].from
      && end[j] == if j == |landed| - 1 && landed[j].to == TO_END then audioEnd else landed[j].to
    ensures SamplesOver(track, landed, audioEnd, i) == Stretches(track, from, end, i)
    decreases |landed| - i
  {
    if i < |landed| {
      OverIsStretches(track, landed, audioEnd, from, end, i + 1);
    }
  }

  lemma LandingToEnd(c: Cut, landed: seq<Span>)
    requires 0 < c.N() == |c.spans| && landed == c.Landings()
    ensures landed[c.N() - 1].to == TO_END <==> c.UnknownEnd()
    ensures NoneBack(landed) <==> Forward(c)
  {
    forall i | 0 <= i < c.N()
      ensures landed[i] == c.Landing(i)
    {
    }
  }

  lemma PromisedOver(c: Cut, s: Source, landed: seq<Span>, audioEnd: int)
    requires 0 < c.N() == |c.spans| && landed == c.Landings()
    requires audioEnd == TrackOf(c.track.midTrims, c.track.delay, s.total - s.finalPad)
    ensures SamplesOver(c.track, landed, audioEnd, 0) == Promised(c, s)
  {
    LandingToEnd(c, landed);
    var from, end := Froms(c), Tos(c, s);
    forall j | 0 <= j < c.N()
      ensures from[j] == landed[j].from
      ensures end[j] == if j == c.N() - 1 && landed[j].to == TO_END then audioEnd else landed[j].to
    {
      EndsAgree(c, s, j, landed[j], audioEnd);
    }
    OverIsStretches(c.track, landed, audioEnd, from, end, 0);
  }

  lemma EndsAgree(c: Cut, s: Source, j: nat, at: Span, audioEnd: int)
    requires j < c.N() == |c.spans| && at == c.Landing(j)
    requires j == c.N() - 1 ==> (at.to == TO_END <==> c.UnknownEnd())
    requires audioEnd == TrackOf(c.track.midTrims, c.track.delay, s.total - s.finalPad)
    ensures Froms(c)[j] == at.from
    ensures Tos(c, s)[j] == if j == c.N() - 1 && at.to == TO_END then audioEnd else at.to
  {
    assert Tos(c, s)[j] == LandsTo(c, s, j);
  }

  /** A plan delivers what it says: its walk of these packets ends cleanly, and what a listener hears of the walked
      packets under the cut track is exactly the source's own samples over the reported spans when `closed`; when not, a
      reported span runs backwards, and a listener does not hear that, for any length that comes out at all. A negative
      length is taken for an unknown one: what is heard is then the promise and what the last packets play after it,
      unless the first span is the one that runs backwards, when it is not the promise at all. */
  ghost predicate Delivers(plan: Plan, track: Track, s: Source, damaged: bool, pkts: seq<Packet>, closed: bool) {
    var (walked, end) := Walk(plan, damaged, Start, pkts);
    var promised := SamplesOver(track, plan.landed, TrackOf(track.midTrims, track.delay, s.total - s.finalPad), 0);
    && end == Eof && |plan.landed| > 0 && (closed <==> NoneBack(plan.landed))
    && (closed ==> Listened(plan.track, walked) == promised)
    && (!closed && (plan.track.samples >= 0 || (plan.landed[|plan.landed| - 1].to == TO_END && promised != [])) ==>
      Listened(plan.track, walked) != promised)
    && (!closed && plan.track.samples < 0 ==>
      if plan.landed[0].from <= plan.landed[0].to then promised <= Listened(plan.track, walked)
      else Listened(plan.track, walked) == promised <==> Listened(plan.track, walked) == promised == [])
  }

  /** A cut preserves content, and an accepted plan never fails its own walk, on every source on the grid: if, and for a
      length that comes out at all only if, the request is in neither of two corners. */
  lemma CutPreservesContent(track: Track, spliceTrims: bool, spans: seq<Span>, grid: int, s: Source, damaged: bool,
                            pkts: seq<Packet>)
    requires Accepted(track, spliceTrims, spans, grid) && grid > 0 && |spans| > 0
    requires var c := CutOf(track, spliceTrims, spans, grid);
      |c.spans| == c.N() && Holds(c, s) && GridPackets(LayoutOf(c), s, pkts, 0)
    ensures Delivers(AnswerTo(track, spliceTrims, spans, grid).plan, track, s, damaged, pkts,
                     CornersClosed(CutOf(track, spliceTrims, spans, grid)))
  {
    var a, c := AskOf(track, spliceTrims, spans, grid), CutOf(track, spliceTrims, spans, grid);
    AcceptedIsLaid(track, spliceTrims, spans, grid);
    HoldsFits(a, c, s);
    CutDelivers(c, s, damaged, pkts);
  }

  lemma CutDelivers(c: Cut, s: Source, damaged: bool, pkts: seq<Packet>)
    requires c.Laid() && TrimsCovered(c.track) && LayoutOf(c).Sound() && Fits(c, s) &&
        GridPackets(LayoutOf(c), s, pkts, 0)
    ensures Delivers(c.ToPlan(), c.track, s, damaged, pkts, CornersClosed(c))
  {
    WalkPlaysBodies(c, s, damaged, pkts);
    HeardIsPromised(c, s, Walk(c.ToPlan(), damaged, Start, pkts).0);
    PromisedOver(c, s, c.Landings(), TrackOf(c.track.midTrims, c.track.delay, s.total - s.finalPad));
    LandingToEnd(c, c.Landings());
    OnlyTwoCorners(c);
    PlanIs(c);
    if c.Samples() < 0 && !Forward(c) {
      HeardWhenNegative(c, s, Walk(c.ToPlan(), damaged, Start, pkts).0);
      FirstOnTrack(c, s);
    }
  }

  lemma FirstOnTrack(c: Cut, s: Source)
    requires c.Laid() && !Forward(c)
    ensures Froms(c)[0] == c.Landings()[0].from && Tos(c, s)[0] == c.Landings()[0].to
  {
    assert c.Landings()[0] == c.Landing(0) && Tos(c, s)[0] == LandsTo(c, s, 0);
    if c.N() == 1 {
      assert SpanOk(c.track, c.spans, 0);
    }
  }

  lemma PlanIs(c: Cut)
    requires 0 < c.N() == |c.spans| && c.g > 0
    ensures c.ToPlan().track == c.CutTrack() && c.ToPlan().landed == c.Landings()
    ensures c.UnknownEnd() ==> c.CutTrack().samples == -1
    ensures c.CutTrack().samples == c.Samples()
  {
  }

  // ----- When a landing runs backwards -----

  /** Every raw sample of [lo, hi) is one a trim removes. */
  ghost predicate AllTrimmed(trims: seq<PacketTrim>, lo: int, hi: int) {
    forall r :: lo <= r < hi ==> Inside(trims, r)
  }

  /** Two boundaries are one track position exactly when nothing between them is heard. */
  lemma SameHeard(trims: seq<PacketTrim>, g: int, x: int, y: int)
    requires Placed(trims, g) && x <= y && Clear(trims, x) && Clear(trims, y)
    ensures Heard(trims, x) <= Heard(trims, y)
    ensures Heard(trims, x) == Heard(trims, y) <==> AllTrimmed(trims, x, y)
  {
    HeardMonotone(trims, g, x, y);
    UntrimmedIsTrack(trims, g, 0, x, y);
    TrackSamplesLength(trims, 0, TrackOf(trims, 0, x), TrackOf(trims, 0, y));
    var heard := Untrimmed(trims);
    if AllTrimmed(trims, x, y) {
      SelectNone(heard, x, y);
    } else {
      var r :| x <= r < y && !Inside(trims, r);
      SelectSplit(heard, x, r, y);
      SelectSplit(heard, r, r + 1, y);
      SelectLast(heard, r, r + 1);
    }
  }

  /** The two corners the "keeps no whole packet" check leaves open: a first span of several whose packets end before
      its request begins, unless trims remove everything between the two, and a last span to the end whose head snaps
      past the end of the audio. */
  ghost predicate FirstCornerClosed(c: Cut)
    requires 0 < c.N()
  {
    c.N() > 1 && !c.splice ==> c.at[0].df <= c.at[0].su || AllTrimmed(c.track.midTrims, c.at[0].su, c.at[0].df)
  }

  predicate LastCornerClosed(c: Cut)
    requires 0 < c.N() == |c.spans|
  {
    c.N() > 1 && c.LastToEnd() && c.track.samples >= 0 ==> c.at[c.N() - 1].hd <= c.at[c.N() - 1].dt
  }

  ghost predicate CornersClosed(c: Cut)
    requires 0 < c.N() == |c.spans|
  {
    FirstCornerClosed(c) && LastCornerClosed(c)
  }

  /** Where no trim empties a packet, the first corner is closed just when the request begins by where its packets
      end. */
  lemma PlainFirstCorner(c: Cut)
    requires c.Laid() && c.N() > 1 && !c.splice && PartialTrims(c.track.midTrims, c.g)
    ensures FirstCornerClosed(c) <==> c.at[0].df <= c.at[0].su
  {
    WindowShape(c, 0);
    StartIsHeard(c.track.midTrims, c.g, c.at[0].su);
  }

  /** A landed span runs backwards exactly in one of the two corners. */
  lemma OnlyTwoCorners(c: Cut)
    requires c.Laid() && TrimsCovered(c.track)
    ensures NoneBack(c.Landings()) <==> CornersClosed(c)
  {
    var landed := c.Landings();
    LandingToEnd(c, landed);
    forall i | 0 < i < c.N() && !(i == c.N() - 1 && (c.LastToEnd() || c.UnknownEnd()))
      ensures landed[i].from <= landed[i].to
    {
      LaterLanding(c, i);
    }
    if c.N() == 1 {
      assert SpanOk(c.track, c.spans, 0);
    } else {
      FirstLanding(c);
      assert landed[0] == c.Landing(0);
      if !c.UnknownEnd() {
        LastLanding(c);
        assert landed[c.N() - 1] == c.Landing(c.N() - 1);
      }
    }
  }

  lemma FirstLanding(c: Cut)
    requires c.Laid() && TrimsCovered(c.track) && c.N() > 1
    ensures c.Landing(0).from <= c.Landing(0).to <==> FirstCornerClosed(c)
  {
    var trims, b := c.track.midTrims, c.at[0];
    assert c.HeadLaid(0) && c.TailLaid(0) && SpanOk(c.track, c.spans, 0);
    OutsideIsClear(trims, c.g, b.df);
    if !c.splice {
      if b.df <= b.su {
        HeardMonotone(trims, c.g, b.df, b.su);
      } else {
        GridIsClear(trims, c.g, b.su);
        SameHeard(trims, c.g, b.su, b.df);
      }
    }
  }

  lemma LastLanding(c: Cut)
    requires c.Laid() && TrimsCovered(c.track) && c.N() > 1 && !c.UnknownEnd()
    ensures c.Landing(c.N() - 1).from <= c.Landing(c.N() - 1).to <==> LastCornerClosed(c)
  {
    var i, trims, b := c.N() - 1, c.track.midTrims, c.at[c.N() - 1];
    if !c.LastToEnd() || b.hd <= b.dt {
      LaterLanding(c, i);
    } else {
      LandedAt(c, i);
      LastTailClear(c);
      assert c.TailLaid(i);
      HeardMonotone(trims, c.g, b.dt, b.hd);
    }
  }

  lemma LaterLanding(c: Cut, i: nat)
    requires c.Laid() && TrimsCovered(c.track) && 0 < i < c.N() && (i < c.N() - 1 || !c.UnknownEnd())
    requires i == c.N() - 1 && c.LastToEnd() ==> c.at[i].hd <= c.at[i].dt
    ensures c.Landing(i).from <= c.Landing(i).to
  {
    WindowShape(c, i);
    TailBounds(c, i);
    assert c.TailLaid(i);
    LandedAt(c, i);
    GridIsClear(c.track.midTrims, c.g, c.at[i].hd);
    HeardMonotone(c.track.midTrims, c.g, c.at[i].hd, LandEnd(c, i));
  }

  const Plain: Track := Track(0, AacLc, OtherConfig, 20000, 0, 0, 0, [], true, false)

  const Padded: Track := Plain.(samples := 5000, padding := 1144)

  /** Two bounded spans on an AAC track without trims, snapped. */
  lemma TwoSpans(t: Track, s0: Span, s1: Span, b0: Bounds, b1: Bounds)
    requires t in {Plain, Padded} && ValidSpans(t, [s0, s1]) && b0.hd < b0.su <= b1.sd && b1.hd < b1.su
    requires var a := AskOf(t, false, [s0, s1], 1024);
      a.BoundsOf(0) == b0 && a.BoundsOf(1) == b1 && a.MergedEnd(0) == b0.su && a.MergedEnd(1) == b1.su
    ensures Accepted(t, false, [s0, s1], 1024)
    ensures var c := CutOf(t, false, [s0, s1], 1024);
        c.at == [b0, b1] && AnswerTo(t, false, [s0, s1], 1024) == Planned(c.ToPlan())
  {
    var a := AskOf(t, false, [s0, s1], 1024);
    assert a.KeepsPackets(0) && a.KeepsPackets(1) && a.Apart(0);
    assert a.Snapped().at == [b0, b1];
  }

  /** The first corner is real: the plan for [1500, 1600) and [5000, 9000) lands its first span at [1500, 1024), and
      states a delay longer than that span's only window. */
  lemma FirstSpanBackward()
    ensures var spans := [Span(1500, 1600), Span(5000, 9000)];
      && Accepted(Plain, false, spans, 1024)
      && var plan := AnswerTo(Plain, false, spans, 1024).plan;
         plan.landed[0] == Span(1500, 1024) && plan.track.delay == 1500 && plan.windows[0] == Window(0, 1024)
  {
    var spans, b0, b1 :=
        [Span(1500, 1600), Span(5000, 9000)], Bounds(1500, 1600, 0, 1024, 0), Bounds(5000, 9000, 5120, 9216, 5120);
    FirstRequest(AskOf(Plain, false, spans, 1024), b0, b1);
    TwoSpans(Plain, spans[0], spans[1], b0, b1);
    var c := CutOf(Plain, false, spans, 1024);
    FirstOf(c, c.at[0]);
  }

  lemma FirstRequest(a: Ask, b0: Bounds, b1: Bounds)
    requires a == AskOf(Plain, false, [Span(1500, 1600), Span(5000, 9000)], 1024)
    requires b0 == Bounds(1500, 1600, 0, 1024, 0) && b1 == Bounds(5000, 9000, 5120, 9216, 5120)
    ensures ValidSpans(Plain, a.spans)
    ensures a.BoundsOf(0) == b0 && a.BoundsOf(1) == b1 && a.MergedEnd(0) == b0.su && a.MergedEnd(1) == b1.su
  {
    assert a.Df(0) == 1500 && a.Dt(0) == 1600 && a.Df(1) == 5000 && a.Dt(1) == 9000;
    assert a.Hd(0) == 0 && a.Hd(1) == 5120;
  }

  lemma FirstOf(c: Cut, b: Bounds)
    requires 1 < c.N() == |c.spans| && !c.splice && c.g > 0 && b == c.at[0] && c.track.midTrims == []
    ensures c.ToPlan().landed[0] == Span(c.spans[0].from, b.su - c.track.delay)
    ensures c.ToPlan().windows[0] == Window(b.sd, b.su) && c.ToPlan().track.delay == b.df - b.sd
  {
    assert c.ToPlan().landed[0] == c.Landing(0) && c.ToPlan().windows[0] == c.WindowOf(0);
  }

  /** So is the second: [4999, end) of a 5000-sample track lands at [5120, 5000), inside the padding. */
  lemma LastSpanBackward()
    ensures var spans := [Span(0, 2000), Span(4999, TO_END)];
      && Accepted(Padded, false, spans, 1024)
      && var plan := AnswerTo(Padded, false, spans, 1024).plan;
         plan.landed[1] == Span(5120, 5000) && plan.windows[1] == Window(5120, -1)
  {
    var spans, b0, b1 :=
        [Span(0, 2000), Span(4999, TO_END)], Bounds(0, 2000, 0, 1024, 0), Bounds(4999, 5000, 5120, 6144, 5120);
    TwoSpans(Padded, spans[0], spans[1], b0, b1);
    var c := CutOf(Padded, false, spans, 1024);
    LastOf(c, c.at[1]);
  }

  lemma LastOf(c: Cut, b: Bounds)
    requires 1 < c.N() == |c.spans| && !c.splice && c.g > 0 && b == c.at[c.N() - 1] && c.track.midTrims == []
    requires c.LastToEnd() && c.open && c.track.samples >= 0
    ensures c.ToPlan().landed[c.N() - 1] == Span(b.hd - c.track.delay, c.track.samples)
    ensures c.ToPlan().windows[c.N() - 1] == Window(b.sd, -1)
  {
    assert c.ToPlan().landed[c.N() - 1] == c.Landing(c.N() - 1) &&
        c.ToPlan().windows[c.N() - 1] == c.WindowOf(c.N() - 1);
  }

  // ----- When the length comes out negative -----

  ghost function Extents(landed: seq<Span>): (r: seq<int>)
    ensures |r| == |landed| && forall i :: 0 <= i < |landed| ==> r[i] == landed[i].to - landed[i].from
  {
    seq(|landed|, i requires 0 <= i < |landed| => landed[i].to - landed[i].from)
  }

  /** What the spans that run forward hold, and how far the ones that run backwards run. */
  function Forwards(xs: seq<int>, k: nat): int requires k <= |xs| {
    if k == 0 then 0 else Forwards(xs, k - 1) + Max(0, xs[k - 1])
  }

  function Backwards(xs: seq<int>, k: nat): int requires k <= |xs| {
    if k == 0 then 0 else Backwards(xs, k - 1) + Max(0, -xs[k - 1])
  }

  lemma {:induction false} LandedBalance(landed: seq<Span>, xs: seq<int>, k: nat)
    requires k <= |landed| && xs == Extents(landed)
    ensures LandedTo(landed, k) == Forwards(xs, k) - Backwards(xs, k)
  {
    if k > 0 {
      LandedBalance(landed, xs, k - 1);
    }
  }

  /** How far the two corners run backwards. */
  function FirstGap(c: Cut): int requires 0 < c.N() {
    if c.N() > 1 && !c.splice then Max(0, Heard(c.track.midTrims, c.at[0].df) - Heard(c.track.midTrims, c.at[0].su))
        else 0
  }

  function LastGap(c: Cut): int requires 0 < c.N() == |c.spans| {
    if c.N() > 1 && c.LastToEnd() then
      Max(0, Heard(c.track.midTrims, c.at[c.N() - 1].hd) - Heard(c.track.midTrims, c.at[c.N() - 1].dt))
    else 0
  }

  lemma {:induction false} OnlyTwoBack(xs: seq<int>, first: int, last: int, k: nat)
    requires |xs| > 0 && k <= |xs| && first == Max(0, -xs[0]) && (forall i :: 0 < i < |xs| - 1 ==> xs[i] >= 0)
    requires last == if |xs| > 1 then Max(0, -xs[|xs| - 1]) else 0
    ensures Backwards(xs, k) == (if k > 0 then first else 0) + if k == |xs| then last else 0
  {
    if k > 0 {
      OnlyTwoBack(xs, first, last, k - 1);
    }
  }

  /** A planned length is what its spans hold less how far the two corners run backwards, so it is negative exactly when
      they run further than that. */
  lemma NegativeWhen(c: Cut)
    requires c.Laid() && TrimsCovered(c.track) && !c.UnknownEnd()
    ensures c.CutTrack().samples == Forwards(Extents(c.Landings()), c.N()) - FirstGap(c) - LastGap(c)
  {
    var landed := c.Landings();
    var xs, n := Extents(landed), c.N();
    SamplesAreLanded(c);
    LandedBalance(landed, xs, n);
    forall i | 0 < i < n - 1
      ensures xs[i] >= 0
    {
      LaterLanding(c, i);
      assert landed[i] == c.Landing(i);
    }
    GapOfFirst(c);
    GapOfLast(c);
    assert landed[0] == c.Landing(0) && landed[n - 1] == c.Landing(n - 1);
    OnlyTwoBack(xs, FirstGap(c), LastGap(c), n);
  }

  lemma GapOfFirst(c: Cut)
    requires c.Laid() && TrimsCovered(c.track) && !c.UnknownEnd()
    ensures FirstGap(c) == Max(0, c.Landing(0).from - c.Landing(0).to)
  {
    if c.N() == 1 {
      assert SpanOk(c.track, c.spans, 0);
    } else {
      FirstLanding(c);
      LandedAt(c, 0);
      assert c.HeadLaid(0);
    }
  }

  lemma GapOfLast(c: Cut)
    requires c.Laid() && TrimsCovered(c.track) && !c.UnknownEnd()
    ensures c.N() > 1 ==> LastGap(c) == Max(0, c.Landing(c.N() - 1).from - c.Landing(c.N() - 1).to)
    ensures c.N() == 1 ==> LastGap(c) == 0
  {
    if c.N() > 1 {
      LandedAt(c, c.N() - 1);
      if !c.LastToEnd() {
        LaterLanding(c, c.N() - 1);
      }
    }
  }

  /** And some accepted request gets such a plan: [3070, 3071) then [5000, 5121) lands at [3070, 2048) and [5120,
      5121). */
  lemma NegativeLength()
    ensures var spans := [Span(3070, 3071), Span(5000, 5121)];
      && Accepted(Plain, false, spans, 1024)
      && var plan := AnswerTo(Plain, false, spans, 1024).plan;
         plan.landed == [Span(3070, 2048), Span(5120, 5121)] && plan.track.samples == -1021
  {
    var spans, b0, b1 :=
        [Span(3070, 3071), Span(5000, 5121)], Bounds(3070, 3071, 1024, 2048, 1024),
        Bounds(5000, 5121, 5120, 6144, 5120);
    NegativeRequest(AskOf(Plain, false, spans, 1024), b0, b1);
    TwoSpans(Plain, spans[0], spans[1], b0, b1);
    var c := CutOf(Plain, false, spans, 1024);
    AcceptedIsLaid(Plain, false, spans, 1024);
    NegativeOf(c, c.Landings());
  }

  lemma NegativeOf(c: Cut, landed: seq<Span>)
    requires c.Laid() && TrimsCovered(c.track) && c.track == Plain && !c.splice && landed == c.Landings()
    requires c.spans == [Span(3070, 3071), Span(5000, 5121)]
    requires c.at == [Bounds(3070, 3071, 1024, 2048, 1024), Bounds(5000, 5121, 5120, 6144, 5120)]
    ensures landed == [Span(3070, 2048), Span(5120, 5121)] && c.CutTrack().samples == -1021
  {
    assert landed[0] == c.Landing(0) && landed[1] == c.Landing(1);
    SamplesAreLanded(c);
    assert LandedTo(landed, 2) == LandedTo(landed, 1) + 1 && LandedTo(landed, 1) == LandedTo(landed, 0) - 1022;
  }

  lemma NegativeRequest(a: Ask, b0: Bounds, b1: Bounds)
    requires a == AskOf(Plain, false, [Span(3070, 3071), Span(5000, 5121)], 1024)
    requires b0 == Bounds(3070, 3071, 1024, 2048, 1024) && b1 == Bounds(5000, 5121, 5120, 6144, 5120)
    ensures ValidSpans(Plain, a.spans)
    ensures a.BoundsOf(0) == b0 && a.BoundsOf(1) == b1 && a.MergedEnd(0) == b0.su && a.MergedEnd(1) == b1.su
  {
    assert SpanOk(Plain, a.spans, 0) && SpanOk(Plain, a.spans, 1);
    UntrimmedMaps(a, 0, 3070, 3071);
    UntrimmedMaps(a, 1, 5000, 5121);
    NegativeSnaps();
    assert a.Hd(0) == SnapGridDown(2046, 1024) && a.SnappedEnd(0) == SnapGridDown(3071, 1024);
    assert a.Hd(1) == SnapGridUp(5000, 1024) && a.SnappedEnd(1) == SnapGridUp(5121, 1024);
    assert a.DecodedEnd() == 20000 && a.MergedEnd(0) == 2048 && a.MergedEnd(1) == 6144;
  }

  lemma NegativeSnaps()
    ensures SnapGridDown(2046, 1024) == 1024 && SnapGridDown(3071, 1024) == 2048
    ensures SnapGridUp(5000, 1024) == 5120 && SnapGridUp(5121, 1024) == 6144
  {
  }

  lemma UntrimmedMaps(a: Ask, i: nat, from: int, end: int)
    requires i < a.N() && a.track == Plain && a.spans[i] == Span(from, end) && end != TO_END
    ensures a.Df(i) == from && a.Dt(i) == end
  {
  }

  // ----- Packet times -----

  /** Each packet's time is the one before's plus its length less its trim. */
  ghost predicate Contiguous(pkts: seq<Packet>, out: int) {
    && (|pkts| > 0 ==> pkts[0].pts == out)
    && forall k :: 0 <= k < |pkts| - 1 ==> pkts[k + 1].pts == pkts[k].pts + pkts[k].dur - pkts[k].padding
  }

  /** Whatever the source, the packets a walk hands on are contiguous and on the cut's track. */
  lemma {:induction false} WalkIsContiguous(p: Plan, damaged: bool, v: View, pkts: seq<Packet>)
    requires v.cur <= |p.windows|
    ensures Contiguous(Walk(p, damaged, v, pkts).0, v.out)
    ensures forall k :: 0 <= k < |Walk(p, damaged, v, pkts).0| ==>
      Walk(p, damaged, v, pkts).0[k].track == p.track.id && Walk(p, damaged, v, pkts).0[k].lost == 0
    decreases |pkts|
  {
    if v.cur < |p.windows| && |pkts| > 0 {
      var step := StepOn(p, v, pkts[0]);
      if step.Skipped? {
        WalkSkips(p, damaged, v, pkts);
        WalkIsContiguous(p, damaged, step.v, pkts[1..]);
      } else if step.Kept? {
        WalkKeeps(p, damaged, v, pkts);
        WalkIsContiguous(p, damaged, step.v, pkts[1..]);
        FirstContiguous(step.pkt, Walk(p, damaged, step.v, pkts[1..]).0, v.out);
      }
    }
  }

  lemma FirstContiguous(first: Packet, rest: seq<Packet>, out: int)
    requires first.pts == out && Contiguous(rest, out + first.dur - first.padding)
    ensures Contiguous([first] + rest, out)
  {
    var pkts := [first] + rest;
    forall k | 0 <= k < |pkts| - 1
      ensures pkts[k + 1].pts == pkts[k].pts + pkts[k].dur - pkts[k].padding
    {
      if k > 0 {
        assert rest[k - 1 + 1].pts == rest[k - 1].pts + rest[k - 1].dur - rest[k - 1].padding;
      }
    }
  }

  /** A source whose packets stop short of the audio an accepted bounded request asked for does not end a walk of its
      plan cleanly. */
  lemma ShortSourceFails(track: Track, spliceTrims: bool, spans: seq<Span>, grid: int, plan: Plan, pkts: seq<Packet>)
    requires Accepted(track, spliceTrims, spans, grid) && Planned(plan) == AnswerTo(track, spliceTrims, spans, grid)
    requires |spans| > 0 && spans[|spans| - 1].to != TO_END && plan.track.samples >= 0
    requires Plausible(pkts)
    requires Reaching(track.id, pkts) < RawEndOf(track.midTrims, track.delay, spans[|spans| - 1].to)
    ensures Walk(plan, false, Start, pkts).1 != Eof
  {
    HeldToTheAsk(track, spliceTrims, spans, grid, plan);
    ShortWalkFails(plan, Start, pkts);
  }

  /** What a bounded request asked for is what its plan is held to, and its last window holds it. */
  lemma HeldToTheAsk(track: Track, spliceTrims: bool, spans: seq<Span>, grid: int, plan: Plan)
    requires Accepted(track, spliceTrims, spans, grid) && Planned(plan) == AnswerTo(track, spliceTrims, spans, grid)
    requires |spans| > 0 && spans[|spans| - 1].to != TO_END && plan.track.samples >= 0
    ensures plan.track.id == track.id && HeldInside(plan)
    ensures plan.lastEnd == RawEndOf(track.midTrims, track.delay, spans[|spans| - 1].to)
  {
    var a, c := AcceptedAsk(track, spliceTrims, spans, grid);
    LastAskHeld(a, c, plan, |spans| - 1);
  }

  lemma LastAskHeld(a: Ask, c: Cut, plan: Plan, last: nat)
    requires a.Accepts() && last == a.N() - 1 && a.spans[last].to != TO_END && c == a.Snapped()
    requires plan == c.ToPlan() && plan.track.samples >= 0
    ensures plan.track.id == a.track.id && HeldInside(plan)
    ensures plan.lastEnd == RawEndOf(a.track.midTrims, a.track.delay, a.spans[last].to)
  {
    assert c.at[last] == a.BoundsOf(last);
    LastLaid(a, c, last);
    LastIsHeld(c, plan, last);
  }

  lemma LastLaid(a: Ask, c: Cut, last: nat)
    requires a.Accepts() && a.N() > 0 && c == a.Snapped() && last == c.N() - 1 == |c.spans| - 1
    ensures c.TailLaid(last)
  {
    SnapsLaid(a);
  }

  lemma LastIsHeld(c: Cut, plan: Plan, last: nat)
    requires c.g > 0 && last == c.N() - 1 && c.N() == |c.spans| && c.TailLaid(last) && plan == c.ToPlan()
    requires c.spans[last].to != TO_END && plan.track.samples >= 0
    ensures HeldInside(plan) && plan.lastEnd == c.at[last].dt && plan.track.id == c.track.id
  {
    assert c.LastTailLaid();
    assert plan.windows == c.Windows() && plan.windows[last] == c.WindowOf(last);
  }

  /** The track of an accepted plan is the source's own: an Opus head states the delay the cut gives it, any other
      codec's is untouched, and its length is the caller's own arithmetic where the request is bounded and worth what
      the source's is where it is not. */
  lemma PlanTrack(track: Track, spliceTrims: bool, spans: seq<Span>, grid: int, plan: Plan)
    requires Accepted(track, spliceTrims, spans, grid) && Planned(plan) == AnswerTo(track, spliceTrims, spans, grid)
    ensures var t := plan.track;
      && t.id == track.id && t.codec == track.codec && |spans| > 0
      && (if t.codec == Opus then
            track.config.OpusHead? && t.config == OpusHead(t.delay) && 0 <= t.delay < 0x1_0000
          else t.config == track.config)
      && (if spans[|spans| - 1].to == TO_END then
            t.samplesExact == track.samplesExact && t.samplesAdvisory == track.samplesAdvisory
          else t.samplesExact && !t.samplesAdvisory)
    ensures plan.trims == track.midTrims && (plan.blind <==> track.samples < 0 || track.samplesAdvisory)
  {
    var a, c := AcceptedAsk(track, spliceTrims, spans, grid);
    TrackOfCut(c, plan);
  }

  lemma TrackOfCut(c: Cut, plan: Plan)
    requires c.g > 0 && 0 < c.N() == |c.spans| && AnswerFor(c) == Planned(plan)
    ensures var t, last := plan.track, c.spans[c.N() - 1];
      && t.id == c.track.id && t.codec == c.track.codec
      && (if t.codec == Opus then
            c.track.config.OpusHead? && t.config == OpusHead(t.delay) && 0 <= t.delay < 0x1_0000
          else t.config == c.track.config)
      && (if last.to == TO_END then
            t.samplesExact == c.track.samplesExact && t.samplesAdvisory == c.track.samplesAdvisory
          else t.samplesExact && !t.samplesAdvisory)
    ensures plan.trims == c.track.midTrims && (plan.blind <==> c.track.samples < 0 || c.track.samplesAdvisory)
  {
  }
}
