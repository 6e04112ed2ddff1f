/** computeCut (cut.go) as the code runs it, loop by loop, against the plan CutPlan states. */
module CutCompute {
  import opened Container
  import opened CutTimeline
  import opened CutPlan

  // ----- Snapping -----

  /** One span's request on the raw timeline, where its packets land, and where its audio starts. */
  method SnapSpan(a: Ask, i: nat) returns (b: Bounds)
    requires a.Fit() && i < a.N()
    ensures b == a.BoundsOf(i).(su := a.SnappedEnd(i))
  {
    var s := a.spans[i];
    var df := RawStart(a.track.midTrims, a.track.delay, s.from);
    var dt, sd, su := -1, 0, -1;
    if i == 0 {
      sd := SnapGridDown(df - a.preroll, a.g);
    } else {
      sd := SnapGridUp(df, a.g);
    }
    var hd := sd;
    if a.splice && i > 0 {
      sd := SnapGridDown(hd - a.preroll, a.g);
    }
    if s.to != TO_END {
      dt := RawEnd(a.track.midTrims, a.track.delay, s.to);
      if i == a.N() - 1 || a.splice {
        su := SnapGridUp(dt, a.g);
      } else {
        su := SnapGridDown(dt, a.g);
      }
    } else if a.DecodedEnd() >= 0 {
      dt := a.DecodedEnd() - a.track.padding;
      su := a.DecodedEnd();
    }
    b := Bounds(df, dt, sd, su, hd);
  }

  /** The bounds of every span, adjacent spans joined at the later head. */
  method SnapSpans(a: Ask) returns (at: seq<Bounds>)
    requires a.Fit()
    ensures |at| == a.N()
    ensures forall j :: 0 <= j < a.N() ==> at[j] == a.BoundsOf(j).(su := a.MergedEnd(j))
  {
    at := [];
    for i := 0 to a.N()
      invariant |at| == i
      invariant forall j :: 0 <= j < i ==> at[j] == a.BoundsOf(j).(su := a.SnappedEnd(j))
    {
      var b := SnapSpan(a, i);
      at := at + [b];
    }
    for i := 0 to a.N() - 1
      invariant |at| == a.N()
      invariant forall j :: 0 <= j < i ==> at[j] == a.BoundsOf(j).(su := a.MergedEnd(j))
      invariant forall j :: i <= j < a.N() ==> at[j] == a.BoundsOf(j).(su := a.SnappedEnd(j))
    {
      assert at[i + 1].sd == a.Sd(i + 1);
      if !a.splice && a.spans[i].to == a.spans[i + 1].from && at[i].su >= 0 {
        at := at[i := at[i].(su := at[i + 1].sd)];
      }
    }
  }

  /** The two declines of the snapped windows: a span with no whole packet, and two windows that overlap. */
  method KeepAndApart(a: Ask, at: seq<Bounds>) returns (ok: bool)
    requires a.g > 0 && 0 < |at| == a.N()
    requires forall j :: 0 <= j < a.N() ==> at[j] == a.BoundsOf(j).(su := a.MergedEnd(j))
    ensures ok <==> a.Keepable()
  {
    for i := 0 to a.N()
      invariant forall j :: 0 <= j < i ==> a.KeepsPackets(j)
    {
      if at[i].su >= 0 && at[i].hd >= at[i].su {
        assert !a.KeepsPackets(i);
        return false;
      }
    }
    for i := 0 to a.N() - 1
      invariant forall j :: 0 <= j < i ==> a.Apart(j)
    {
      assert at[i + 1].sd == a.Sd(i + 1);
      if at[i].su > at[i + 1].sd {
        assert !a.Apart(i);
        return false;
      }
    }
    return true;
  }

  /** A last span whose snap overshoots the source's end is clamped to it. */
  method Clamp(a: Ask, merged: seq<Bounds>) returns (c: Cut)
    requires a.g > 0 && 0 < |merged| == a.N()
    requires forall j :: 0 <= j < a.N() ==> merged[j] == a.BoundsOf(j).(su := a.MergedEnd(j))
    ensures c == a.Snapped()
  {
    var n, at, clamped := a.N(), merged, false;
    if a.spans[n - 1].to != TO_END && a.DecodedEnd() >= 0 && at[n - 1].su > a.DecodedEnd() {
      at := at[n - 1 := at[n - 1].(su := a.DecodedEnd())];
      clamped := true;
    }
    assert clamped == a.TailClamped();
    forall j | 0 <= j < n
      ensures at[j] == a.BoundsOf(j)
    {
      assert a.Su(j) == if j == n - 1 && clamped then a.DecodedEnd() else a.MergedEnd(j);
    }
    c := Cut(a.track, a.splice, a.spans, a.g, a.LastToEnd() || clamped, at);
    assert at == a.AllBounds();
  }

  // ----- The synthesized trims -----

  method SumOf(trims: seq<PacketTrim>) returns (n: int)
    ensures n == Sum(trims)
  {
    n := 0;
    for i := 0 to |trims|
      invariant n == SumTo(trims, i)
    {
      n := n + trims[i].samples;
    }
  }

  /** A discarded pre-roll: every packet of [sd, hd) trimmed whole. */
  method AddDiscards(sd: int, hd: int, g: int, shift: int, acc: seq<PacketTrim>) returns (out: seq<PacketTrim>)
    requires g > 0 && sd <= hd && OnGrid(sd, g) && OnGrid(hd, g)
    ensures out == acc + Shifted(Discards(sd, hd, g), shift)
  {
    out := acc;
    var p := sd;
    while p < hd
      invariant sd <= p <= hd && OnGrid(p, g)
      invariant out == acc + Shifted(Discards(sd, p, g), shift)
      decreases hd - p
    {
      GridGap(p, hd, g);
      NextOnGrid(p, g);
      ShiftedSnoc(Discards(sd, p, g), PacketTrim(p, g), shift);
      out := out + [PacketTrim(shift + p, g)];
      p := p + g;
    }
  }

  /** Which of the trims of a window stay the cut's: those past a discarded pre-roll, and not one that ends with a tail
      the trailer or the slop states. */
  predicate Stays(tr: PacketTrim, restated: bool, discards: bool, su: int, hd: int, slop: int) {
    !(restated && tr.End() == su) && !(discards && tr.End() <= hd) && !(slop > 0 && tr.End() == su)
  }

  /** The trims of `within` that stay are exactly `kept`, which is a run of it. */
  ghost predicate KeepsRun(within: seq<PacketTrim>, kept: seq<PacketTrim>, from: nat, restated: bool, discards: bool,
                           su: int, hd: int, slop: int)
  {
    && from + |kept| <= |within| && kept == within[from..from + |kept|]
    && forall k :: 0 <= k < |within| ==>
      (Stays(within[k], restated, discards, su, hd, slop) <==> from <= k < from + |kept|)
  }

  /** The source's trims a window keeps; a tail slop swallows the one on its own packet. */
  method AddSourceTrims(within: seq<PacketTrim>, restated: bool, discards: bool, su: int, hd: int, slop: int,
      shift: int, acc: seq<PacketTrim>, ghost kept: seq<PacketTrim>, ghost from: nat)
    returns (out: seq<PacketTrim>, tailSlop: int)
    requires KeepsRun(within, kept, from, restated, discards, su, hd, slop)
    requires forall k :: 0 <= k < |within| && slop > 0 && within[k].End() == su ==> within[k].samples <= slop
    ensures out == acc + Shifted(kept, shift) && tailSlop == slop
  {
    ghost var m := 0;
    out, tailSlop := acc, slop;
    assert Shifted(kept[..0], shift) == [];
    for k := 0 to |within|
      invariant tailSlop == slop
      invariant 0 <= m <= |kept| && (k <= from ==> m == 0) && (k > from ==> m == Min(k - from, |kept|))
      invariant out == acc + Shifted(kept[..m], shift)
    {
      var tr := within[k];
      assert Stays(tr, restated, discards, su, hd, slop) <==> from <= k < from + |kept|;
      if restated && tr.End() == su {
      } else if discards && tr.End() <= hd {
      } else if tailSlop > 0 && tr.End() == su {
        tailSlop := Max(tailSlop, tr.samples);
      } else {
        AppendShifted(acc, kept, m, shift);
        out, m := out + [PacketTrim(shift + tr.pos, tr.samples)], m + 1;
      }
    }
    assert kept[..|kept|] == kept;
  }

  lemma AppendShifted(acc: seq<PacketTrim>, kept: seq<PacketTrim>, m: nat, shift: int)
    requires m < |kept|
    ensures acc + Shifted(kept[..m], shift) + [PacketTrim(shift + kept[m].pos, kept[m].samples)]
         == acc + Shifted(kept[..m + 1], shift)
  {
    assert kept[..m + 1] == kept[..m] + [kept[m]];
    ShiftedSnoc(kept[..m], kept[m], shift);
  }

  lemma RunOfSlice(trims: seq<PacketTrim>, lo: nat, from: nat, upTo: nat, hi: nat, restated: bool, discards: bool,
                   su: int, hd: int, slop: int)
    requires lo <= from <= upTo <= hi <= |trims|
    requires forall k :: lo <= k < hi ==> (Stays(trims[k], restated, discards, su, hd, slop) <==> from <= k < upTo)
    ensures KeepsRun(trims[lo..hi], trims[from..upTo], from - lo, restated, discards, su, hd, slop)
  {
    var within, kept := trims[lo..hi], trims[from..upTo];
    assert forall k :: 0 <= k < |kept| ==> within[from - lo + k] == kept[k];
    assert kept == within[from - lo..from - lo + |kept|];
  }

  /** The trims a window keeps are a run of the ones inside it. */
  lemma KeptTrims(c: Cut, i: nat, within: seq<PacketTrim>, inner: seq<PacketTrim>, from: nat)
    requires c.Laid() && i < c.N() && inner == c.Inner(i)
    requires Before(c.track.midTrims, c.at[i].sd) <= Before(c.track.midTrims, c.at[i].hd) <= c.TrimsUpTo(i) <=
        c.TrimsEnd(i)
    requires within == c.track.midTrims[Before(c.track.midTrims, c.at[i].sd)..c.TrimsEnd(i)]
    requires from == Before(c.track.midTrims, c.at[i].hd) - Before(c.track.midTrims, c.at[i].sd)
    ensures KeepsRun(within, inner, from, i == c.N() - 1 && !c.open, c.splice && i > 0, c.at[i].su, c.at[i].hd,
        c.TailSlop(i))
    ensures forall k :: 0 <= k < |within| && c.TailSlop(i) > 0 && within[k].End() == c.at[i].su ==>
      within[k].samples <= c.TailSlop(i)
  {
    var trims, b, slop := c.track.midTrims, c.at[i], c.TailSlop(i);
    var lo, first, upTo, hi := Before(trims, b.sd), Before(trims, b.hd), c.TrimsUpTo(i), c.TrimsEnd(i);
    var restated, discards := i == c.N() - 1 && !c.open, c.splice && i > 0;
    forall k: nat | lo <= k < hi
      ensures Stays(trims[k], restated, discards, b.su, b.hd, slop) <==> first <= k < upTo
      ensures slop > 0 && trims[k].End() == b.su ==> trims[k].samples <= slop
    {
      TrimInWindow(c, i, k);
    }
    RunOfSlice(trims, lo, first, upTo, hi, restated, discards, b.su, b.hd, slop);
    assert inner == trims[first..upTo];
  }

  /** Which of the trims in a window the cut keeps as they are. */
  lemma TrimInWindow(c: Cut, i: nat, k: nat)
    requires c.Laid() && i < c.N() && Before(c.track.midTrims, c.at[i].sd) <= k < c.TrimsEnd(i)
    ensures var tr, b := c.track.midTrims[k], c.at[i];
      && (k < Before(c.track.midTrims, b.hd) <==> c.splice && i > 0 && tr.End() <= b.hd)
      && (k >= c.TrimsUpTo(i) <==> c.Restated(i) && tr.End() == b.su)
      && (c.TailSlop(i) > 0 && tr.End() == b.su ==> tr.samples <= c.TailSlop(i))
  {
    var trims, b := c.track.midTrims, c.at[i];
    assert c.HeadLaid(i) && c.TailLaid(i);
    TrimsInOrder(c, i);
    BeforeSplits(trims, c.g, b.hd);
    if b.su >= 0 {
      BeforeSplits(trims, c.g, b.su);
      BeforeSplits(trims, c.g, b.su - 1);
    }
    if c.TailSlop(i) > 0 && trims[k].End() == b.su {
      assert b.dt <= trims[k].pos;
    }
  }

  method AddTrims(within: seq<PacketTrim>, g: int, restated: bool, discards: bool, sd: int, su: int, hd: int, slop: int,
                  shift: int, acc: seq<PacketTrim>, ghost kept: seq<PacketTrim>, ghost from: nat)
    returns (out: seq<PacketTrim>)
    requires g > 0 && sd <= hd && OnGrid(sd, g) && OnGrid(hd, g)
    requires KeepsRun(within, kept, from, restated, discards, su, hd, slop)
    requires forall k :: 0 <= k < |within| && slop > 0 && within[k].End() == su ==> within[k].samples <= slop
    ensures out == acc + Shifted((if discards then Discards(sd, hd, g) else []) + kept + TailOf(su, slop), shift)
  {
    ghost var heads := if discards then Discards(sd, hd, g) else [];
    out := acc;
    if discards {
      out := AddDiscards(sd, hd, g, shift, out);
    }
    assert out == acc + Shifted(heads, shift);
    var tailSlop;
    out, tailSlop := AddSourceTrims(within, restated, discards, su, hd, slop, shift, out, kept, from);
    out := AddTail(acc, heads, kept, su, tailSlop, shift, out);
  }

  method AddTail(ghost acc: seq<PacketTrim>, ghost heads: seq<PacketTrim>, ghost kept: seq<PacketTrim>, su: int,
                 slop: int, shift: int, done: seq<PacketTrim>) returns (out: seq<PacketTrim>)
    requires done == acc + Shifted(heads, shift) + Shifted(kept, shift)
    ensures out == acc + Shifted(heads + kept + TailOf(su, slop), shift)
  {
    out := done;
    ShiftedAppend(heads, kept, shift);
    ShiftedAppend(heads + kept, TailOf(su, slop), shift);
    if slop > 0 {
      out := out + [PacketTrim(shift + su - slop, slop)];
      assert Shifted(TailOf(su, slop), shift) == [PacketTrim(shift + su - slop, slop)];
    }
  }

  method WithinWindow(c: Cut, i: nat) returns (within: seq<PacketTrim>)
    requires c.Laid() && i < c.N()
    ensures c.TrimsEnd(i) >= Before(c.track.midTrims, c.at[i].sd)
    ensures within == c.track.midTrims[Before(c.track.midTrims, c.at[i].sd)..c.TrimsEnd(i)]
  {
    WindowShape(c, i);
    TrimsInOrder(c, i);
    GridIsClear(c.track.midTrims, c.g, c.at[i].sd);
    within := TrimsWithin(c.track.midTrims, c.at[i].sd, c.at[i].su, c.g);
  }

  lemma KeptFrom(c: Cut, i: nat, within: seq<PacketTrim>) returns (from: nat)
    requires c.Laid() && i < c.N() && c.TrimsEnd(i) >= Before(c.track.midTrims, c.at[i].sd)
    requires within == c.track.midTrims[Before(c.track.midTrims, c.at[i].sd)..c.TrimsEnd(i)]
    ensures KeepsRun(within, c.Inner(i), from, i == c.N() - 1 && !c.open, c.splice && i > 0, c.at[i].su, c.at[i].hd,
        c.TailSlop(i))
    ensures forall k :: 0 <= k < |within| && c.TailSlop(i) > 0 && within[k].End() == c.at[i].su ==>
      within[k].samples <= c.TailSlop(i)
  {
    TrimsInOrder(c, i);
    from := Before(c.track.midTrims, c.at[i].hd) - Before(c.track.midTrims, c.at[i].sd);
    KeptTrims(c, i, within, c.Inner(i), from);
  }

  /** One window's part of the synthesized trims: its discarded pre-roll, the source's own, its tail slop. */
  method AddWindowTrims(c: Cut, i: nat, start: int, acc: seq<PacketTrim>) returns (out: seq<PacketTrim>)
    requires c.Laid() && i < c.N() && start == c.Base(i)
    ensures out == acc + c.PlacedTrims(i)
  {
    var b, slop := c.at[i], c.TailSlop(i);
    var within := WithinWindow(c, i);
    ghost var inner, heads := c.Inner(i), c.Heads(i);
    ghost var from := KeptFrom(c, i, within);
    WindowShape(c, i);
    out := AddTrims(within, c.g, i == c.N() - 1 && !c.open, c.splice && i > 0, b.sd, b.su, b.hd, slop, start - b.sd,
        acc, inner, from);
    PlacedAre(c, i, heads, inner, start - b.sd);
  }

  lemma PlacedAre(c: Cut, i: nat, heads: seq<PacketTrim>, inner: seq<PacketTrim>, shift: int)
    requires c.g > 0 && i < c.N() && heads == c.Heads(i) && inner == c.Inner(i) && shift == c.Shift(i)
    ensures Shifted(heads + inner + TailOf(c.at[i].su, c.TailSlop(i)), shift) == c.PlacedTrims(i)
  {
  }

  /** The synthesized trims, re-placed on the output's raw timeline. */
  method CollectTrims(c: Cut) returns (midTrims: seq<PacketTrim>)
    requires c.Laid()
    ensures midTrims == c.CutTrims(c.N())
  {
    var outRaw := 0;
    midTrims := [];
    for i := 0 to c.N()
      invariant midTrims == c.CutTrims(i) && outRaw == c.Base(i)
    {
      midTrims, outRaw := NextWindow(c, i, outRaw, midTrims);
    }
  }

  method NextWindow(c: Cut, i: nat, start: int, acc: seq<PacketTrim>) returns (out: seq<PacketTrim>, outRaw: int)
    requires c.Laid() && i < c.N() && start == c.Base(i) && acc == c.CutTrims(i)
    ensures out == c.CutTrims(i + 1) && outRaw == c.Base(i + 1)
  {
    out := AddWindowTrims(c, i, start, acc);
    outRaw := if c.at[i].su >= 0 then start + c.at[i].su - c.at[i].sd else start;
  }

  // ----- The plan -----

  /** The raw length the windows deliver. */
  method DeliveredLength(c: Cut) returns (delivered: int)
    ensures delivered == c.Delivered(c.N())
  {
    delivered := 0;
    for i := 0 to c.N()
      invariant delivered == c.Delivered(i)
    {
      delivered := delivered + c.at[i].su - c.at[i].sd;
    }
  }

  /** The synthesized delay: the head's slop less the trims within it. */
  method HeadSlop(c: Cut) returns (delay: int)
    requires c.Laid()
    ensures delay == c.Delay()
  {
    var trims, b := c.track.midTrims, c.at[0];
    assert c.HeadLaid(0);
    GridIsClear(trims, c.g, b.sd);
    BeforeMonotone(trims, c.g, b.sd, b.df);
    delay := b.df - b.sd;
    var within := TrimsWithin(trims, b.sd, b.df, c.g);
    SumSlice(trims, Before(trims, b.sd), Before(trims, b.df));
    var trimmed := SumOf(within);
    delay := delay - trimmed;
  }

  method SynthesizeTrack(c: Cut, delay: int, config: Config) returns (out: Track)
    requires c.Laid() && delay == c.Delay()
    requires config == if c.track.codec.Opus? then OpusHead(delay) else c.track.config
    ensures out == c.CutTrack()
  {
    var midTrims := CollectTrims(c);
    var midPadding := SumOf(midTrims);
    var delivered := DeliveredLength(c);
    out := TrackWith(c, midTrims, midPadding, delivered, delay, config);
  }

  method TrackWith(c: Cut, midTrims: seq<PacketTrim>, midPadding: int, delivered: int, delay: int, config: Config)
    returns (out: Track)
    requires c.g > 0 && 0 < c.N() == |c.spans| && delay == c.Delay() && delivered == c.Delivered(c.N())
    requires midTrims == c.CutTrims(c.N()) && midPadding == Sum(midTrims)
    requires config == if c.track.codec.Opus? then OpusHead(delay) else c.track.config
    ensures out == c.CutTrack()
  {
    var track, last, lastToEnd := c.track, c.at[c.N() - 1], c.LastToEnd();
    var samples, padding := -1, track.padding;
    if !(lastToEnd && track.samples < 0) {
      padding := last.su - last.dt;
      samples := delivered - midPadding - delay - padding;
    }
    assert samples == c.Samples() && padding == c.Padding();
    var exact, advisory := track.samplesExact, track.samplesAdvisory;
    if !lastToEnd {
      exact, advisory := true, false;
    }
    out := track.(config := config, samples := samples, delay := delay, padding := padding,
      midPadding := midPadding, midTrims := midTrims, samplesExact := exact, samplesAdvisory := advisory);
  }

  /** Where the spans landed on the source's own timeline, and the windows that are walked. */
  method LandSpans(c: Cut) returns (landed: seq<Span>, windows: seq<Window>)
    requires 0 < c.N() == |c.spans|
    ensures landed == c.Landings() && windows == c.Windows()
  {
    var n, trims, delay := c.N(), c.track.midTrims, c.track.delay;
    landed, windows := [], [];
    for i := 0 to n
      invariant |landed| == |windows| == i
      invariant forall j :: 0 <= j < i ==> windows[j] == Window(c.at[j].sd, c.at[j].su)
      invariant forall j :: 0 <= j < i ==>
        landed[j] == Span(TrackOf(trims, delay, c.at[j].hd), TrackOf(trims, delay, c.at[j].su))
    {
      var from := TrackPos(trims, delay, c.at[i].hd);
      var end := TrackPos(trims, delay, c.at[i].su);
      landed, windows := landed + [Span(from, end)], windows + [Window(c.at[i].sd, c.at[i].su)];
    }
    landed := ExactEnds(c, landed);
    if c.open {
      windows := windows[n - 1 := windows[n - 1].(to := -1)];
    }
  }

  /** The ends a trim makes exact: the first head, the last tail, and spliced interior tails. */
  method ExactEnds(c: Cut, snapped: seq<Span>) returns (landed: seq<Span>)
    requires 0 < c.N() == |c.spans| == |snapped|
    requires forall j :: 0 <= j < c.N() ==>
      snapped[j] == Span(TrackOf(c.track.midTrims, c.track.delay, c.at[j].hd),
                         TrackOf(c.track.midTrims, c.track.delay, c.at[j].su))
    ensures landed == c.Landings()
  {
    var n := c.N();
    landed := snapped[0 := snapped[0].(from := c.spans[0].from)];
    if c.splice {
      for i := 0 to n - 1
        invariant |landed| == n && landed[n - 1].from == c.Landing(n - 1).from
        invariant forall j :: 0 <= j < i ==> landed[j] == c.Landing(j)
        invariant forall j :: i <= j < n ==>
          landed[j] == if j == 0 then snapped[0].(from := c.spans[0].from) else snapped[j]
      {
        landed := landed[i := landed[i].(to := c.spans[i].to)];
      }
    }
    var end := if !c.LastToEnd() then c.spans[n - 1].to else if c.track.samples >= 0 then c.track.samples else TO_END;
    landed := landed[n - 1 := landed[n - 1].(to := end)];
  }

  method CutOn(a: Ask) returns (answer: Answer)
    requires a.Fit()
    ensures answer == AnswerOn(a)
  {
    var at := SnapSpans(a);
    var kept := KeepAndApart(a, at);
    if !kept {
      return Declined;
    }
    var c := Clamp(a, at);
    SnapsLaid(a);
    answer := Synthesize(c);
  }

  method Synthesize(c: Cut) returns (answer: Answer)
    requires c.Laid()
    ensures answer == AnswerFor(c)
  {
    var delay := HeadSlop(c);
    var config, malformed := RestatePriming(c, delay);
    if malformed {
      return MalformedInput;
    }
    if config.None? {
      return Declined;
    }
    var out := SynthesizeTrack(c, delay, config.value);
    var landed, windows := LandSpans(c);
    var lastEnd := if out.samplesExact && out.samples >= 0 then c.at[c.N() - 1].dt else -1;
    PlanIs(c, out, landed, windows, lastEnd);
    answer :=
        Planned(Plan(out, landed, windows, lastEnd, c.track.samples < 0 || c.track.samplesAdvisory, c.track.midTrims));
  }

  lemma PlanIs(c: Cut, out: Track, landed: seq<Span>, windows: seq<Window>, lastEnd: int)
    requires c.g > 0 && 0 < c.N() == |c.spans| && out == c.CutTrack() && landed == c.Landings() &&
        windows == c.Windows()
    requires lastEnd == if out.samplesExact && out.samples >= 0 then c.at[c.N() - 1].dt else -1
    ensures Plan(out, landed, windows, lastEnd, c.track.samples < 0 || c.track.samplesAdvisory, c.track.midTrims) ==
        c.ToPlan()
  {
  }

  /** The codec's own priming field, when it has one. */
  method RestatePriming(c: Cut, delay: int) returns (config: Option<Config>, malformed: bool)
    requires 0 < c.N() && delay == c.Delay()
    ensures malformed <==> c.track.codec.Opus? && !c.track.config.OpusHead?
    ensures !malformed ==> (config.None? <==> c.track.codec.Opus? && !(0 <= delay <= 65535))
    ensures config.Some? ==> config.value == if c.track.codec.Opus? then OpusHead(delay) else c.track.config
  {
    malformed := false;
    if c.track.codec.Opus? {
      if !c.track.config.OpusHead? {
        return None, true;
      }
      if delay < 0 || delay > 65535 {
        return None, false;
      }
      return Some(OpusHead(delay)), false;
    }
    config := Some(c.track.config);
  }

  /** computeCut. */
  method ComputeCut(track: Track, spliceTrims: bool, spans: seq<Span>, grid: int) returns (answer: Answer)
    requires track.padding >= 0 && track.midPadding >= 0
    ensures answer == AnswerTo(track, spliceTrims, spans, grid)
  {
    var valid := ValidateCutSpans(track, spans);
    if !valid {
      return InvalidRequest;
    }
    if !OnAllowlist(track.codec) || (track.codec.HeAac? && spans[0].from > 0) || grid <= 0 {
      return Declined;
    }
    if track.delay < 0 || track.delay >= MAX_CUT_SAMPLE || grid >= MAX_CUT_SAMPLE {
      return Declined;
    }
    if track.midPadding > 0 || |track.midTrims| > 0 {
      var placeable := PlaceableTrims(track, grid);
      if !placeable {
        return Declined;
      }
    }
    AskFits(track, spliceTrims, spans, grid);
    answer := CutOn(AskOf(track, spliceTrims, spans, grid));
  }

  lemma AskFits(track: Track, spliceTrims: bool, spans: seq<Span>, grid: int)
    requires track.padding >= 0 && track.midPadding >= 0 && ValidSpans(track, spans) && grid > 0 && track.delay >= 0
    requires (track.midPadding > 0 || |track.midTrims| > 0) ==> Placeable(track, grid)
    ensures AskOf(track, spliceTrims, spans, grid).Fit()
  {
  }
}
