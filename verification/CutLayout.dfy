/** Every accepted request gives a layout the walk runs on: the synthesized trims are in order on the output's grid, and
    looking one up by output position finds the discard the plan meant for that packet. */
module CutLayout {
  import opened Container
  import opened CutTimeline
  import opened CutPlan
  import opened CutWalk
  import opened GridSource

  // ----- Lists of trims between two bounds -----

  /** Trims in order between lo and hi, each of at most g samples and ending on the grid. */
  ghost predicate Within(trims: seq<PacketTrim>, g: int, lo: int, hi: int) {
    && g > 0 && lo <= hi
    && (forall i :: 0 <= i < |trims| ==>
      0 < trims[i].samples <= g && lo <= trims[i].pos && trims[i].End() <= hi && OnGrid(trims[i].End(), g))
    && (forall i, j :: 0 <= i < j < |trims| ==> trims[i].End() <= trims[j].pos)
  }

  lemma WithinAppend(a: seq<PacketTrim>, b: seq<PacketTrim>, g: int, lo: int, mid: int, hi: int)
    requires Within(a, g, lo, mid) && Within(b, g, mid, hi)
    ensures Within(a + b, g, lo, hi)
  {
    var c := a + b;
    forall i | 0 <= i < |c|
      ensures 0 < c[i].samples <= g && lo <= c[i].pos && c[i].End() <= hi && OnGrid(c[i].End(), g)
    {
    }
    forall i, j | 0 <= i < j < |c|
      ensures c[i].End() <= c[j].pos
    {
    }
  }

  lemma WithinShifted(trims: seq<PacketTrim>, g: int, lo: int, hi: int, base: int, shift: int, end: int)
    requires Within(trims, g, lo, hi) && OnGrid(lo, g) && OnGrid(base, g) && shift == base - lo && end == hi + shift
    ensures Within(Shifted(trims, shift), g, base, end)
  {
    var r := Shifted(trims, shift);
    forall i | 0 <= i < |r|
      ensures OnGrid(r[i].End(), g)
    {
      MovedOnGrid(trims[i].End(), lo, base, g);
    }
    ShiftedInOrder(trims, shift);
  }

  lemma ShiftedInOrder(trims: seq<PacketTrim>, shift: int)
    requires forall i, j :: 0 <= i < j < |trims| ==> trims[i].End() <= trims[j].pos
    ensures var r := Shifted(trims, shift); forall i, j :: 0 <= i < j < |r| ==> r[i].End() <= r[j].pos
  {
  }

  lemma MovedOnGrid(x: int, lo: int, base: int, g: int)
    requires g > 0 && OnGrid(x, g) && OnGrid(lo, g) && OnGrid(base, g) && lo <= x
    ensures OnGrid(x + (base - lo), g)
  {
    SumOnGrid(x, lo, g);
    SumOnGrid(x - lo, base, g);
    assert x - lo + base == x + (base - lo);
  }

  lemma {:induction false} TrimAtAppend(a: seq<PacketTrim>, b: seq<PacketTrim>, end: int)
    ensures TrimAt(a + b, end) == if EndsAt(b, end) then TrimAt(b, end) else TrimAt(a, end)
    decreases |b|
  {
    if |b| == 0 {
      assert a + b == a;
    } else {
      var init, last := b[..|b| - 1], b[|b| - 1];
      assert (a + b)[..|a + b| - 1] == a + init;
      TrimAtAppend(a, init, end);
      if last.End() != end {
        assert EndsAt(b, end) <==> EndsAt(init, end) by {
          if EndsAt(b, end) {
            var i :| 0 <= i < |b| && b[i].End() == end;
            assert init[i].End() == end;
          }
          if EndsAt(init, end) {
            var i :| 0 <= i < |init| && init[i].End() == end;
            assert b[i].End() == end;
          }
        }
      }
    }
  }

  /** A lookup falls to the list whose bounds it is within. */
  lemma TrimAtSides(a: seq<PacketTrim>, b: seq<PacketTrim>, g: int, lo: int, mid: int, hi: int, end: int)
    requires Within(a, g, lo, mid) && Within(b, g, mid, hi)
    ensures end <= mid ==> TrimAt(a + b, end) == TrimAt(a, end)
    ensures mid < end ==> TrimAt(a + b, end) == TrimAt(b, end)
  {
    TrimAtAppend(a, b, end);
    if end <= mid {
      forall i | 0 <= i < |b|
        ensures b[i].End() != end
      {
      }
    } else {
      assert !EndsAt(a, end);
      TrimAtNone(a, end);
      if !EndsAt(b, end) {
        TrimAtNone(b, end);
      }
    }
  }

  lemma {:induction false} TrimAtShifted(trims: seq<PacketTrim>, shift: int, end: int)
    ensures TrimAt(Shifted(trims, shift), end + shift) == TrimAt(trims, end)
  {
    if |trims| > 0 {
      assert Shifted(trims, shift)[..|trims| - 1] == Shifted(trims[..|trims| - 1], shift);
      TrimAtShifted(trims[..|trims| - 1], shift, end);
    }
  }

  lemma {:induction false} DiscardsWithin(from: int, end: int, g: int)
    requires g > 0 && from <= end && OnGrid(from, g) && OnGrid(end, g)
    ensures Within(Discards(from, end, g), g, from, end)
    decreases end - from
  {
    if from < end {
      GridGap(from, end, g);
      SumOnGrid(end, g, g);
      DiscardsWithin(from, end - g, g);
      WithinAppend(Discards(from, end - g, g), [PacketTrim(end - g, g)], g, from, end - g, end);
    }
  }

  lemma {:induction false} DiscardAt(from: int, end: int, g: int, e: int)
    requires g > 0 && from <= end && OnGrid(from, g) && OnGrid(end, g)
    ensures TrimAt(Discards(from, end, g), e) == if from < e <= end && OnGrid(e, g) then g else 0
    decreases end - from
  {
    if from < end {
      GridGap(from, end, g);
      SumOnGrid(end, g, g);
      var last := end - g;
      DiscardAt(from, last, g, e);
      OneMoreDiscard(from, last, end, g, e);
      if last < e < end && OnGrid(e, g) {
        GridGap(last, e, g);
      }
    }
  }

  lemma OneMoreDiscard(from: int, last: int, end: int, g: int, e: int)
    requires g > 0 && from < end && last == end - g
    ensures TrimAt(Discards(from, end, g), e) == if e == end then g else TrimAt(Discards(from, last, g), e)
  {
    var all, rest := Discards(from, end, g), Discards(from, last, g);
    assert all == rest + [PacketTrim(last, g)];
    assert all[..|all| - 1] == rest && all[|all| - 1].End() == end;
  }

  lemma SliceWithin(trims: seq<PacketTrim>, g: int, i: nat, j: nat, lo: int, hi: int)
    requires Placed(trims, g) && i <= j <= |trims| && lo <= hi
    requires i < j ==> lo <= trims[i].pos && trims[j - 1].End() <= hi
    ensures Within(trims[i..j], g, lo, hi)
  {
    forall k | i <= k < j
      ensures lo <= trims[k].pos && trims[k].End() <= hi
    {
      assert i < k ==> trims[i].End() <= trims[k].pos;
      assert k < j - 1 ==> trims[k].End() <= trims[j - 1].pos;
    }
  }

  lemma SliceAt(trims: seq<PacketTrim>, g: int, i: nat, j: nat, e: int)
    requires Placed(trims, g) && i <= j <= |trims|
    requires forall k :: (0 <= k < i || j <= k < |trims|) ==> trims[k].End() != e
    ensures TrimAt(trims[i..j], e) == TrimAt(trims, e)
  {
    if EndsAt(trims, e) {
      var k :| 0 <= k < |trims| && trims[k].End() == e;
      TrimAtIs(trims, e, k);
      assert trims[i..j][k - i] == trims[k];
      TrimAtIs(trims[i..j], e, k - i);
    } else {
      TrimAtNone(trims, e);
      TrimAtNone(trims[i..j], e);
    }
  }

  // ----- One window's trims -----

  /** The raw position no trim of window i reaches past. */
  function Reach(c: Cut, i: nat): int
    requires i < c.N()
  {
    var trims := c.track.midTrims;
    if c.at[i].su >= 0 then c.at[i].su else Max(c.at[i].hd, if |trims| == 0 then 0 else trims[|trims| - 1].End())
  }

  /** Where a window's audio ends: at the requested end on a spliced interior tail, with its packets otherwise. */
  function Tail(c: Cut, i: nat): int
    requires i < c.N()
  {
    if c.splice && i < c.N() - 1 then c.at[i].dt else Reach(c, i)
  }

  lemma TailBounds(c: Cut, i: nat)
    requires c.Laid() && i < c.N()
    ensures c.at[i].hd <= Tail(c, i) <= Reach(c, i)
    ensures c.at[i].su >= 0 ==> c.at[i].hd < Tail(c, i) <= c.at[i].su < Tail(c, i) + c.g
    ensures c.at[i].su >= 0 && Tail(c, i) < c.at[i].su ==>
      c.splice && i < c.N() - 1 && Clear(c.track.midTrims, Tail(c, i)) && !Inside(c.track.midTrims, Tail(c, i) - 1)
    ensures c.TailSlop(i) == if c.splice && i < c.N() - 1 then Reach(c, i) - Tail(c, i) else 0
  {
    WindowShape(c, i);
    assert c.TailLaid(i);
  }

  lemma InnerWithin(c: Cut, i: nat)
    requires c.Laid() && i < c.N()
    ensures Within(c.Inner(i), c.g, c.at[i].hd, Tail(c, i))
  {
    var trims, lo, hi := c.track.midTrims, Before(c.track.midTrims, c.at[i].hd), c.TrimsUpTo(i);
    TrimsInOrder(c, i);
    WindowShape(c, i);
    TailBounds(c, i);
    GridIsClear(trims, c.g, c.at[i].hd);
    if lo < hi {
      assert c.at[i].hd < trims[lo].End();
      if c.at[i].su >= 0 && c.TailSlop(i) > 0 {
        assert trims[hi - 1].End() <= c.at[i].su - 1;
        GridGap(trims[hi - 1].End(), c.at[i].su, c.g);
      }
    }
    SliceWithin(trims, c.g, lo, hi, c.at[i].hd, Tail(c, i));
  }

  lemma PartsWithin(c: Cut, i: nat)
    requires c.Laid() && i < c.N()
    ensures Within(c.Heads(i), c.g, c.at[i].sd, c.at[i].hd)
    ensures Within(c.Inner(i), c.g, c.at[i].hd, Tail(c, i))
    ensures Within(TailOf(c.at[i].su, c.TailSlop(i)), c.g, Tail(c, i), Reach(c, i))
  {
    WindowShape(c, i);
    InnerWithin(c, i);
    TailBounds(c, i);
    if c.splice && i > 0 {
      DiscardsWithin(c.at[i].sd, c.at[i].hd, c.g);
    }
  }

  lemma ThreeWithin(heads: seq<PacketTrim>, inner: seq<PacketTrim>, tail: seq<PacketTrim>, g: int, lo: int, h: int,
                    t: int, hi: int)
    requires Within(heads, g, lo, h) && Within(inner, g, h, t) && Within(tail, g, t, hi)
    ensures Within(heads + inner + tail, g, lo, hi)
  {
    WithinAppend(heads, inner, g, lo, h, t);
    WithinAppend(heads + inner, tail, g, lo, t, hi);
  }

  lemma WindowWithin(c: Cut, i: nat)
    requires c.Laid() && i < c.N()
    ensures Within(c.WindowTrims(i), c.g, c.at[i].sd, Reach(c, i))
  {
    PartsWithin(c, i);
    ThreeWithin(c.Heads(i), c.Inner(i), TailOf(c.at[i].su, c.TailSlop(i)), c.g, c.at[i].sd, c.at[i].hd, Tail(c, i),
                Reach(c, i));
  }

  // ----- The whole list -----

  lemma {:induction false} BaseOnGrid(c: Cut, i: nat)
    requires c.Laid() && i < c.N()
    ensures OnGrid(c.Base(i), c.g)
  {
    if i > 0 {
      BaseOnGrid(c, i - 1);
      WindowShape(c, i - 1);
      SumOnGrid(c.at[i - 1].su, c.at[i - 1].sd, c.g);
      SumOnGrid(c.Base(i - 1), c.at[i - 1].su - c.at[i - 1].sd, c.g);
    }
  }

  /** Where the first k windows' trims end on the output. */
  function BaseReach(c: Cut, k: nat): int
    requires k <= c.N()
  {
    if k == 0 then 0 else c.Base(k - 1) + Reach(c, k - 1) - c.at[k - 1].sd
  }

  lemma PlacedWindow(c: Cut, i: nat)
    requires c.Laid() && i < c.N()
    ensures Within(c.PlacedTrims(i), c.g, c.Base(i), BaseReach(c, i + 1))
  {
    WindowShape(c, i);
    BaseOnGrid(c, i);
    WindowWithin(c, i);
    PlacedFrom(c, i, c.Base(i), c.WindowTrims(i), Reach(c, i));
  }

  lemma PlacedFrom(c: Cut, i: nat, base: int, trims: seq<PacketTrim>, reach: int)
    requires c.g > 0 && i < c.N() && reach == Reach(c, i) && base == c.Base(i) && trims == c.WindowTrims(i)
    requires OnGrid(base, c.g) && OnGrid(c.at[i].sd, c.g) && Within(trims, c.g, c.at[i].sd, reach)
    ensures Within(c.PlacedTrims(i), c.g, c.Base(i), BaseReach(c, i + 1))
  {
    WithinShifted(trims, c.g, c.at[i].sd, reach, base, c.Shift(i), BaseReach(c, i + 1));
    PlacedIs(c, i);
  }

  lemma PlacedIs(c: Cut, i: nat)
    requires c.g > 0 && i < c.N()
    ensures c.PlacedTrims(i) == Shifted(c.WindowTrims(i), c.Shift(i))
  {
  }

  lemma BaseIsReach(c: Cut, i: nat)
    requires c.Laid() && i < c.N()
    ensures BaseReach(c, i) == c.Base(i)
  {
    if i > 0 {
      WindowShape(c, i - 1);
    }
  }

  /** Each part lies between two successive ends. */
  ghost predicate Tiles(parts: seq<seq<PacketTrim>>, ends: seq<int>, g: int) {
    |ends| == |parts| + 1 && g > 0 && forall i :: 0 <= i < |parts| ==> Within(parts[i], g, ends[i], ends[i + 1])
  }

  lemma {:induction false} ConcatWithin(parts: seq<seq<PacketTrim>>, ends: seq<int>, g: int, k: nat)
    requires Tiles(parts, ends, g) && k <= |parts|
    ensures Within(Concat(parts, k), g, ends[0], ends[k])
  {
    if k > 0 {
      ConcatWithin(parts, ends, g, k - 1);
      WithinAppend(Concat(parts, k - 1), parts[k - 1], g, ends[0], ends[k - 1], ends[k]);
    }
  }

  /** A lookup falls to the part whose bounds it is within. */
  lemma {:induction false} ConcatLookup(parts: seq<seq<PacketTrim>>, ends: seq<int>, g: int, i: nat, k: nat, at: int)
    requires Tiles(parts, ends, g) && i < k <= |parts| && ends[i] < at && (i + 1 < k ==> at <= ends[i + 1])
    ensures TrimAt(Concat(parts, k), at) == TrimAt(parts[i], at)
    decreases k
  {
    ConcatWithin(parts, ends, g, k - 1);
    TrimAtSides(Concat(parts, k - 1), parts[k - 1], g, ends[0], ends[k - 1], ends[k], at);
    if i + 1 < k {
      EndsAscend(parts, ends, g, i + 1, k - 1);
      ConcatLookup(parts, ends, g, i, k - 1, at);
    }
  }

  lemma {:induction false} EndsAscend(parts: seq<seq<PacketTrim>>, ends: seq<int>, g: int, i: nat, k: nat)
    requires Tiles(parts, ends, g) && i <= k <= |parts|
    ensures ends[i] <= ends[k]
    decreases k
  {
    if i < k {
      EndsAscend(parts, ends, g, i, k - 1);
      assert Within(parts[k - 1], g, ends[k - 1], ends[k]);
    }
  }

  lemma LookupInPart(parts: seq<seq<PacketTrim>>, ends: seq<int>, g: int, i: nat, trims: seq<PacketTrim>, shift: int,
                     e: int, all: seq<PacketTrim>, at: int)
    requires Tiles(parts, ends, g) && i < |parts| && parts[i] == Shifted(trims, shift)
    requires ends[i] < e + shift && (i + 1 < |parts| ==> e + shift <= ends[i + 1])
    requires all == Concat(parts, |parts|) && at == e + shift
    ensures TrimAt(all, at) == TrimAt(trims, e)
  {
    ConcatLookup(parts, ends, g, i, |parts|, e + shift);
    TrimAtShifted(trims, shift, e);
  }

  ghost function EndsOf(c: Cut): (ends: seq<int>)
    ensures |ends| == c.N() + 1 && forall i :: 0 <= i <= c.N() ==> ends[i] == BaseReach(c, i)
  {
    seq(c.N() + 1, i requires 0 <= i <= c.N() => BaseReach(c, i))
  }

  lemma PartsTile(c: Cut)
    requires c.Laid()
    ensures Tiles(c.Parts(), EndsOf(c), c.g)
  {
    var parts, ends := c.Parts(), EndsOf(c);
    forall i | 0 <= i < c.N()
      ensures Within(parts[i], c.g, ends[i], ends[i + 1])
    {
      PlacedWindow(c, i);
      BaseIsReach(c, i);
      var part, lo, hi := parts[i], ends[i], ends[i + 1];
      assert part == c.PlacedTrims(i) && lo == BaseReach(c, i) && hi == BaseReach(c, i + 1);
    }
  }

  /** The cut track's trims are sorted, within single packets, on the output's grid, and sum to its inner padding. */
  lemma CutTrimsArePlaced(c: Cut)
    requires c.Laid()
    ensures Placed(c.CutTrims(c.N()), c.g) && Ordered(c.CutTrims(c.N())) && Ordered(c.track.midTrims)
    ensures c.CutTrack().midTrims == c.CutTrims(c.N()) && Sum(c.CutTrack().midTrims) == c.CutTrack().midPadding
  {
    PartsTile(c);
    ConcatWithin(c.Parts(), EndsOf(c), c.g, c.N());
    assert EndsOf(c)[0] == 0;
  }

  /** A lookup by output position falls to its own window's trims. */
  lemma LookupInWindow(c: Cut, i: nat, e: int, all: seq<PacketTrim>, at: int)
    requires c.Laid() && i < c.N() && c.at[i].sd < e && (i < c.N() - 1 ==> e <= c.at[i].su)
    requires all == c.CutTrims(c.N()) && at == c.Shift(i) + e
    ensures TrimAt(all, at) == TrimAt(c.WindowTrims(i), e)
  {
    var parts, ends := c.Parts(), EndsOf(c);
    PartsTile(c);
    var shift := PartAt(c, parts, ends, i);
    LookupInPart(parts, ends, c.g, i, c.WindowTrims(i), shift, e, all, at);
  }

  lemma PartAt(c: Cut, parts: seq<seq<PacketTrim>>, ends: seq<int>, i: nat) returns (shift: int)
    requires c.Laid() && i < c.N() && parts == c.Parts() && ends == EndsOf(c)
    ensures shift == c.Shift(i) && parts[i] == Shifted(c.WindowTrims(i), shift)
    ensures ends[i] == c.at[i].sd + shift && (i + 1 < c.N() ==> ends[i + 1] == c.at[i].su + shift)
  {
    shift := c.Shift(i);
    BaseIsReach(c, i);
    assert ends[i] == BaseReach(c, i);
    if i + 1 < c.N() {
      WindowShape(c, i);
      BaseIsReach(c, i + 1);
      assert ends[i + 1] == BaseReach(c, i + 1);
    }
    var part := parts[i];
    assert part == c.PlacedTrims(i);
  }

  // ----- The layout -----

  /** A declared length covers the trims inside the run. */
  ghost predicate TrimsCovered(track: Track) {
    track.samples >= 0 ==>
      forall i :: 0 <= i < |track.midTrims| ==> track.midTrims[i].End() <= EndOfDecode(track) - track.padding
  }

  function TailAt(c: Cut, i: nat): int requires i < c.N() { if c.WindowOf(i).to < 0 then -1 else Tail(c, i) }

  ghost function LayoutOf(c: Cut): (l: Layout)
    requires c.g > 0 && 0 < c.N() == |c.spans|
    ensures |l.heads| == |l.tails| == l.N() == c.N() && l.g == c.g && l.plan == c.ToPlan()
    ensures forall i :: 0 <= i < c.N() ==> l.heads[i] == c.at[i].hd
    ensures forall i :: 0 <= i < c.N() ==> l.tails[i] == TailAt(c, i)
  {
    Layout(c.g, c.ToPlan(),
           seq(c.N(), i requires 0 <= i < c.N() => c.at[i].hd),
           seq(c.N(), i requires 0 <= i < c.N() => TailAt(c, i)))
  }

  /** The trim the plan states for the packet of window i ending at e. */
  function PlannedPadOf(c: Cut, i: nat, e: int): int
    requires c.g > 0 && i < c.N()
  {
    if !OnGrid(e, c.g) then 0
    else if e <= c.at[i].hd then c.g
    else if e == c.WindowOf(i).to && i == c.N() - 1 then 0
    else if e == c.WindowOf(i).to && Tail(c, i) < e then e - Tail(c, i)
    else TrimAt(c.track.midTrims, e)
  }

  /** The trims past a window's head and outside what it keeps end somewhere else. */
  lemma InnerAt(c: Cut, i: nat, e: int)
    requires c.Laid() && i < c.N() && c.at[i].hd < e <= Tail(c, i)
    requires !(i == c.N() - 1 && !c.open && e == c.at[i].su)
    ensures TrimAt(c.Inner(i), e) == TrimAt(c.track.midTrims, e)
  {
    var trims := c.track.midTrims;
    TrimsInOrder(c, i);
    TailBounds(c, i);
    BeforeSplits(trims, c.g, c.at[i].hd);
    if c.at[i].su >= 0 {
      BeforeSplits(trims, c.g, c.at[i].su);
      BeforeSplits(trims, c.g, c.at[i].su - 1);
    }
    SliceAt(trims, c.g, Before(trims, c.at[i].hd), c.TrimsUpTo(i), e);
  }

  /** Past a window's reach the source states no trim. */
  lemma NoTrimPastReach(c: Cut, i: nat, e: int)
    requires c.Laid() && TrimsCovered(c.track) && i == c.N() - 1 && c.open && Reach(c, i) < e
    ensures TrimAt(c.track.midTrims, e) == 0
  {
    var trims := c.track.midTrims;
    assert c.TailLaid(i);
    assert forall k :: 0 <= k < |trims| ==> trims[k].End() <= trims[|trims| - 1].End();
    TrimAtNone(trims, e);
  }

  lemma LookupThree(heads: seq<PacketTrim>, inner: seq<PacketTrim>, tail: seq<PacketTrim>, g: int, lo: int, h: int,
                    t: int, hi: int, e: int)
    requires Within(heads, g, lo, h) && Within(inner, g, h, t) && Within(tail, g, t, hi)
    ensures TrimAt(heads + inner + tail, e) == TrimAt(if e <= h then heads else if e <= t then inner else tail, e)
    ensures !OnGrid(e, g) ==> TrimAt(heads + inner + tail, e) == 0
  {
    WithinAppend(heads, inner, g, lo, h, t);
    ThreeWithin(heads, inner, tail, g, lo, h, t, hi);
    TrimAtSides(heads + inner, tail, g, lo, t, hi, e);
    TrimAtSides(heads, inner, g, lo, h, t, e);
    if !OnGrid(e, g) {
      TrimAtNone(heads + inner + tail, e);
    }
  }

  /** What the plan states for the packet of window i ending at e. */
  lemma WindowLookup(c: Cut, i: nat, e: int)
    requires c.Laid() && TrimsCovered(c.track) && i < c.N() && c.at[i].sd < e
    requires c.WindowOf(i).to >= 0 ==> e <= c.at[i].su
    ensures TrimAt(c.WindowTrims(i), e) == PlannedPadOf(c, i, e)
  {
    PartsWithin(c, i);
    WindowShape(c, i);
    LookupThree(c.Heads(i), c.Inner(i), TailOf(c.at[i].su, c.TailSlop(i)), c.g, c.at[i].sd, c.at[i].hd, Tail(c, i),
                Reach(c, i), e);
    if OnGrid(e, c.g) {
      if e <= c.at[i].hd {
        DiscardAt(c.at[i].sd, c.at[i].hd, c.g, e);
      } else if e <= Tail(c, i) {
        LookupInBody(c, i, e);
      } else {
        LookupPastTail(c, i, e);
      }
    }
  }

  lemma LookupInBody(c: Cut, i: nat, e: int)
    requires c.Laid() && i < c.N() && c.at[i].hd < e <= Tail(c, i) && OnGrid(e, c.g)
    requires c.WindowOf(i).to >= 0 ==> e <= c.at[i].su
    ensures TrimAt(c.Inner(i), e) == PlannedPadOf(c, i, e)
  {
    TailBounds(c, i);
    WindowShape(c, i);
    if i == c.N() - 1 && !c.open && e == c.at[i].su {
      TrimsInOrder(c, i);
      BeforeSplits(c.track.midTrims, c.g, c.at[i].su - 1);
      TrimAtNone(c.Inner(i), e);
    } else {
      InnerAt(c, i, e);
    }
  }

  lemma LookupPastTail(c: Cut, i: nat, e: int)
    requires c.Laid() && TrimsCovered(c.track) && i < c.N() && Tail(c, i) < e && c.at[i].hd < e && OnGrid(e, c.g)
    requires c.WindowOf(i).to >= 0 ==> e <= c.at[i].su
    ensures TrimAt(TailOf(c.at[i].su, c.TailSlop(i)), e) == PlannedPadOf(c, i, e)
  {
    TailBounds(c, i);
    WindowShape(c, i);
    if c.WindowOf(i).to >= 0 {
      if e < c.at[i].su {
        GridGap(e, c.at[i].su, c.g);
      }
      assert TailOf(c.at[i].su, c.TailSlop(i)) == [PacketTrim(Tail(c, i), c.at[i].su - Tail(c, i))];
    } else {
      NoTrimPastReach(c, i, e);
    }
  }

  lemma {:induction false} AheadIsBase(c: Cut, l: Layout, i: nat)
    requires c.Laid() && l == LayoutOf(c) && i < c.N()
    ensures l.Ahead(i) == c.Base(i)
  {
    if i > 0 {
      var j := i - 1;
      AheadIsBase(c, l, j);
      WindowShape(c, j);
      AheadStep(c, l, j, i);
    }
  }

  lemma AheadStep(c: Cut, l: Layout, i: nat, next: nat)
    requires c.g > 0 && 0 < c.N() == |c.spans| && l == LayoutOf(c) && next == i + 1 < c.N() && 0 <= c.at[i].su
    ensures l.Ahead(next) == l.Ahead(i) + c.at[i].su - c.at[i].sd &&
        c.Base(next) == c.Base(i) + c.at[i].su - c.at[i].sd
  {
    WindowAt(c, l, i);
    AheadNext(l, i, next);
    BaseNext(c, i, next);
  }

  lemma WindowAt(c: Cut, l: Layout, i: nat)
    requires c.g > 0 && 0 < c.N() == |c.spans| && l == LayoutOf(c) && i < c.N()
    ensures l.N() == c.N() && l.plan.windows[i] == c.WindowOf(i)
  {
  }

  lemma AheadNext(l: Layout, i: nat, next: nat)
    requires next == i + 1 < l.N() && l.To(i) >= 0
    ensures l.Ahead(next) == l.Ahead(i) + l.To(i) - l.From(i)
  {
  }

  lemma BaseNext(c: Cut, i: nat, next: nat)
    requires next == i + 1 < c.N() && c.at[i].su >= 0
    ensures c.Base(next) == c.Base(i) + c.at[i].su - c.at[i].sd
  {
  }

  lemma LayoutWindowSound(c: Cut, l: Layout, i: nat)
    requires c.Laid() && l == LayoutOf(c) && i < c.N()
    ensures l.WindowSound(i)
  {
    WindowShape(c, i);
    TailBounds(c, i);
    assert l.plan.windows[i] == c.WindowOf(i);
    if c.WindowOf(i).to >= 0 && Tail(c, i) == c.at[i].su {
      GridIsClear(c.track.midTrims, c.g, c.at[i].su);
    }
  }

  lemma WindowsInOrder(c: Cut, l: Layout)
    requires c.Laid() && l == LayoutOf(c)
    ensures forall i, j :: 0 <= i < j < l.N() ==> l.To(i) <= l.From(j)
  {
    forall i, j | 0 <= i < j < l.N()
      ensures l.To(i) <= l.From(j)
    {
      WindowsApart(c, i, j);
      WindowShape(c, j);
      assert l.plan.windows[i] == c.WindowOf(i) && l.plan.windows[j] == c.WindowOf(j);
    }
  }

  lemma LookupsFind(c: Cut, l: Layout, i: nat)
    requires c.Laid() && TrimsCovered(c.track) && l == LayoutOf(c) && i < l.N()
    ensures l.LooksUp(i)
  {
    forall e | l.From(i) < e && (l.To(i) >= 0 ==> e <= l.To(i))
      ensures l.StatedPad(i, e) == l.PlannedPad(i, e)
    {
      LayoutLookup(c, l, i, e);
    }
  }

  lemma WindowsSound(c: Cut, l: Layout)
    requires c.Laid() && l == LayoutOf(c)
    ensures forall i :: 0 <= i < l.N() ==> l.WindowSound(i)
  {
    forall i | 0 <= i < l.N()
      ensures l.WindowSound(i)
    {
      LayoutWindowSound(c, l, i);
    }
  }

  /** The walk can run on every accepted plan. */
  lemma LayoutSound(c: Cut)
    requires c.Laid() && TrimsCovered(c.track)
    ensures LayoutOf(c).Sound()
  {
    var l := LayoutOf(c);
    WindowsSound(c, l);
    WindowsInOrder(c, l);
    forall i | 0 <= i < l.N()
      ensures l.LooksUp(i)
    {
      LookupsFind(c, l, i);
    }
  }

  lemma LayoutLookup(c: Cut, l: Layout, i: nat, e: int)
    requires c.Laid() && TrimsCovered(c.track) && l == LayoutOf(c) && i < l.N()
    requires l.From(i) < e && (l.To(i) >= 0 ==> e <= l.To(i))
    ensures l.StatedPad(i, e) == l.PlannedPad(i, e)
  {
    LookupAt(c, l, i, e, l.plan.track.midTrims, l.OutEnd(i, e), l.PlannedPad(i, e));
  }

  lemma LookupAt(c: Cut, l: Layout, i: nat, e: int, all: seq<PacketTrim>, at: int, pad: int)
    requires c.Laid() && TrimsCovered(c.track) && l == LayoutOf(c) && i < l.N()
    requires l.From(i) < e && (l.To(i) >= 0 ==> e <= l.To(i))
    requires all == l.plan.track.midTrims && at == l.OutEnd(i, e) && pad == l.PlannedPad(i, e)
    ensures TrimAt(all, at) == pad
  {
    assert l.plan.windows[i] == c.WindowOf(i);
    WindowShape(c, i);
    AheadIsBase(c, l, i);
    assert at == c.Shift(i) + e;
    LookupInWindow(c, i, e, all, at);
    WindowLookup(c, i, e);
    PadsAgree(c, l, i, e, pad);
  }

  lemma PadsAgree(c: Cut, l: Layout, i: nat, e: int, pad: int)
    requires c.g > 0 && 0 < c.N() == |c.spans| && l == LayoutOf(c) && i < l.N() && pad == l.PlannedPad(i, e)
    requires c.at[i].hd == l.heads[i] && TailAt(c, i) == l.tails[i] && l.plan.windows[i] == c.WindowOf(i)
    requires c.at[i].hd >= 0 && (c.WindowOf(i).to < 0 || e <= c.WindowOf(i).to)
    ensures pad == PlannedPadOf(c, i, e)
  {
    assert l.plan.trims == c.track.midTrims;
  }
}
