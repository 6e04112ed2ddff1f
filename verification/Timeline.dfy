/** A joined timeline, said plainly (timeline.go): members end to end, neighbours overlapping by a zone in which the
    outgoing one's tail and the incoming one's head are blended by a curve. */
module Timeline {
  import opened Container

  /** The frames of a member that its successor's zone takes, and of a member that its predecessor's tail covers. */
  function TailOf(n: nat, i: nat, x: int): int { if i + 1 >= n then 0 else x }

  function HeadOf(i: nat, x: int): int { if i == 0 then 0 else x }

  /** Every member is long enough for the zones it carries. */
  ghost predicate Fits(lens: seq<int>, x: int) {
    x >= 0 && forall i :: 0 <= i < |lens| ==> lens[i] >= 0 && (x > 0 ==> HeadOf(i, x) + TailOf(|lens|, i, x) <= lens[i])
  }

  /** Where member i begins on the timeline, the zone it shares with its predecessor included. */
  function Starts(lens: seq<int>, x: int, i: nat): int
    requires i <= |lens|
  {
    if i == 0 then 0 else Starts(lens, x, i - 1) + lens[i - 1] - TailOf(|lens|, i - 1, x)
  }

  function Total(lens: seq<int>): int { if |lens| == 0 then 0 else Total(lens[..|lens| - 1]) + lens[|lens| - 1] }

  /** One zone is subtracted for each of the seams. */
  lemma {:induction false} StartsTotal(lens: seq<int>, x: int, i: nat)
    requires i <= |lens|
    ensures Starts(lens, x, i) == Total(lens[..i]) - (if i == |lens| then Max(i - 1, 0) else i) * x
  {
    if i > 0 {
      StartsTotal(lens, x, i - 1);
      assert lens[..i][..i - 1] == lens[..i - 1];
      assert (i - 1) * x + x == i * x;
    }
  }

  lemma {:induction false} StartsAscend(lens: seq<int>, x: int, i: nat, j: nat)
    requires Fits(lens, x) && i <= j <= |lens|
    ensures 0 <= Starts(lens, x, i) <= Starts(lens, x, j)
    decreases j
  {
    if i < j {
      StartsAscend(lens, x, i, j - 1);
    } else if i > 0 {
      StartsAscend(lens, x, i - 1, i - 1);
    }
  }

  lemma SplitAt<T>(p: seq<T>, rest: seq<T>, k: nat, m: nat)
    requires k <= m <= |p|
    ensures p[k..] + rest == p[k..m] + (p[m..] + rest)
  {
  }

  lemma PastPart<T>(p: seq<T>, rest: seq<T>, d: nat, k: nat)
    requires k <= |rest| && d == |p| + k
    ensures (p + rest)[d..] == rest[k..]
  {
  }

  lemma FromPart<T>(all: seq<T>, start: nat, p: seq<T>, rest: seq<T>, k: nat, t: nat)
    requires start <= |all| && all[start..] == p + rest && k <= |p| && t == start + k
    ensures t <= |all| && all[t..] == p[k..] + rest
  {
    assert all[t..] == all[start..][k..];
  }

  lemma FirstOf<T>(all: seq<T>, t: nat, p: seq<T>, k: nat, rest: seq<T>)
    requires t <= |all| && k < |p| && all[t..] == p[k..] + rest
    ensures t < |all| && all[t] == p[k]
  {
    assert all[t] == all[t..][0];
  }

  datatype Joined<!T> = Joined(members: seq<seq<T>>, x: nat, curve: (int, T, T) -> T) {

    function N(): nat { |members| }

    function Lens(): (r: seq<int>)
      ensures |r| == N() && forall i :: 0 <= i < N() ==> r[i] == |members[i]|
    {
      seq(N(), i requires 0 <= i < N() => |members[i]|)
    }

    ghost predicate Ok() { Fits(Lens(), x) }

    function Head(i: nat): int { HeadOf(i, x) }

    function Tail(i: nat): int { TailOf(N(), i, x) }

    /** Frame k of what member i contributes: a blend in its head zone, its own audio past it. */
    ghost function PartAt(i: nat, k: int): T
      requires Ok() && i < N() && 0 <= k < |members[i]| - Tail(i)
    {
      if k < Head(i) then
        assert Lens()[i - 1] == |members[i - 1]|;
        curve(k, members[i - 1][|members[i - 1]| - x + k], members[i][k])
      else members[i][k]
    }

    /** What member i contributes: everything up to its own tail zone, which its successor's head takes. */
    ghost function Part(i: nat): (r: seq<T>)
      requires Ok() && i < N()
      ensures |r| == |members[i]| - Tail(i) && forall k :: 0 <= k < |r| ==> r[k] == PartAt(i, k)
    {
      assert Lens()[i] == |members[i]|;
      seq(|members[i]| - Tail(i), k requires 0 <= k < |members[i]| - Tail(i) => PartAt(i, k))
    }

    /** The timeline from member i's start on. */
    ghost function Rest(i: nat): seq<T>
      requires Ok() && i <= N()
      decreases N() - i
    {
      if i == N() then [] else Part(i) + Rest(i + 1)
    }

    /** What is left of the timeline at frame k of member i's part. */
    ghost function Ahead(i: nat, k: int): seq<T>
      requires Ok() && i <= N() && (i < N() ==> 0 <= k <= |members[i]| - Tail(i))
    {
      if i == N() then [] else Part(i)[k..] + Rest(i + 1)
    }

    /** The state a continuous read or a good seek leaves: the next frame is member i's k-th, and the blend, when there
        is one, is what its head zone blends with. */
    ghost predicate Stands(i: nat, k: int, isOpen: bool, blending: bool, blendOff: int, blend: seq<T>)
      requires Ok() && i <= N()
    {
      && 0 <= k && (!isOpen ==> k == 0) && (i < N() ==> k <= |members[i]| - Tail(i))
      && if blending then
           blendOff == k && 0 < i < N() && |members[i - 1]| >= x && blend == members[i - 1][|members[i - 1]| - x..]
         else i < N() ==> Head(i) <= k
    }

    lemma ZoneBegins(i: nat, blend: seq<T>)
      requires Ok() && 0 < i < N() && |members[i - 1]| >= x && blend == members[i - 1][|members[i - 1]| - x..]
      ensures Stands(i, 0, false, true, 0, blend)
    {
      assert Lens()[i] == |members[i]|;
    }

    lemma MemberBegins(i: nat)
      requires Ok() && 0 < i <= N() && Tail(i - 1) == 0
      ensures Stands(i, 0, false, false, 0, [])
    {
      assert i < N() ==> Lens()[i] == |members[i]|;
    }

    /** At the end of a member's part the timeline goes on with the next member. */
    lemma AheadSpent(i: nat, k: int)
      requires Ok() && i < N() && k == |members[i]| - Tail(i)
      ensures 0 <= k && (i + 1 < N() ==> 0 <= |members[i + 1]| - Tail(i + 1))
      ensures Ahead(i, k) == Ahead(i + 1, 0)
    {
      assert Lens()[i] == |members[i]|;
      if i + 1 < N() {
        assert Lens()[i + 1] == |members[i + 1]|;
        assert Part(i + 1)[0..] == Part(i + 1);
      }
    }

    lemma AheadSplit(i: nat, k: int, m: int, s: seq<T>)
      requires Ok() && i < N() && 0 <= k <= m <= |members[i]| - Tail(i) && s == Part(i)[k..m]
      ensures Ahead(i, k) == s + Ahead(i, m)
    {
      SplitAt(Part(i), Rest(i + 1), k, m);
    }

    /** Frames of a member past its head zone are the timeline's own. */
    lemma OwnFrames(i: nat, k: int, m: int)
      requires Ok() && i < N() && Head(i) <= k <= m <= |members[i]| - Tail(i)
      ensures Ahead(i, k) == members[i][k..m] + Ahead(i, m)
    {
      assert members[i][k..m] == Part(i)[k..m];
      AheadSplit(i, k, m, members[i][k..m]);
    }

    /** And a zone's are the blend of its two halves. */
    lemma ZoneFrames(i: nat, k: int, m: int, tail: seq<T>, mixed: seq<T>)
      requires Ok() && 0 < i < N() && 0 <= k <= m <= x && |tail| == x <= |members[i - 1]|
      requires tail == members[i - 1][|members[i - 1]| - x..] && |mixed| == m - k
      requires m <= |members[i]| - Tail(i)
      requires forall j :: 0 <= j < m - k ==> mixed[j] == curve(k + j, tail[k + j], members[i][k + j])
      ensures Ahead(i, k) == mixed + Ahead(i, m)
    {
      forall j | 0 <= j < m - k
        ensures mixed[j] == Part(i)[k + j]
      {
        assert tail[k + j] == members[i - 1][|members[i - 1]| - x + (k + j)];
      }
      AheadSplit(i, k, m, mixed);
    }

    lemma {:induction false} RestLength(i: nat)
      requires Ok() && i <= N()
      ensures |Rest(i)| == Starts(Lens(), x, N()) - Starts(Lens(), x, i)
      decreases N() - i
    {
      if i < N() {
        RestLength(i + 1);
        PartLength(i);
      }
    }

    lemma PartLength(i: nat)
      requires Ok() && i < N()
      ensures |Part(i)| == Starts(Lens(), x, i + 1) - Starts(Lens(), x, i)
    {
      assert Lens()[i] == |members[i]|;
    }

    /** The timeline from any position of a member's own part on. */
    lemma RestFrom(i: nat, k: int, t: int)
      requires Ok() && i < N() && 0 <= k <= |members[i]| - Tail(i) && t == Starts(Lens(), x, i) + k
      ensures 0 <= t <= |Rest(0)| && Rest(0)[t..] == Part(i)[k..] + Rest(i + 1)
    {
      RestPastStart(0, i, Starts(Lens(), x, i));
      FromPart(Rest(0), Starts(Lens(), x, i), Part(i), Rest(i + 1), k, t);
    }

    lemma {:induction false} RestPastStart(i: nat, j: nat, d: int)
      requires Ok() && i <= j <= N() && d == Starts(Lens(), x, j) - Starts(Lens(), x, i)
      ensures 0 <= d <= |Rest(i)| && Rest(i)[d..] == Rest(j)
      decreases j - i
    {
      if i < j {
        var next, rest := i + 1, d - |Part(i)|;
        PartLength(i);
        RestPastStart(next, j, rest);
        PastPart(Part(i), Rest(next), d, rest);
      } else {
        assert Rest(i)[0..] == Rest(j);
      }
    }

    /** The timeline is as long as its members less one zone a seam. */
    lemma TimelineLength()
      requires Ok()
      ensures |Rest(0)| == Total(Lens()) - Max(N() - 1, 0) * x
    {
      assert Lens()[..N()] == Lens();
      StartsTotal(Lens(), x, N());
      RestLength(0);
    }

    /** Each output frame is one member's own sample or, in a zone, the blend of two members' samples k frames into
        it. */
    lemma Refines(i: nat, t: int)
      requires Ok() && i < N() && Starts(Lens(), x, i) <= t < Starts(Lens(), x, i + 1)
      ensures 0 <= t < |Rest(0)|
      ensures var k := t - Starts(Lens(), x, i);
        && 0 <= k < |members[i]| - Tail(i)
        && Rest(0)[t] == if k < Head(i) then curve(k, members[i - 1][|members[i - 1]| - x + k], members[i][k])
            else members[i][k]
    {
      var k := t - Starts(Lens(), x, i);
      PartLength(i);
      RestFrom(i, k, t);
      FirstOf(Rest(0), t, Part(i), k, Rest(i + 1));
      assert Part(i)[k] == PartAt(i, k);
      if k < Head(i) {
        assert Lens()[i - 1] == |members[i - 1]|;
      }
    }
  }
}
