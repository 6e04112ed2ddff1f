/** Planar sample buffers (audio/buffer.go): one flat array, each channel a region of it. */
module Buffer {

  /** The pipeline's standard chunk, in frames. */
  const STANDARD_CHUNK: nat := 4096

  /** Where frame k of channel c lies. */
  function Index(stride: nat, c: nat, k: nat): nat { c * stride + k }

  /** Two channels never share a place. */
  lemma ChannelsApart(stride: nat, c: nat, k: nat, d: nat, j: nat)
    requires c < d && k < stride
    ensures Index(stride, c, k) < Index(stride, d, j)
  {
    assert c * stride + stride == (c + 1) * stride <= d * stride;
  }

  /** The places of `channels` regions of `stride` frames. */
  predicate Planar(size: nat, channels: nat, stride: nat)
    decreases channels
  {
    if channels == 0 then size == 0 else size >= stride && Planar(size - stride, channels - 1, stride)
  }

  lemma {:induction false} PlanarIs(size: nat, channels: nat, stride: nat)
    ensures Planar(size, channels, stride) <==> size == channels * stride
    decreases channels
  {
    if channels > 0 {
      assert channels * stride == (channels - 1) * stride + stride;
      assert (channels - 1) * stride >= 0;
      if size >= stride {
        PlanarIs(size - stride, channels - 1, stride);
      }
    }
  }

  lemma IndexInside(size: nat, channels: nat, stride: nat, c: nat, k: nat)
    requires Planar(size, channels, stride) && c < channels && k < stride
    ensures Index(stride, c, k) < size
  {
    PlanarIs(size, channels, stride);
    assert c * stride + stride == (c + 1) * stride <= channels * stride;
  }

  ghost function Sample<T>(data: seq<T>, channels: nat, stride: nat, c: nat, k: nat): T
    requires Planar(|data|, channels, stride) && c < channels && k < stride
  {
    IndexInside(|data|, channels, stride, c, k);
    data[Index(stride, c, k)]
  }

  /** Frame k of a planar array: one sample a channel. */
  ghost function FrameOf<T>(data: seq<T>, channels: nat, stride: nat, k: nat): (f: seq<T>)
    requires Planar(|data|, channels, stride) && k < stride
    ensures |f| == channels
    ensures forall c :: 0 <= c < channels ==> f[c] == Sample(data, channels, stride, c, k)
  {
    seq(channels, c requires 0 <= c < channels => Sample(data, channels, stride, c, k))
  }

  /** d with its n samples from `at` on replaced by s's from `from` on. */
  ghost predicate Copied<T>(after: seq<T>, s: seq<T>, d: seq<T>, at: nat, from: nat, n: nat) {
    && |after| == |d| && at + n <= |d| && from + n <= |s|
    && forall j :: 0 <= j < |after| ==> after[j] == if at <= j < at + n then s[from + (j - at)] else d[j]
  }

  /** Go's copy: n samples, whether the regions overlap or not. */
  method Copy<T>(dst: array<T>, dstAt: nat, src: array<T>, srcAt: nat, n: nat)
    requires dstAt + n <= dst.Length && srcAt + n <= src.Length
    modifies dst
    ensures Copied(dst[..], old(src[..]), old(dst[..]), dstAt, srcAt, n)
  {
    ghost var s, d := src[..], dst[..];
    if dst == src && srcAt < dstAt {
      var i := n;
      while i > 0
        invariant 0 <= i <= n
        invariant forall j :: 0 <= j < dst.Length ==>
          dst[j] == if dstAt + i <= j < dstAt + n then s[srcAt + (j - dstAt)] else d[j]
      {
        i := i - 1;
        dst[dstAt + i] := src[srcAt + i];
      }
    } else {
      var i := 0;
      while i < n
        invariant 0 <= i <= n && (dst != src ==> src[..] == s)
        invariant forall j :: 0 <= j < dst.Length ==>
          dst[j] == if dstAt <= j < dstAt + i then s[srcAt + (j - dstAt)] else d[j]
      {
        dst[dstAt + i] := src[srcAt + i];
        i := i + 1;
      }
    }
  }

  class Buffer<T(0)> {
    const channels: nat
    /** The frames each channel's region holds. */
    const stride: nat
    const data: array<T>
    /** The frames that are meaningful. */
    var n: nat
    var pos: int
    var discont: bool

    ghost predicate Valid()
      reads this
    {
      Planar(data.Length, channels, stride) && n <= stride
    }

    ghost function Frame(k: nat): (f: seq<T>)
      requires Planar(data.Length, channels, stride) && k < stride
      reads data
    {
      FrameOf(data[..], channels, stride, k)
    }

    ghost function Frames(lo: nat, hi: nat): (r: seq<seq<T>>)
      requires Planar(data.Length, channels, stride) && lo <= hi <= stride
      reads data
      ensures |r| == hi - lo
      decreases hi
    {
      if lo == hi then [] else Frames(lo, hi - 1) + [Frame(hi - 1)]
    }

    lemma {:induction false} FrameAt(lo: nat, hi: nat, k: nat)
      requires Planar(data.Length, channels, stride) && lo <= k < hi <= stride
      ensures Frames(lo, hi)[k - lo] == Frame(k)
      decreases hi
    {
      if k < hi - 1 {
        FrameAt(lo, hi - 1, k);
      }
    }

    /** A stretch of a stretch of frames. */
    lemma Stretch(lo: nat, hi: nat, a: nat, b: nat)
      requires Planar(data.Length, channels, stride) && lo <= a <= b <= hi <= stride
      ensures Frames(lo, hi)[a - lo..b - lo] == Frames(a, b)
    {
      var part, own := Frames(lo, hi)[a - lo..b - lo], Frames(a, b);
      forall i | 0 <= i < |own|
        ensures part[i] == own[i]
      {
        FrameAt(lo, hi, a + i);
        FrameAt(a, b, a + i);
      }
    }

    lemma {:induction false} Adjoin(lo: nat, mid: nat, hi: nat)
      requires Planar(data.Length, channels, stride) && lo <= mid <= hi <= stride
      ensures Frames(lo, hi) == Frames(lo, mid) + Frames(mid, hi)
      decreases hi
    {
      if mid < hi {
        Adjoin(lo, mid, hi - 1);
      }
    }

    lemma FramesAre(lo: nat, hi: nat, frames: seq<seq<T>>)
      requires Planar(data.Length, channels, stride) && lo <= hi <= stride && |frames| == hi - lo
      requires forall i :: 0 <= i < |frames| ==> Frame(lo + i) == frames[i]
      ensures Frames(lo, hi) == frames
    {
      var own := Frames(lo, hi);
      forall i | 0 <= i < |own|
        ensures own[i] == frames[i]
      {
        FrameAt(lo, hi, lo + i);
      }
    }

    /** Each frame of a stretch. */
    lemma EachFrame(lo: nat, hi: nat, frames: seq<seq<T>>)
      requires Planar(data.Length, channels, stride) && lo <= hi <= stride && frames == Frames(lo, hi)
      ensures forall i :: 0 <= i < |frames| ==> Frame(lo + i) == frames[i]
    {
      forall i | 0 <= i < |frames|
        ensures Frame(lo + i) == frames[i]
      {
        FrameAt(lo, hi, lo + i);
      }
    }

    ghost function Contents(): seq<seq<T>>
      requires Valid()
      reads this, data
    {
      Frames(0, n)
    }

    constructor (channels: nat, frames: nat)
      ensures Valid() && fresh(data) && this.channels == channels && stride == frames && n == 0
    {
      this.channels, stride := channels, frames;
      PlanarIs(channels * frames, channels, frames);
      data := new T[channels * frames];
      n, pos, discont := 0, 0, false;
    }
  }

  /** CopyFrames: n frames, channel by channel; the two buffers may be one and the ranges may overlap. */
  method CopyFrames<T(0)>(dst: Buffer<T>, dstOff: nat, src: Buffer<T>, srcOff: nat, n: nat)
    requires dst.Valid() && src.Valid() && dst.channels == src.channels && (dst == src || dst.data != src.data)
    requires dstOff + n <= dst.stride && srcOff + n <= src.stride
    modifies dst.data
    ensures forall k :: 0 <= k < dst.stride ==>
      dst.Frame(k) == if dstOff <= k < dstOff + n then old(src.Frame(srcOff + (k - dstOff))) else old(dst.Frame(k))
  {
    ghost var s, d := src.data[..], dst.data[..];
    var c := 0;
    while c < dst.channels
      invariant 0 <= c <= dst.channels
      invariant dst != src ==> src.data[..] == s
      invariant forall ch, k :: 0 <= ch < dst.channels && 0 <= k < dst.stride ==>
        Sample(dst.data[..], dst.channels, dst.stride, ch, k) ==
          if ch < c && dstOff <= k < dstOff + n then Sample(s, src.channels, src.stride, ch, srcOff + (k - dstOff))
          else Sample(d, dst.channels, dst.stride, ch, k)
    {
      CopyChannel(dst, dstOff, src, srcOff, n, c);
      c := c + 1;
    }
    forall k | 0 <= k < dst.stride
      ensures dst.Frame(k) == if dstOff <= k < dstOff + n then old(src.Frame(srcOff + (k - dstOff)))
          else old(dst.Frame(k))
    {
      var was := if dstOff <= k < dstOff + n then FrameOf(s, src.channels, src.stride, srcOff + (k - dstOff))
                 else FrameOf(d, dst.channels, dst.stride, k);
      forall ch | 0 <= ch < dst.channels
        ensures dst.Frame(k)[ch] == was[ch]
      {
        assert dst.Frame(k)[ch] == Sample(dst.data[..], dst.channels, dst.stride, ch, k);
      }
      assert dst.Frame(k) == was;
    }
  }

  /** What an array holds once n of a channel's frames, from `at` on, are s's from `from` on. */
  ghost predicate ChannelCopied<T>(after: seq<T>, s: seq<T>, d: seq<T>, channels: nat, stride: nat, sStride: nat,
      c: nat, at: nat, from: nat, n: nat)
    requires Planar(|after|, channels, stride) && Planar(|d|, channels, stride) && Planar(|s|, channels, sStride)
    requires at + n <= stride && from + n <= sStride
  {
    forall ch, k :: 0 <= ch < channels && 0 <= k < stride ==>
      Sample(after, channels, stride, ch, k) ==
        if ch == c && at <= k < at + n then Sample(s, channels, sStride, ch, from + (k - at))
            else Sample(d, channels, stride, ch, k)
  }

  /** One channel's frames; every other channel, and the rest of this one, stay as they are. */
  method CopyChannel<T(0)>(dst: Buffer<T>, dstOff: nat, src: Buffer<T>, srcOff: nat, n: nat, c: nat)
    requires dst.Valid() && src.Valid() && dst.channels == src.channels && (dst == src || dst.data != src.data)
    requires dstOff + n <= dst.stride && srcOff + n <= src.stride && c < dst.channels
    modifies dst.data
    ensures ChannelCopied(dst.data[..], old(src.data[..]), old(dst.data[..]), dst.channels, dst.stride, src.stride, c,
        dstOff, srcOff, n)
  {
    if n > 0 {
      ghost var s, d := src.data[..], dst.data[..];
      var a, b := Index(dst.stride, c, dstOff), Index(src.stride, c, srcOff);
      RegionInside(dst.data.Length, dst.channels, dst.stride, c, dstOff, n, a);
      RegionInside(src.data.Length, src.channels, src.stride, c, srcOff, n, b);
      Copy(dst.data, a, src.data, b, n);
      RegionCopied(dst.data[..], s, d, dst.channels, dst.stride, src.stride, c, dstOff, srcOff, n, a, b);
    }
  }

  lemma RegionInside(size: nat, channels: nat, stride: nat, c: nat, at: nat, n: nat, a: nat)
    requires Planar(size, channels, stride) && c < channels && n > 0 && at + n <= stride && a == Index(stride, c, at)
    ensures a + n <= size
  {
    IndexInside(size, channels, stride, c, at + n - 1);
  }

  lemma RegionCopied<T>(after: seq<T>, s: seq<T>, d: seq<T>, channels: nat, stride: nat, sStride: nat, c: nat, at: nat,
      from: nat, n: nat, a: nat, b: nat)
    requires Planar(|after|, channels, stride) && Planar(|d|, channels, stride) && Planar(|s|, channels, sStride)
    requires c < channels && n > 0 && at + n <= stride && from + n <= sStride
    requires a == Index(stride, c, at) && b == Index(sStride, c, from) && Copied(after, s, d, a, b, n)
    ensures ChannelCopied(after, s, d, channels, stride, sStride, c, at, from, n)
  {
    forall ch, k | 0 <= ch < channels && 0 <= k < stride
      ensures Sample(after, channels, stride, ch, k) ==
        if ch == c && at <= k < at + n then Sample(s, channels, sStride, ch, from + (k - at))
            else Sample(d, channels, stride, ch, k)
    {
      OneSample(after, s, d, channels, stride, sStride, c, at, from, n, ch, k);
    }
  }

  lemma OneSample<T>(after: seq<T>, s: seq<T>, d: seq<T>, channels: nat, stride: nat, sStride: nat, c: nat, at: nat,
      from: nat, n: nat, ch: nat, k: nat)
    requires Planar(|after|, channels, stride) && Planar(|d|, channels, stride) && Planar(|s|, channels, sStride)
    requires c < channels && ch < channels && k < stride && n > 0 && at + n <= stride && from + n <= sStride
    requires Index(sStride, c, from) + n <= |s| && |d| == |after|
    requires forall j :: 0 <= j < |after| ==>
      after[j] ==
        if Index(stride, c, at) <= j < Index(stride, c, at) + n then
          s[Index(sStride, c, from) + (j - Index(stride, c, at))]
        else d[j]
    ensures Sample(after, channels, stride, ch, k) ==
      if ch == c && at <= k < at + n then Sample(s, channels, sStride, ch, from + (k - at))
          else Sample(d, channels, stride, ch, k)
  {
    IndexInside(|after|, channels, stride, ch, k);
    OnlyRegion(stride, c, at, n, ch, k);
    if ch == c && at <= k < at + n {
      IndexInside(|s|, channels, sStride, ch, from + (k - at));
    }
  }

  /** The places a channel's frames are copied to are that channel's, and those frames'. */
  lemma OnlyRegion(stride: nat, c: nat, at: nat, n: nat, ch: nat, k: nat)
    requires n > 0 && at + n <= stride && k < stride
    ensures Index(stride, c, at) <= Index(stride, ch, k) < Index(stride, c, at) + n <==> ch == c && at <= k < at + n
  {
    if ch < c {
      ChannelsApart(stride, ch, k, c, at);
    } else if ch > c {
      ChannelsApart(stride, c, at + n - 1, ch, k);
    }
  }

  /** Writes frames, one sample a channel each. */
  method SetFrames<T(0)>(dst: Buffer<T>, at: nat, frames: seq<seq<T>>)
    requires dst.Valid() && at + |frames| <= dst.stride && forall k :: 0 <= k < |frames| ==> |frames[k]| == dst.channels
    modifies dst.data
    ensures forall k :: 0 <= k < dst.stride ==>
      dst.Frame(k) == if at <= k < at + |frames| then frames[k - at] else old(dst.Frame(k))
  {
    ghost var was := dst.data[..];
    for i := 0 to |frames|
      invariant forall k :: 0 <= k < dst.stride ==>
        dst.Frame(k) == if at <= k < at + i then frames[k - at] else FrameOf(was, dst.channels, dst.stride, k)
    {
      SetFrame(dst, at + i, frames[i]);
    }
  }

  method SetFrame<T(0)>(dst: Buffer<T>, at: nat, frame: seq<T>)
    requires dst.Valid() && at < dst.stride && |frame| == dst.channels
    modifies dst.data
    ensures forall k :: 0 <= k < dst.stride ==> dst.Frame(k) == if k == at then frame else old(dst.Frame(k))
  {
    ghost var was := dst.data[..];
    for c := 0 to dst.channels
      invariant FrameSet(dst.data[..], was, dst.channels, dst.stride, at, frame, c)
    {
      var a := Index(dst.stride, c, at);
      RegionInside(dst.data.Length, dst.channels, dst.stride, c, at, 1, a);
      ghost var before := dst.data[..];
      dst.data[a] := frame[c];
      OneSet(dst.data[..], before, was, dst.channels, dst.stride, at, frame, c, a);
    }
    forall k | 0 <= k < dst.stride
      ensures dst.Frame(k) == if k == at then frame else FrameOf(was, dst.channels, dst.stride, k)
    {
      FramesEqual(dst.data[..], was, dst.channels, dst.stride, at, frame, k);
    }
  }

  /** Frame `at` holds the first c samples of a frame; everything else is as it was. */
  ghost predicate FrameSet<T>(data: seq<T>, was: seq<T>, channels: nat, stride: nat, at: nat, frame: seq<T>, c: nat) {
    && Planar(|data|, channels, stride) && |was| == |data| && |frame| == channels
    && forall ch, k :: 0 <= ch < channels && 0 <= k < stride ==>
      Sample(data, channels, stride, ch, k) == if ch < c && k == at then frame[ch]
          else Sample(was, channels, stride, ch, k)
  }

  lemma OneSet<T>(after: seq<T>, before: seq<T>, was: seq<T>, channels: nat, stride: nat, at: nat, frame: seq<T>,
      c: nat, a: nat)
    requires c < channels && at < stride && FrameSet(before, was, channels, stride, at, frame, c)
    requires a == Index(stride, c, at) < |before| && after == before[a := frame[c]]
    ensures FrameSet(after, was, channels, stride, at, frame, c + 1)
  {
    forall ch, k | 0 <= ch < channels && 0 <= k < stride
      ensures Sample(after, channels, stride, ch, k) == if ch < c + 1 && k == at then frame[ch]
          else Sample(was, channels, stride, ch, k)
    {
      PlaceSet(after, before, channels, stride, at, frame[c], c, a, ch, k);
    }
  }

  lemma PlaceSet<T>(after: seq<T>, before: seq<T>, channels: nat, stride: nat, at: nat, x: T, c: nat, a: nat, ch: nat,
      k: nat)
    requires Planar(|before|, channels, stride) && c < channels && ch < channels && at < stride && k < stride
    requires a == Index(stride, c, at) < |before| && after == before[a := x]
    ensures Sample(after, channels, stride, ch, k) == if ch == c && k == at then x
        else Sample(before, channels, stride, ch, k)
  {
    var j := PlaceOf(|before|, channels, stride, ch, k);
    SamePlace(stride, c, at, ch, k, a, j);
    assert after[j] == if j == a then x else before[j];
  }

  lemma PlaceOf(size: nat, channels: nat, stride: nat, ch: nat, k: nat) returns (j: nat)
    requires Planar(size, channels, stride) && ch < channels && k < stride
    ensures j == Index(stride, ch, k) < size
  {
    j := Index(stride, ch, k);
    IndexInside(size, channels, stride, ch, k);
  }

  lemma SamePlace(stride: nat, c: nat, at: nat, ch: nat, k: nat, a: nat, j: nat)
    requires at < stride && k < stride && a == Index(stride, c, at) && j == Index(stride, ch, k)
    ensures j == a <==> ch == c && k == at
  {
    OnlyRegion(stride, c, at, 1, ch, k);
  }

  lemma FramesEqual<T>(data: seq<T>, was: seq<T>, channels: nat, stride: nat, at: nat, frame: seq<T>, k: nat)
    requires FrameSet(data, was, channels, stride, at, frame, channels) && k < stride
    ensures FrameOf(data, channels, stride, k) == if k == at then frame else FrameOf(was, channels, stride, k)
  {
    var now, want := FrameOf(data, channels, stride, k), if k == at then frame else FrameOf(was, channels, stride, k);
    forall ch | 0 <= ch < channels
      ensures now[ch] == want[ch]
    {
      assert now[ch] == Sample(data, channels, stride, ch, k);
    }
  }

  // ----- Whole runs of frames -----

  /** Appends frames [from, end) of src to dst. */
  method AppendFrom<T(0)>(dst: Buffer<T>, src: Buffer<T>, from: nat, end: nat)
    requires dst.Valid() && src.Valid() && dst.channels == src.channels && dst != src && dst.data != src.data
    requires from <= end <= src.stride && dst.n + (end - from) <= dst.stride
    modifies dst`n, dst.data
    ensures dst.Valid() && dst.n == old(dst.n) + (end - from)
    ensures dst.Contents() == old(dst.Contents()) + old(src.Frames(from, end))
  {
    ghost var was, more := dst.Contents(), src.Frames(from, end);
    dst.EachFrame(0, dst.n, was);
    src.EachFrame(from, end, more);
    CopyFrames(dst, dst.n, src, from, end - from);
    dst.n := dst.n + (end - from);
    ghost var now := was + more;
    assert forall i :: 0 <= i < |now| ==> dst.Frame(0 + i) == now[i];
    dst.FramesAre(0, dst.n, now);
  }

  /** Appends frames that lie in no buffer of the caller's. */
  method Append<T(0)>(dst: Buffer<T>, frames: seq<seq<T>>)
    requires dst.Valid() && dst.n + |frames| <= dst.stride && forall k :: 0 <= k < |frames| ==>
        |frames[k]| == dst.channels
    modifies dst`n, dst.data
    ensures dst.Valid() && dst.n == old(dst.n) + |frames| && dst.Contents() == old(dst.Contents()) + frames
  {
    ghost var was, before := dst.Contents(), dst.n;
    dst.EachFrame(0, dst.n, was);
    SetFrames(dst, dst.n, frames);
    dst.n := dst.n + |frames|;
    ghost var now := was + frames;
    assert forall i :: 0 <= i < |now| ==> dst.Frame(0 + i) == now[i];
    dst.FramesAre(0, dst.n, now);
  }

  /** Moves the frames from `off` on to the front: an overlapping copy within one buffer. */
  method ShiftDown<T(0)>(b: Buffer<T>, off: nat)
    requires b.Valid() && off <= b.n
    modifies b`n, b.data
    ensures b.Valid() && b.n == old(b.n) - off && b.Contents() == old(b.Frames(off, b.n))
  {
    ghost var was := b.Frames(off, b.n);
    b.EachFrame(off, b.n, was);
    MoveDown(b, off, was);
    b.n := b.n - off;
    b.FramesAre(0, b.n, was);
  }

  method MoveDown<T(0)>(b: Buffer<T>, off: nat, ghost was: seq<seq<T>>)
    requires b.Valid() && off <= b.n && |was| == b.n - off && forall i :: 0 <= i < |was| ==> b.Frame(off + i) == was[i]
    modifies b.data
    ensures b.Valid() && forall i :: 0 <= i < |was| ==> b.Frame(0 + i) == was[i]
  {
    CopyFrames(b, 0, b, off, b.n - off);
    forall i | 0 <= i < |was|
      ensures b.Frame(0 + i) == was[i]
    {
      assert b.Frame(i) == old(b.Frame(off + (i - 0)));
    }
  }
}
