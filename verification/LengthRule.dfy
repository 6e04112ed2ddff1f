/** One length rule (container/settle.go): what a decode of a track delivers and what a packet copy settles its length
    to. */
module LengthRule {
  import opened Container
  import opened CutWalk
  import opened Listening
  import opened Media
  import opened Remux

  /** How many frames a media hands on of a decoded run. */
  function MediaLength(t: Track, decoded: nat): int {
    Max((if RawEndFor(t) < 0 then decoded else Min(decoded, RawEndFor(t))) - t.delay, 0)
  }

  lemma MediaDelivers<T>(source: Program<T>, t: Track)
    requires t.delay >= 0
    ensures |source.Delivered(t.delay, RawEndFor(t))| == MediaLength(t, |source.From(0)|)
  {
  }

  /** Every packet decodes to its stated length, and the decoder holds nothing back. */
  ghost predicate Faithful<T>(source: Program<T>) {
    source.flush == [] && forall p :: p in source.pkts ==> |source.sound(p.data)| == p.dur
  }

  /** A decode, holes filled and trims dropped, is as long as the packets play. */
  lemma {:induction false} DecodesPlaying<T>(source: Program<T>, k: nat)
    requires Faithful(source) && k <= |source.pkts|
    ensures |source.From(k)| == Playing(source.track, source.pkts[k..])
    decreases |source.pkts| - k
  {
    if k < |source.pkts| {
      var p := source.pkts[k];
      assert p in source.pkts && source.pkts[k..][1..] == source.pkts[k + 1..];
      DecodesPlaying(source, k + 1);
    }
  }

  /** Where the two agree. A length nothing states, or only advises: the stated padding is the final packet's own trim.
      A capped one: that trim is not part of what the length counts. A bare count: there is no such trim. */
  predicate TrimAgrees(t: Track, decoded: nat, fin: nat) {
    if t.samples < 0 || t.samplesAdvisory then fin == t.padding || decoded + Max(fin - t.padding, 0) <= t.delay
    else if t.samplesExact || t.delay > 0 || t.padding > 0 then fin == 0 || t.samples <= Max(decoded - t.delay, 0) ||
        decoded + fin <= t.delay
    else fin == 0
  }

  /** The length a run settles to is the one a media delivers from the same run, exactly where the final trim agrees. */
  lemma SettleIsDelivery(t: Track, decoded: nat, fin: nat)
    requires t.delay >= 0 && t.padding >= 0
    ensures MediaLength(t, decoded) == SettleLength(t, decoded + fin).samples <==> TrimAgrees(t, decoded, fin)
  {
  }

  lemma {:induction false} FinalPadCounts<T>(source: Program<T>, pkts: seq<Packet>, prev: nat)
    requires Faithful(source) && forall p :: p in pkts ==> p in source.pkts
    ensures FinalPad(source.track, pkts, prev) >= 0
    decreases |pkts|
  {
    if |pkts| > 0 {
      assert pkts[0] in source.pkts;
      FinalPadCounts(source, pkts[1..], if pkts[0].track == source.track then ClampedPad(pkts[0]) else prev);
    }
  }

  /** One length rule: over any packets - holes, trims, other tracks' among them - the length a copy settles from what
      it counted is the number of frames a media delivers from decoding them, exactly where the final trim agrees. */
  lemma CopyIsDelivery<T>(source: Program<T>, t: Track, r: Rules)
    requires Faithful(source) && Fillable(source.pkts) && r.track == source.track && t.delay >= 0 && t.padding >= 0
    requires CopyFrom(r, Fresh, source.pkts, Eof).Copied?
    ensures FinalPad(source.track, source.pkts, 0) >= 0
    ensures var run := CopyFrom(r, Fresh, source.pkts, Eof).run;
      |source.Delivered(t.delay, RawEndFor(t))| == SettleLength(t, run.samples).samples
      <==> TrimAgrees(t, |source.From(0)|, FinalPad(source.track, source.pkts, 0))
  {
    CopyKeepsTimeline(r, Fresh, source.pkts, Eof);
    FinalPadCounts(source, source.pkts, 0);
    DecodesPlaying(source, 0);
    assert source.pkts[0..] == source.pkts;
    MediaDelivers(source, t);
    var decoded, fin := |source.From(0)|, FinalPad(source.track, source.pkts, 0);
    assert CopyFrom(r, Fresh, source.pkts, Eof).run.samples == decoded + fin;
    SettleIsDelivery(t, decoded, fin);
  }

  // ----- What a copy decodes to -----

  /** What a run of packets decodes to. */
  function FramesOfAll<T>(source: Program<T>, pkts: seq<Packet>): seq<seq<T>> {
    if |pkts| == 0 then [] else source.FramesOf(pkts[0]) + FramesOfAll(source, pkts[1..])
  }

  lemma {:induction false} FramesAppend<T>(source: Program<T>, a: seq<Packet>, b: seq<Packet>)
    ensures FramesOfAll(source, a + b) == FramesOfAll(source, a) + FramesOfAll(source, b)
    decreases |a|
  {
    if |a| == 0 {
      assert a + b == b;
    } else {
      assert (a + b)[1..] == a[1..] + b && (a + b)[0] == a[0];
      FramesAppend(source, a[1..], b);
    }
  }

  lemma {:induction false} FromIsAll<T>(source: Program<T>, like: Program<T>, k: nat)
    requires k <= |source.pkts| && source == like.(pkts := source.pkts)
    ensures source.From(k) == FramesOfAll(like, source.pkts[k..]) + like.flush
    decreases |source.pkts| - k
  {
    if k < |source.pkts| {
      assert source.pkts[k..][1..] == source.pkts[k + 1..];
      FromIsAll(source, like, k + 1);
      assert source.FramesOf(source.pkts[k]) == like.FramesOf(source.pkts[k]);
    }
  }

  /** A silent frame decodes to silence. */
  ghost predicate Hushes<T>(source: Program<T>) {
    forall n: nat :: n > 0 ==> source.sound(Hushed(n)) == source.Silence(n)
  }

  lemma SilenceAdds<T>(source: Program<T>, n: nat, rest: nat, all: nat)
    requires all == n + rest
    ensures source.Silence(n) + source.Silence(rest) == source.Silence(all)
  {
  }

  lemma {:induction false} SilenceDecodes<T>(source: Program<T>, at: int, left: nat, block: int)
    requires Hushes(source) && block > 0
    ensures FramesOfAll(source, SilentFrames(source.track, at, left, block)) == source.Silence(left)
    decreases left
  {
    if left > 0 {
      var n: nat := Min(Min(left, block), MAX_BLOCK);
      var on, less := at + n, left - n;
      var frame, rest := Packet(source.track, 0, 0, n, at, Hushed(n)), SilentFrames(source.track, on, less, block);
      SilenceDecodes(source, on, less, block);
      assert SilentFrames(source.track, at, left, block) == [frame] + rest;
      assert ([frame] + rest)[1..] == rest;
      assert source.Silence(0) == [] && source.Trimmed(frame) == source.Silence(n);
      SilenceAdds(source, n, less, left);
    }
  }

  /** A copy decodes to what its source does, frame for frame: the silence it writes stands where the holes were. */
  lemma CopyDecodesAlike<T>(source: Program<T>, r: Rules)
    requires Hushes(source) && Fillable(source.pkts) && r.track == source.track
    requires CopyFrom(r, Fresh, source.pkts, Eof).Copied?
    ensures source.(pkts := CopyFrom(r, Fresh, source.pkts, Eof).out).From(0) == source.From(0)
  {
    var copy := source.(pkts := CopyFrom(r, Fresh, source.pkts, Eof).out);
    CopiedFrames(source, r, Fresh, source.pkts);
    FromIsAll(source, source, 0);
    FromIsAll(copy, source, 0);
    assert source.pkts[0..] == source.pkts && copy.pkts[0..] == copy.pkts;
  }

  lemma {:induction false} CopiedFrames<T>(source: Program<T>, r: Rules, c: Copy, pkts: seq<Packet>)
    requires Hushes(source) && Fillable(pkts) && r.track == source.track && CopyFrom(r, c, pkts, Eof).Copied?
    ensures FramesOfAll(source, CopyFrom(r, c, pkts, Eof).out)
         == FramesOfAll(source, c.out) + FramesOfAll(source, pkts)
    decreases |pkts|
  {
    if |pkts| > 0 {
      var pkt, rest := pkts[0], pkts[1..];
      if pkt.track != r.track {
        CopiedFrames(source, r, c, rest);
      } else {
        CopiedFrames(source, r, Written(Filled(c, pkt), pkt), rest);
        OneDecoded(source, c, pkt);
        Assoc(FramesOfAll(source, c.out), source.FramesOf(pkt), FramesOfAll(source, rest));
      }
    }
  }

  lemma OneDecoded<T>(source: Program<T>, c: Copy, pkt: Packet)
    requires Hushes(source) && pkt.track == source.track && (pkt.lost > 0 ==> pkt.dur > 0)
    ensures FramesOfAll(source, Written(Filled(c, pkt), pkt).out) == FramesOfAll(source, c.out) + source.FramesOf(pkt)
  {
    var filled, bare := Filled(c, pkt), pkt.(lost := 0);
    FillDecoded(source, c, pkt);
    FramesAppend(source, filled.out, [bare]);
    BareDecoded(source, bare, pkt);
    Assoc(FramesOfAll(source, c.out), source.Silence(pkt.lost), source.Trimmed(pkt));
  }

  lemma Assoc<T>(a: seq<T>, b: seq<T>, c: seq<T>)
    ensures (a + b) + c == a + (b + c)
  {
  }

  lemma FillDecoded<T>(source: Program<T>, c: Copy, pkt: Packet)
    requires Hushes(source) && pkt.track == source.track && (pkt.lost > 0 ==> pkt.dur > 0)
    ensures FramesOfAll(source, Filled(c, pkt).out) == FramesOfAll(source, c.out) + source.Silence(pkt.lost)
  {
    if pkt.lost > 0 {
      var at, block := pkt.pts - pkt.lost, BlockOf(c.lastDur, pkt);
      SilenceDecodes(source, at, pkt.lost, block);
      FramesAppend(source, c.out, SilentFrames(source.track, at, pkt.lost, block));
    } else {
      assert source.Silence(pkt.lost) == [];
    }
  }

  lemma BareDecoded<T>(source: Program<T>, bare: Packet, pkt: Packet)
    requires bare == pkt.(lost := 0) && pkt.track == source.track
    ensures FramesOfAll(source, [bare]) == source.Trimmed(pkt)
  {
    assert [bare][1..] == [] && source.Silence(0) == [];
  }

  /** One packet of four frames, the last of which it trims. */
  const OneTrimmed: Program<int> := Program(0, [Packet(0, 1, 0, 4, 0, 0)], {}, 1, x => [[1], [2], [3], [4]], [], 0)

  lemma OneTrimmedDecodes()
    ensures |OneTrimmed.From(0)| == 3 && FinalPad(0, OneTrimmed.pkts, 0) == 1
  {
    var p := OneTrimmed.pkts[0];
    assert OneTrimmed.From(1) == [] && |OneTrimmed.FramesOf(p)| == 3;
    assert OneTrimmed.From(0) == OneTrimmed.FramesOf(p) + OneTrimmed.From(1);
    assert OneTrimmed.pkts[1..] == [];
  }

  lemma OneTrimmedCopies(r: Rules)
    requires r == Rules(0, true, false)
    ensures CopyFrom(r, Fresh, OneTrimmed.pkts, Eof).Copied? && Faithful(OneTrimmed) && Fillable(OneTrimmed.pkts)
  {
    assert OneTrimmed.pkts[1..] == [];
  }

  /** The rules part where a header and the last packet disagree: of an unknown length, when the header pads two frames
      and the packet trims one; of an exact one, when it declares more than there is; of a bare count, when the packet
      trims at all. */
  lemma LengthsPart(t: Track)
    requires t.delay == 0 &&
        ((t.samples < 0 && t.padding == 2) ||
        (t.samples == 10 && t.padding == 0 && t.samplesExact && !t.samplesAdvisory) ||
        (t.samples >= 0 && t.padding == 0 && !t.samplesExact && !t.samplesAdvisory))
    ensures var run := CopyFrom(Rules(0, true, false), Fresh, OneTrimmed.pkts, Eof);
      run.Copied? && |OneTrimmed.Delivered(0, RawEndFor(t))| != SettleLength(t, run.run.samples).samples
  {
    OneTrimmedCopies(Rules(0, true, false));
    OneTrimmedDecodes();
    CopyIsDelivery(OneTrimmed, t, Rules(0, true, false));
  }
}
