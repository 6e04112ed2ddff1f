/** Tracks, packets and the gapless trims they carry (container/container.go, container/settle.go).

    Audio itself is represented by labels: the raw decode timeline of a track numbers the samples its packets decode
    to from 0, and a packet's payload is the label of the first sample it decodes to. */
module Container {

  /** The span end that means "to the end of the track". */
  const TO_END: int := -1

  datatype Option<T> = None | Some(value: T)

  datatype Codec = Opus | AacLc | HeAac | Flac | Alac | OtherCodec

  /** A codec config, down to the one fact a cut rewrites: the priming an OpusHead states. */
  datatype Config = OpusHead(preSkip: int) | BrokenOpusHead | OtherConfig

  /** A trim one packet inside a run states: its last samples, which on the raw timeline are [pos, pos + samples). */
  datatype PacketTrim = PacketTrim(pos: int, samples: int) {
    function End(): int { pos + samples }
  }

  /** The fields of a track that the sample timeline depends on. `samples` is negative when the length is unknown. */
  datatype Track = Track(
    id: int, codec: Codec, config: Config, samples: int, delay: int, padding: int,
    midPadding: int, midTrims: seq<PacketTrim>, samplesExact: bool, samplesAdvisory: bool)

  /** A packet on a track. `dur` is its decoded length, `padding` the samples at its end that are not audio, `lost`
      the samples a hole took just before it, `data` its payload. */
  datatype Packet = Packet(track: int, padding: int, lost: int, dur: int, pts: int, data: int)

  function Min(a: int, b: int): int { if a <= b then a else b }

  function Max(a: int, b: int): int { if a >= b then a else b }

  /** A packet's trim, clamped to what a reader can drop from it. */
  function ClampedPad(p: Packet): int { Min(Max(p.padding, 0), p.dur) }

  /** The summed length of the first k trims. */
  function SumTo(trims: seq<PacketTrim>, k: nat): int
    requires k <= |trims|
  {
    if k == 0 then 0 else SumTo(trims, k - 1) + trims[k - 1].samples
  }

  function Sum(trims: seq<PacketTrim>): int { SumTo(trims, |trims|) }

  /** Whether the recorded trims account for the whole of the inner padding a walk summed. */
  method MidTrimsComplete(t: Track) returns (complete: bool)
    ensures complete <==> Sum(t.midTrims) == t.midPadding
  {
    var n := 0;
    for i := 0 to |t.midTrims|
      invariant n == SumTo(t.midTrims, i)
    {
      n := n + t.midTrims[i].samples;
    }
    complete := n == t.midPadding;
  }

  /** The length rule: `t` with its length settled against the `raw` samples a completed walk counted. */
  function SettleLength(t: Track, raw: int): Track {
    var s :=
      if t.samples < 0 || t.samplesAdvisory then
        t.(samples := Max(raw - t.delay - t.padding, 0))
      else if t.samplesExact || t.delay > 0 || t.padding > 0 then
        var kept := Max(Min(t.samples, raw - t.delay), 0);
        t.(samples := kept, padding := Max(raw - t.delay - kept, 0))
      else
        t.(samples := raw);
    s.(samplesExact := true, samplesAdvisory := false)
  }
}
