# The sample timeline, verified

A Dafny model of the code that moves, cuts, joins, trims and re-chunks audio while promising that every sample lands
where a plan said, and proofs that it does. The same length is computed here by a plan, a packet walk, a decode loop and
a trailer; most of what follows says where the four agree, and exactly where they do not.

`dafny verify dfyconfig.toml` checks the whole project, in a few minutes.

## What is modelled

**The cut rung** (`cut.go`, `cutseg.go`, `remux.go`, `container/settle.go`). Requested spans become packet windows,
trims, landed spans and a synthesized track (`CutPlan` is the specification, `CutCompute` the imperative planner proved
against it, `CutTimeline` the two timelines). A view walks the source against the plan (`CutWalk`), a seekable view
restarts it (`CutSeek`), a copy counts it and a trailer settles it (`Remux`), a segmented run writes it one packet
behind (`SegmentWalk`). Every raw sample of a source is labelled with its index (`Listening`, `GridSource`), so that
what a listener hears is a sequence of labels, and the content law is an equation between two such sequences
(`CutContent`, `CutListening`, `CutLaws`). Labels cannot see a decoder converge, so `CutPreroll` says of the plan itself
that every window starts early enough, and `CutAccepts` that a roomy request is never declined. `CutRestart` carries the
restart result from an accepted request to the code that runs, and `CutWidth` says on which tracks none of the planner's
arithmetic leaves the machine's integers.

**Stream composition** (`timeline.go`). `Slice` is a window onto a decoded stream; `Concat` joins members with crossfade
zones, seeks into them, and latches after a failed seek. `Timeline` is the simple form the fast one refines. The blend
curve is any function of zone offset, outgoing sample and incoming sample.

**Decode-side chunking** (`format/media.go`, `dsp/stages.go`, `audio/buffer.go`, `audio/pool.go`). `Media` is a class over
a planar array buffer with a carry that grows and is compacted in place; `Stages` holds the pump over a buffering kernel
and the framer; decoders and kernels are any functions that meet their stated contracts.

**Planning arithmetic** (`segments.go`, `cue/cue.go`). Segment durations, restart priming and the encoder feed in
`Segments`; the division of a file by a cue sheet in `Cue`.

Code that updates fields is a class whose methods say their whole new state; a loop is a method proved against a
recursive specification; and the properties are lemmas about those specifications. Where a stream reads something that
can fail - a member, a source, a demuxer, a decoder, an upstream stage - a ghost count of those faults makes its own
failures accountable: it answers an error only with a fault of that call behind it.

## Findings

Each of these is a property the code, or a comment beside it, suggests and does not keep. The code is modelled as it is;
each has a lemma at a failing input and the exact condition under which the property holds.

- **Two corners of the "keeps no whole packet" check** (cut.go:655-661). It compares a span's snapped head with its snapped
  end, and so misses a first span of several whose packets end before its request begins (its head includes the
  pre-roll), and a last span to the end whose head snaps into the padding. Such a request is accepted, and a landed span
  runs backwards: `CutLaws.FirstSpanBackward` lands [1500, 1600) at [1500, 1024), `CutLaws.LastSpanBackward` lands
  [4999, end) at [5120, 5000). `CutLaws.OnlyTwoCorners` proves that nothing else makes one run backwards, as an
  equivalence on the request's own snapped bounds, and `CutLaws.CutPreservesContent` that the content law holds exactly
  outside them. `CutLaws.PlainFirstCorner` gives the first corner's one-comparison form where no trim empties a packet.
- **A planned length can be negative** (cut.go:781-800). In those corners the length is short of what the other spans
  hold by how far a span runs backwards (`CutLaws.NegativeWhen`); [3070, 3071) with [5000, 5121) is accepted with a length
  of -1021 (`CutLaws.NegativeLength`), which every reader takes for an unknown one. What is then heard is the promise and
  whatever the last packets play after it, when only the last span runs backwards; when the first does, it is not the
  promise unless both are nothing (`CutListening.HeardWhenNegative`, carried into `CutLaws.CutPreservesContent`).
- **Plan and trailer part on a clamped tail** (cut.go:686-690, remux.go:392-411) whose packets run past the end the header
  declares: `CutTrailer.ClampedTailParts`. They agree exactly when the packets end where the plan has them end
  (`CutTrailer.PlanAndTrailerAgree`); a plan of exact length gets its length and delay back either way.
- **A cut of unknown length can settle short of what is heard** (remux.go:392-411) when the header's padding is neither
  none nor the final packet's own trim: `CutTrailer.UnmeasuredParts`, with the exact condition in
  `CutTrailer.UnknownLengthSettles`.
- **The one length rule has three conditions, not one** (container/settle.go:45-57). What a media delivers and what a copy
  settles differ when a header and the last packet disagree (`LengthRule.LengthsPart`, an input of each kind);
  `LengthRule.TrimAgrees` is the exact condition for a length that is unknown or advisory, capped, or a bare count, and
  `LengthRule.CopyIsDelivery` the equivalence.
- **The planner's arithmetic can wrap** (cut.go:244-270). Four addends are held under a ceiling so that nothing wraps,
  but two others are under none. A declared length can put the decode's end past the integers (cut.go:552-561):
  `CutWidth.DecodedEndCanWrap`. So can the place of a recorded trim put the trim's own end (cut.go:329-384):
  `CutWidth.TrimEndCanWrap`, where a trim beyond every window has an end that wraps to below them all, so that the filter
  takes it into each; worked through by hand, the plan then comes out with a delay of -512 and 5416 samples where 0 and
  5928 are right. `CutWidth.NothingWraps` proves that these two are all: every sum and bound of a request, and every
  number of its plan, fits if and only if each trim's end does and a declared length leaves room for the delay and the
  paddings.
- **A restart can ask for a sample before the media's own** (segments.go:730-746) with no headroom, a rate conversion, and a
  chain start inside one source sample of the top: from 8 Hz to 48 kHz a run from sample 6144 asks for sample -1
  (`Segments.AsksBeforeStart`). `Segments.SeekWithinHeadroom` is the equivalence. It needs a conversion that makes more
  than a frame of output from one source sample.
- **An HE-AAC cut can drop the stream's first packet** (cut.go:512-521), which the decline of every request that does not
  start at sample 0 is there to keep: the pre-roll is counted back from sample 0's own raw place, so a track primed for
  the pre-roll and a packet or more loses it (`CutPreroll.FirstPacketDropped`). `CutPreroll.HeadOnly` is the equivalence.
- **Cue pieces can be empty below 75 Hz** (cue/cue.go:395-455): at every such rate, `Cue.LowRatesLeaveOneEmpty`; from 75 Hz
  up none is, `Cue.DivisionTiles`.

## Model

| member | source | states |
|---|---|---|
| CutTimeline.RawStart | cut.go:310-319 | The loop maps a kept sample's track position to its raw one, stepping over the trims before it in order; TimelinesAreInverse says what that value means. |
| CutTimeline.RawEnd | cut.go:323-325 | The exclusive end of a span maps to just past the raw sample of its last one, so an end never opens inside a trim. |
| CutTimeline.TrackPos | cut.go:329-338 | The loop maps a raw position back to the track, counting only the trims wholly before it. |
| CutTimeline.TimelinesAreInverse | cut.go:310-338 | The three mappings undo each other, keep order, give each sample one raw place, and never name a trimmed sample. |
| CutTimeline.TrimsWithin | cut.go:342-354 | The filter returns one contiguous run of the trims, exactly the ones that end in the range, for a range whose ends no trim crosses. |
| CutTimeline.PlannedTrim | cut.go:358-364 | The binary search finds the trim that ends at a packet's end, or answers 0, for every ordered list. |
| CutTimeline.PlaceableTrims | cut.go:372-384 | Accepts exactly the tracks whose trims are complete, positive, under the ceiling, in order, and each inside one grid packet at its end. |
| CutTimeline.SnapGridDown | cut.go:280-285 | The greatest grid point at or below x, 0 for a negative x. |
| CutTimeline.SnapGridUp | cut.go:293-298 | The least grid point at or above x that is not negative. |
| CutTimeline.StartIsHeard | cut.go:386-397 | Where no trim empties a packet, every packet's start is a heard sample. |
| CutPlan.ValidateCutSpans | cut.go:431-498 | Accepts exactly the requests whose spans are nonempty, non-negative, under the ceiling, in order without overlap, inside a known length, with an open end only in the last. |
| CutPlan.SnapsLaid | cut.go:580-690 | After every decline, each accepted request is laid out: heads and tails on the grid in order, windows disjoint, the last tail clamped, open or snapped as its end asks. |
| CutCompute.SnapSpan | cut.go:580-630 | One span's five bounds, pre-roll and splice policy included, are the specified ones; CutPreroll.EveryHeadIsWarm and the landing lemmas say what those are for. |
| CutCompute.SnapSpans | cut.go:580-647 | Every span's bounds, adjacent spans joined at the later head, are the specified ones. |
| CutCompute.KeepAndApart | cut.go:655-678 | The two declines together fire exactly when some span keeps no whole packet or two windows overlap. |
| CutCompute.Clamp | cut.go:686-690 | A last span snapped past the declared end is clamped to it, and only then is the tail open. |
| CutCompute.AddSourceTrims | cut.go:719-743 | The loop over a window's source trims keeps exactly the ones the tail, the discarded pre-roll and the tail slop do not replace, and the slop grows to cover the trim it swallows. |
| CutCompute.CollectTrims | cut.go:699-750 | The accumulated trim list is the concatenation of every window's discards, kept source trims and tail slop, moved to the output's timeline. |
| CutCompute.SynthesizeTrack | cut.go:692-814 | The synthesized delay, padding, length, trims, exactness and codec priming are the specified track. |
| CutCompute.LandSpans | cut.go:816-851 | The landed spans and the windows walked are the specified ones, their exact ends overridden last. |
| CutCompute.RestatePriming | cut.go:808-814 | An Opus head is required to restate a delay, and a delay outside 16 bits is declined. |
| CutCompute.ComputeCut | cut.go:501-861 | The imperative planner, every branch and decline of it in its order, answers what the plan specification the other modules reason about answers, on every track and request; CutPreroll, CutLanding and CutLaws say what such a plan is, and CutAccepts what is never declined. |
| CutAccepts.RoomyIsCut | cut.go:501-861 | A valid request of an eligible track is never declined while each span is two packets or longer and, spliced, lies the pre-roll and two packets past the one before. |
| CutPreroll.PrerollLengths | cut.go:156-169 | The pre-rolls are 80 ms of Opus, one AAC-LC frame, and twelve HE-AAC access units. |
| CutPreroll.EveryHeadIsWarm | cut.go:580-611 | The first window and every spliced one starts at packet 0, or at least the codec's pre-roll ahead of the raw place its span lands at with under a packet more to hear; a plain interior one starts where its span lands, nothing of it ahead heard. |
| CutPreroll.OnlyAllowed | cut.go:505-521 | Only Opus, AAC-LC and HE-AAC are cut, and HE-AAC only from sample 0. |
| CutPreroll.HeadOnly | cut.go:512-521 | An HE-AAC cut keeps the stream's first packet if and only if the priming ahead of sample 0 is less than the pre-roll and a packet. |
| CutPreroll.FirstPacketDropped | cut.go:512-521 | A failing input: an HE-AAC track primed for 26624 samples on a grid of 2048, cut from sample 0, is accepted and its first packet is dropped. |
| CutLayout.CutTrimsArePlaced | cut.go:699-750 | The cut track's own trims are in order, each inside one packet of the output's grid, and sum to its inner padding. |
| CutLayout.LayoutSound | cut.go:501-861 | Every accepted plan is one the walk can run: windows in order, and the trim the walk looks up at a packet's end is the one the plan placed there. |
| CutLength.SamplesAreLanded | cut.go:754-800 | The declared length is the summed landed lengths, and the delivered samples less inner padding, delay and padding. |
| CutLanding.HeadLanding | cut.go:580-611 | The first head lands exactly, and every other one moves inward by less than a packet. |
| CutLanding.TailLanding | cut.go:612-647 | The last tail and every spliced one land exactly; a plain interior one moves inward by less than a packet, or to the next head when the spans touch. |
| CutLanding.LandingsApart | cut.go:816-843 | Landed spans are in order and never overlap. |
| CutLanding.SharedBoundary | cut.go:643-661 | A span that keeps a packet before a shared boundary starts at or before its own requested end. |
| CutLanding.LandingInside | cut.go:816-843 | Landing is one-sided: outside the two corners, every sample any landed span names is one the request asked for. |
| CutWidth.BoundsFit | cut.go:580-630 | Under the ceilings the planner checks, every bound of a span that names its ends, mapped and snapped, and every sum on the way, fits a signed 64-bit integer, whatever the track declares. |
| CutWidth.NothingWraps | cut.go:244-270 | Every sum and bound of a request, and every number its plan states, fits if and only if each recorded trim's end does and a declared length leaves room for the delay and the paddings. |
| CutWidth.TrimEndCanWrap | cut.go:329-384 | A gap: a track with a trim in the packet that ends at 2^63 is accepted, and the trim's end wraps to below every window though the trim lies past them all. |
| CutWidth.OutputFits | cut.go:700-749 | A window never lands later on the output's timeline than on the source's, so the output fits too. |
| CutWidth.DecodedEndCanWrap | cut.go:552-561 | A gap: the declared length has no ceiling, and a track that declares 2^63 - 1 samples behind a delay is accepted with a decode end past the integer's range. |
| CutWalk.CutDemuxer.KeptInWindows | cut.go:1051-1063 | The loop counts the samples of a range that the current window and later ones keep, as KeptCounts has it. |
| CutWalk.KeptCounts | cut.go:1051-1063 | What a window keeps of a range is the number of positions of the range it holds. |
| CutWalk.KeptNothing | cut.go:1051-1063 | The windows from one on keep nothing of a range exactly when no position of it lies in any of them. |
| CutWalk.CutDemuxer.Take | cut.go:965-1047 | One inner packet moves the view's six fields, and answers, exactly as one step of the walk specification: passed over, kept with its trim, or one of the three errors; NoSilentSplice, NoSilentHole and CleanWalkTrims say what those steps keep. |
| CutWalk.CutDemuxer.ReadPacket | cut.go:965-1075 | The read loop passes over any number of packets, other tracks' and gaps', to the next kept one or the end, and leaves the view where the specification of a read does. |
| CutWalk.NoSilentSplice | cut.go:973-1029 | Over any packets at all, off the grid and damaged too, each one handed on lies whole inside one window, windows are visited in order, and anything else is an error. |
| CutWalk.NoSilentHole | cut.go:981-988 | Over any packets at all, holes and damage included, each packet handed on begins where the one before it in its window ends, or at the window's first sample: no hole inside a window is slid over. |
| CutWalk.CleanWalkTrims | cut.go:993-1010 | A walk ends cleanly only over packets each of which trims what the plan's source does where it ends. |
| CutWalk.ShortWalkFails | cut.go:1064-1075 | Undamaged packets that stop short of what a plan is held to do not end its walk cleanly. |
| CutLaws.ShortSourceFails | cut.go:852-861 | A source whose packets stop short of the audio an accepted bounded request asked for does not end the walk of its plan cleanly. |
| CutLaws.PlanTrack | cut.go:785-861 | An accepted plan's track is the source's: an Opus head states the cut's own delay within 16 bits, any other config is kept; a bounded request's length is exact, an open one's worth what the source's is; the plan carries the source's trims, and is blind exactly when the source's length is unconfirmed. |
| CutLaws.WalkIsContiguous | cut.go:1030-1047 | Over any packets, those handed on are on the cut's track, hole-free, each timed where the one before it stops playing. |
| CutContent.WalkIsEmitted | cut.go:965-1075 | On the source planned for, the walk ends cleanly: no straddle, no trim mismatch, no short source, and it hands on exactly the packets the windows hold. |
| CutContent.SoundsAreBodies | cut.go:965-1047 | What the emitted packets decode to, label by label, is each window's own untrimmed audio from its head to its tail, in order. |
| CutListening.WalkPlaysBodies | cut.go:501-1075 | An accepted plan never fails its own walk, and the walk decodes to the source's track samples over the windows. |
| CutListening.HeardIsPromised | cut.go:754-843 | Dropping the cut's delay and taking its length gives the landed spans' samples if, and for any length that comes out at all only if, no landed span runs backwards. |
| CutListening.HeardWhenNegative | cut.go:781-800 | With a negative length, read as unknown, a listener hears the promise and then what the last packets still play; but when the first span runs backwards, never a promise of anything. |
| CutLaws.CutPreservesContent | cut.go:501-1075 | For every accepted request in both policies, on every source on the grid, a listener hears exactly the source's samples over the landed spans, nothing added, repeated or lost, if and only if the request is in neither corner; in a corner it says what is heard of a negative length too. |
| CutLaws.OnlyTwoCorners | cut.go:655-661 | A landed span runs backwards exactly when the request is in one of two corners the keeps-no-whole-packet check leaves open, whatever the trims. |
| CutLaws.PlainFirstCorner | cut.go:655-661 | Where no trim empties a packet, the first corner is closed exactly when the first span's packets reach its request. |
| CutLaws.FirstSpanBackward | cut.go:655-661 | A failing input: [1500, 1600) and [5000, 9000) on a 1024 grid is accepted and lands its first span at [1500, 1024). |
| CutLaws.LastSpanBackward | cut.go:655-661 | A failing input: [4999, end) of a padded 5000-sample track is accepted and lands at [5120, 5000). |
| CutLaws.NegativeWhen | cut.go:781-800 | The planned length is what the spans hold forwards less how far each corner runs backwards, so it is negative exactly when they run further than that. |
| CutLaws.NegativeLength | cut.go:781-800 | A failing input: [3070, 3071) and [5000, 5121) is accepted with a length of -1021. |
| CutCopy.EmittedClean | cut.go:965-1047 | Every packet a walk hands on is the track's, has no hole, and trims no more than it holds, so the copy's guards pass it. |
| CutTrailer.WalkLength | cut.go:754-800 | A copy of the walk counts the planned samples, delay and padding, and whatever the last packet runs past the planned end. |
| CutTrailer.PlanAndTrailerAgree | remux.go:392-411 | Copying the walked packets and settling the trailer gives the planned samples, delay and padding if and only if the packets end where the plan has them end; an exact plan's samples and delay come back wherever they end. |
| CutTrailer.ClampedTailParts | remux.go:392-411 | A failing input: a clamped tail whose packet runs past the header's end gets a trailer with more padding than planned. |
| CutTrailer.UnknownLengthSettles | remux.go:392-411 | A cut of unknown length settles to the number of samples a listener hears of it exactly when the header's padding is none, is the final packet's own trim, or nothing is heard. |
| CutTrailer.UnmeasuredParts | remux.go:392-411 | A failing input: an unmeasured track whose header pads 100 samples its packet does not settles 100 short of what is heard. |
| CutSeek.CutSeekDemuxer.SeekSample | cutseg.go:241-309 | The window search, the inner seek and the reset of every field put the view where the repositioning specification does; a bad target or a failed inner seek leaves it alone. |
| CutSeek.StartsRoundTrip | cutseg.go:215-223 | Packet starts round-trip between the raw and delivered timelines, and keep their order both ways, when no trim empties a packet. |
| CutSeek.EmittedLength | cutseg.go:241-309 | The packets handed on from anywhere in the source advance the output exactly from that place's output position to the end's. |
| CutSeek.RestartIsSuffix | cutseg.go:241-309 | For any target on the output grid and any landing on a packet at or before it, in the window, in a gap or windows earlier, the restarted walk hands on exactly the packets, times and trims the linear walk does from the target. |
| CutRestart.WholePacketTrim | cut.go:390-397 | True exactly when some trim empties a packet. |
| CutRestart.CutSeekable | cutseg.go:185-213 | Gives a fresh view of the plan, standing at its start, exactly for the accepted requests whose cut states no inner trim and whose source has no whole-packet one. |
| CutRestart.WorkerWritesSuffix | cutseg.go:123-169 | For every accepted, seekable request, the first run is the segmented copy of the whole walk, the second that of a fresh view started at any segment, and the second writes exactly the packets, times and trims the first writes from that segment's start on. |
| SegmentWalk.PacketGrid | remux.go:471-520 | The loop finds the positive duration that every packet of the track but the last shares, and answers 0 when there are fewer than two packets or no such duration. |
| SegmentWalk.GridSourceMeasures | remux.go:471-520 | On the source a cut is planned for, the grid measured is the one planned with, as soon as there are two packets. |
| SegmentWalk.SegmentCut | remux.go:725-884 | The seek, the check that it landed by the start, and the copy one packet behind give the segments the specification gives, failures included. |
| SegmentWalk.Segments | remux.go:780-843 | The hold-and-release loop writes what the fold over the copied packets specifies. |
| SegmentWalk.SegmentsAreSuffix | remux.go:815-843 | The run writes exactly the packets past the start when all but the last share a length, and stops with an error, never a short packet in the middle, when they do not. |
| SegmentWalk.RestartedSegments | remux.go:725-884 | The segments of a restarted run are the continuous run's own from that point, for any view and any landing at or before it. |
| Remux.FillHole | remux.go:1052-1074 | The loop writes the silence the specification unrolls, whose frames SilenceFills and CopyKeepsBlocks describe. |
| Remux.SilenceFills | remux.go:1052-1087 | The silence is legal untrimmed frames, end to end from the hole's start to its end, and plays exactly as long as what was lost. |
| Remux.CopyPackets | remux.go:1098-1157 | The copy loop - filters, hole filling, per-packet or final trims, the refusal of an inner one - gives what the fold over the packets specifies, of which the next seven rows are the laws. |
| Remux.CopyView | remux.go:1098-1157 | The same copy reading a cut's view one packet at a time gives the copy of the view's whole walk. |
| Remux.CopyKeepsPackets | remux.go:1098-1157 | Fills apart, what is written is the track's own packets, each once and in order, unchanged but for the hole no longer stated. |
| Remux.CopyIsUnbroken | remux.go:1098-1157 | Where the source plays on without a break, holes included, so does the copy, with no hole left: every packet written, silence or not, is timed where the one written before it stops. |
| Remux.CopyKeepsBlocks | remux.go:1050-1074 | A hole's silence comes in frames no longer than the packet before it. |
| LengthRule.CopyDecodesAlike | remux.go:1118-1127 | Decoding the copy, its silent frames silence, gives frame for frame what decoding the source gives, its holes silence: the silence stands where the hole was. |
| Remux.CopyGoesThrough | remux.go:1098-1174 | A copy succeeds if and only if its demuxer ends cleanly, no hole lacks a silence to fill it, and no trim inside the stream lacks a destination that states it. |
| Remux.CopyKeepsTimeline | remux.go:1098-1157 | What the copy writes plays as long as what it read, holes and trims included, and its count is that plus the final packet's trim. |
| Remux.CleanCopy | remux.go:1098-1174 | A hole-free stream is copied unchanged, and refused if and only if it states a trim in its middle that the destination cannot. |
| Remux.TrailerHolds | remux.go:392-441 | A FLAC or ALAC trailer declares the run and no trim; any other keeps the delay, and the stated or final padding where no length is held to, and its three parts add up to the run to the sample unless the run cannot fill its own trims. |
| Container.MidTrimsComplete | container/container.go:311-317 | The loop answers whether the recorded trims sum to the inner padding. |
| LengthRule.MediaDelivers | format/media.go:119-124 | The stream a media promises is as long as the length rule's delivery of the decoded run. |
| LengthRule.SettleIsDelivery | container/settle.go:45-57 | The settled length of a run is the delivered one exactly where the final trim agrees with what the header states, by the header's kind of length. |
| LengthRule.CopyIsDelivery | container/settle.go:45-57 | Over any packets, holes and other tracks' included, the length a copy settles and the number of frames a media delivers from them are equal exactly where the final trim agrees. |
| LengthRule.LengthsPart | container/settle.go:45-57 | Failing inputs of all three kinds: a header padding that is not the packet's trim, an exact length longer than the audio, and a bare count beside a trim. |
| Timeline.Joined.Refines | timeline.go:1668-1704 | Every output frame is one member's own sample, or in a zone the blend of the two members' samples at that offset. |
| Timeline.Joined.TimelineLength | timeline.go:1029-1063 | The timeline is as long as its members less one zone a seam. |
| Concat.CheckCrossfade | timeline.go:1352-1395 | Accepts exactly the crossfades every member is long enough for and one blend buffer holds. |
| Concat.ConcatLayout | timeline.go:926-1063 | Where each member starts and the total, for exactly the crossfades checkCrossfade accepts. |
| Concat.Concat.constructor | timeline.go:1455-1477 | A new timeline stands at 0, unmarked and unlatched, with all of itself ahead. |
| Concat.Concat.OpenMember | timeline.go:1922-1942 | Opening the member the stream stands at keeps all of what is ahead; a failure moves nothing. |
| Concat.Concat.Bound | timeline.go:2022-2031 | A read inside a zone stops at its end, one before a tail zone stops where the zone begins, and the rest are unbounded. |
| Concat.Concat.ReadBounded | timeline.go:2046-2058 | The member's next frames, never more than the bound or the buffer, an end only at the member's end. |
| Concat.Concat.AdvanceMember | timeline.go:2298-2329 | Moves on only when the member ended where it declared and closed, keeping all of what is ahead; a wrong length leaves it open, a failed close leaves it closed, and neither moves. |
| Concat.Concat.CaptureTail | timeline.go:2086-2123 | The blend captured is the last x frames of a member of exactly its declared length, so it never exceeds a zone, and all of what is ahead is kept. |
| Concat.Concat.MixBlend | timeline.go:2127-2133 | Each frame is the blend of the captured tail and the incoming member at its zone offset, and the blend retires exactly at the zone's end. |
| Concat.Concat.Fill | timeline.go:1668-1704 | Whatever frames come out, they and what is then ahead are what was ahead; the end comes only with nothing ahead and every member at its declared length; a failure only with a member that fails or does not hold what it declared. |
| Concat.Concat.ReadChunk | timeline.go:1626-1660 | A chunk is the timeline's next frames at the running position, marked only after a seek; the end comes only at the timeline's length; an error only after a failed seek, for a chunk of no room, or with a member that fails in this call or does not hold what it declared. |
| Concat.Concat.ReadAll | timeline.go:1626-1704 | Any reader, whatever its capacities, gets exactly the rest of the timeline at contiguous positions with no seam marked, and is stopped short only by a member that fails. |
| Concat.Concat.MemberAt | timeline.go:1917-1919 | The binary search finds the member whose stretch holds the target, past members of no length. |
| Concat.Concat.SeekMember | timeline.go:2218-2251 | The open member lands on the target or its end, or past it only when its container cannot seek exactly. |
| Concat.Concat.SeekBody | timeline.go:1795-1809 | A landing in a member's tail zone is refused, and one elsewhere is at or past the target; of a member of its declared length that seeks exactly, nothing is refused but for a fault. |
| Concat.Concat.PreRoll | timeline.go:1887-1903 | Dropping n frames through fill leaves exactly the frames after them ahead. |
| Concat.Concat.SeekIntoBlend | timeline.go:1846-1873 | A target inside a zone leaves exactly the whole timeline's suffix from it, the outgoing tail captured again. |
| Concat.Concat.SeekTo | timeline.go:1740-1780 | Every target, in a body, in a zone, past empty members or past the end, leaves the suffix from where the stream then stands. |
| Concat.Concat.SeekSample | timeline.go:1720-1736 | A good seek leaves the linear read's suffix, exactly from the target when members seek exactly; a failed one latches, and only a good one clears it; a target that is not negative is refused only with a fault, a member that seeks inexactly, or one that does not hold what it declared. |
| Slice.SpansCompose | timeline.go:310-382 | The track of a span of a span is the composed span's track. |
| Slice.SpanIsWindow | timeline.go:310-382 | A span's track has no delay, padding or trims left, as many samples as its window shows of a source of the declared length, and is exact when bounded; an open one's length is worth what the source's is. |
| Slice.WindowsCompose | timeline.go:634-672 | A window onto a window shows what the composed window shows, short sources included. |
| Slice.CutThenJoin | timeline.go:634-752 | Cutting a stream at any ascending points and playing the pieces end to end gives the stream back, sample for sample. |
| Slice.Slice.EnsureStart | timeline.go:593-625 | The first read positions the source at the window's start once, and a source that ends before it is left at its end. |
| Slice.Slice.EndOfSource | timeline.go:686-712 | The source's end is the window's exactly when the window has all it was held to, a bound or an inherited exact length, or damage says why; otherwise the error names whose length was wrong. |
| Slice.Slice.ReadChunk | timeline.go:634-672 | The window's next frames, never past its bound, one mark after a seek; an end only with the held length out, bounded or open; an error only when the source fails in this call or ends short of what the window is held to. |
| Slice.Slice.SeekSample | timeline.go:721-752 | A target is the window's own, down to the audio ahead of it and no further, capped at the bound; one in that range is refused only when the source's own seek fails. |
| Slice.Slice.ReadAll | timeline.go:634-752 | Any reader gets the source's samples from where the window stands, and a source short of the held length, bounded or inherited, never ends cleanly without damage. |
| Buffer.CopyFrames | audio/buffer.go:59-81 | Over a planar array, n frames move for every channel and no other frame of the destination changes, overlapping ranges of one buffer included. |
| Media.Media.Compact | format/media.go:620-628 | Moving the carry down in place keeps exactly the frames not yet handed on. |
| Media.Media.Stash | format/media.go:574-617 | What a decoder emits is appended to the chunk and the carry in order, through the carry's growth and compaction. |
| Media.Media.CopyOut | format/media.go:437-445 | Frames move from the carry's front to the chunk's back, none lost or repeated. |
| Media.Media.DecodeTrimmed | format/media.go:550-569 | A packet's trim comes off the back of what it decoded, carry first and chunk after, and off nothing before it. |
| Media.Media.SilencePart | format/media.go:514-529 | Part of a hole's silence is staged and the rest still owed, nothing else changed. |
| Media.Media.Fill | format/media.go:451-501 | One packet, hole or flush is decoded: what is staged and what is still to decode stay, joined, the same stream, and the source makes progress. |
| Media.Media.Discard | format/media.go:409-426 | Exactly n frames of the stream are dropped, fewer only at its end. |
| Media.Media.Land | format/media.go:356-382 | A landing is at or before what was asked, and leaves the linear stream from itself. |
| Media.Media.PreRoll | format/media.go:326-352 | The doubling back-off ends, and leaves the linear stream from the target however many landings missing history forces; it fails only when a landing or the decoder does, or history is missing where no earlier landing can give it. |
| Media.Media.Reland | format/media.go:390-404 | A read that meets missing history lands strictly earlier and comes back to the sample it owed. |
| Media.Media.ReadChunk | format/media.go:233-284 | The promised stream's next frames, as the position says, one mark after a seek; at the end nothing, and nothing ever after; an error only for a chunk of no room or a fault of the demuxer or decoder in this call. |
| Media.Media.ReadAll | format/media.go:233-284 | Any reader, with any capacities over any split of the decode, gets exactly the decoded run with holes silent, trims dropped, the delay dropped and the cap kept, and stops short only of a fault. |
| Media.Media.SeekSample | format/media.go:293-317 | After a seek the stream stands at the target, or at its end, and reads from there are the linear stream's; a target that is not negative fails only with a fault. |
| Stages.Pump.ReadChunk | dsp/stages.go:274-372 | A chunk is the next of one segment's kernel output, its position counted from the segment's anchor, marked only at a segment's first frame, never spanning a splice; a chunk with no room is answered as the end, and nothing moves; it fails only when upstream does. |
| Stages.Pump.ReadAll | dsp/stages.go:274-372 | Any reader gets every segment's whole output, end to end, whatever chunks the input comes in and whatever capacities it is read with, unless upstream fails. |
| Stages.Kernel.RestAhead | dsp/stages.go:274-372 | What is still to come is the rest of the segment output goes on in, segments with none skipped, and every later segment's. |
| Stages.ChunkingIndependence | dsp/stages.go:274-372 | Two inputs with the same segments, chunked differently, come out of the stage the same. |
| Stages.Framer.ReadChunk | dsp/stages.go:392-436 | A frame is exactly the frame size except the last before a splice or the end, nothing lost between, its position and mark its first sample's; it fails only for too small a chunk or when upstream does. |
| Pool.ClassBits | audio/pool.go:30-39 | The least class a sample count fits, and -1 exactly for counts no class holds. |
| Pool.Pool.Get | audio/pool.go:46-87 | Whatever comes back holds every sample asked for: a buffer of the least class that fits when that class has one, a new one of that class's size when it has not, one of its own size past the top class; at most that one buffer leaves one class. |
| Pool.Pool.Put | audio/pool.go:93-117 | A buffer joins the one class its capacity is of, or is dropped exactly when it is of none. |
| Pool.CrossfadeFitsPool | timeline.go:893-907 | The largest crossfade a timeline accepts is exactly the largest blend the pool holds, for every channel count. |
| Segments.DurationsTo | segments.go:99-132 | Each segment is whole but the last, which is never empty, and the presentation before segment k is what of the window lies before its start. |
| Segments.DurationsSum | segments.go:99-132 | The presentation durations a player sums are the audible length, and the segments' spans the whole decode. |
| Segments.TotalIsLeast | segments.go:545-550 | An encoder without delay makes the output's samples; one with delay makes whole frames, the least that hold the delay and the samples. |
| Segments.FloorDiv | segments.go:533-539 | The quotient is rounded down for negative dividends too. |
| Segments.HeadroomFloor | segments.go:510-521 | The floor is the deepest whole position the audio ahead of sample 0 covers, with the margin kept. |
| Segments.PrimeStarts | segments.go:483-497 | For every start, the floor is at or below the chain's start, that at or below the encoder's, that at or below the kept sample, all whole frames apart; each window is as long as asked, by under a frame more, and the two together as long as asked, unless clamped, and a clamped chain starts at the floor's own whole frame. |
| Segments.MapBack | segments.go:730-741 | The source sample is one whole sample earlier than the floor of the mapped position, and the position itself at ratio 1. |
| Segments.LandsBefore | segments.go:730-746 | The seek lands the chain at or before its start, whatever the ratio. |
| Segments.SeekWithinHeadroom | segments.go:730-746 | The seek stays inside the headroom except exactly when there is none and one source sample makes more output than lies before the chain's start. |
| Segments.AsksBeforeStart | segments.go:730-746 | A failing input: 8 Hz to 48 kHz with no headroom, a run from sample 6144 primed for a tenth of a second seeks sample -1. |
| Segments.StageFrames | segments.go:856-879 | The frames already encoded and those staged, joined, grow by exactly the chunk's frames, each encode a whole frame. |
| Segments.FeedEncoder | segments.go:798-839 | However the chain chunks its output, the encoder is fed it from its priming start in whole frames and one short last; the run fails only when the chain does or lands past that start. |
| Segments.PrimingIsDropped | segments.go:671-851 | Discarding the priming packets leaves exactly the frames from the first kept sample on, even when the stream ends inside the priming. |
| Segments.RestartIsSuffix | segments.go:671-851 | Where the restarted stream is the whole one's, what is written is the whole run's frames from the segment's first on. |
| Segments.TranscodeFrom | segments.go:671-851 | A run started at any segment, of any chain that settles within the encoder's and its own priming windows together, a resampler that has none of its own included, writes exactly the frames a run of the whole stream writes from there, never seeks ahead of the media's audio, and fails only when the chain does. |
| Cue.SamplesAscend | cue/cue.go:523-525 | Frames ascend to samples, and at 75 Hz or more no two share one. |
| Cue.Starts | cue/cue.go:284-343 | Every track's start, for exactly the nonempty sheets whose tracks ascend. |
| Cue.StartsAscend | cue/cue.go:284-343 | A start is at or past every earlier one, past an audio one, and past where an earlier data track's INDEX 01 has it run to. |
| Cue.FollowsWhen | cue/cue.go:284-343 | One track may follow another exactly when it starts past an audio one, or at or past a data one and its INDEX 01. |
| Cue.FirstIndex | cue/cue.go:322-343 | An audio track starts at the first INDEX 01 and a data track past the first at the first INDEX 00 or 01, and neither has a start exactly when it has no such index. |
| Cue.Pieces | cue/cue.go:395-455 | The loop that absorbs, skips and closes pieces gives the division specified, for exactly the sheets that have one. |
| Cue.DivisionTiles | cue/cue.go:395-455 | The pieces start at 0, abut, ascend and end open or before a known total; at 75 Hz or more none is empty, and a skipped one never is. |
| Cue.LowRatesLeaveOneEmpty | cue/cue.go:395-455 | At every rate below 75 Hz some accepted sheet has an empty written piece, so the bound is exact. |
| Cue.TracksAreDivided | cue/cue.go:395-455 | Every audio track has its piece from its INDEX 01, and a data track one to skip, from the file's start or its first INDEX 00 or 01, exactly when the file holds some of it. |
| Cue.LeadIn | cue/cue.go:395-455 | Audio ahead of a first track that does not start the file is the first piece, skipped exactly when a data track in an earlier file precedes it; every other piece is a track's. |
| Cue.RefusedWhen | cue/cue.go:395-455 | A sheet whose tracks ascend does not fit the file exactly when some audio starts at or past the file's end, or a data track of cooked sectors occupies the file ahead of an audio track. |
| Cue.SkippedAre | cue/cue.go:459-469 | The skipped pieces are exactly those that are not audio, in order. |
| Cue.Cutpoints | cue/cue.go:459-469 | The cut points are where consecutive pieces meet, and the skips the pieces a split does not write. |
| Cue.SplitRejoins | cue/cue.go:395-469 | Each piece is its window of the file, and played end to end the pieces are the file. |

## Left out

- Container parsers and muxers, codecs, the resampler, limiter and dither kernels, loudness and silence analysis: they
  are numeric or formats of their own, and appear as functions with stated contracts.
- Contexts, closed handles, logging, warnings, error texts and codes, tags, chapters, artwork: only success, decline and
  error outcomes are kept.
- Option and output-format tables, media types, version strings, playlists: case tables one branch settles.
- Floating point: the crossfade curve, seconds to samples, peak metering. The curve is any function of its three
  arguments; sample counts are given as integers.
- Machine integers: the proofs are over unbounded integers. CutWidth.NothingWraps says for which tracks the cut planner's
  fit 64 bits; the walk, the copy and the other cores have no such lemma.
- CutLaws.CutPreservesContent: speaks of sources on the packet grid, which is what a cut is planned for (`Holds`,
  `GridPackets`): every packet lasts the grid but a last one of at most that, inner trims are the recorded ones, none in
  the last packet, no packet follows a hole, and a declared length is reached. Off that grid, CutWalk.NoSilentSplice
  holds of any packets. Of a negative length it says what is heard only up to what the last packets play after the
  promise, which depends on the source.
- CutWalk.CutDemuxer.ReadPacket: the inner demuxer yields its packets and then the end; a read error of its own, which the
  view passes on, is not part of this model.
- CutCompute.ComputeCut: requires the header's padding and inner padding not to be negative, as every reader of a header
  has it. The other results about accepted requests require too that a declared length covers the recorded trims
  (`TrimsCovered`), which a measured length does.
- CutAccepts.RoomyIsCut: says what is enough for a request to be cut. Exactly what is declined is a condition on the
  snapped bounds (CutCompute.KeepAndApart), and the 16 bits of an Opus head (CutCompute.RestatePriming).
- CutPreroll.EveryHeadIsWarm: says where packets start, and takes the codecs' pre-roll lengths as enough; that a decoder
  has converged by then is not part of this model.
- CutTrailer.PlanAndTrailerAgree: is about codecs on the cut's allowlist and a destination with per-packet trims, or a
  walk that states none in its middle; otherwise the copy is refused (Remux.CleanCopy).
- Remux.FillHole: requires a positive block. The loop does not end for a block of none, which takes a first packet with
  damage before it and no duration of its own.
- LengthRule.CopyDecodesAlike: takes the silent frame the codec writes to decode to silence of its length; and it, and the
  other laws of a copy with holes, require a packet after a hole to have a duration.
- SegmentWalk.SegmentCut: composes the view's copy and the hold-and-release loop, which the code runs interleaved; the
  muxer's segmenter, and where it cuts, is not part of this model.
- CutRestart.WorkerWritesSuffix: takes the inner demuxer's seek as any function that lands, for a target at or past the
  first packet, on a packet of the track at or before it. The remux plan made of the cut track is not part of this model.
- Slice.Slice.SeekSample: takes the audio ahead of the window to be the source's own before `from`; the headroom a source
  has before its own start, as a window onto a window has, is not added. It says the exact landing only for a source that
  seeks exactly; one whose first sync point lies past the target lands there. Confirming a length by a walk, and the
  width of mixed members, are not part of this model.
- Concat.Concat.ReadChunk: members are given as decoded streams of one width. Their own conversion chains, and the output
  dropped on seeks through one, are not part of this model; nor is the pool's buffer a zone is kept in, which is a
  sequence here.
- Concat.ConcatLayout: the starts and the total only; formats, chapters and declared exactness are left out. It says nothing
  of members of unknown length, which are refused.
- Media.Media.Land: the container's seek is taken to land at or before what was asked. A container may also land at a later
  first sync point, and for such a one the back-off need not end; Slice and Concat do allow for it.
- Media.Media.Decode: a decoder emits exactly its packet's frames, in any pieces, and fails for missing history only
  before the first of them. Damage it reports is not part of this model.
- Media.Media.ReadAll: frames are sequences of channel samples of any type with one silent value; integer and float
  buffers are not told apart.
- Stages.Pump.ReadChunk: the kernel is any function whose settled output never changes with what follows; the stashed
  chunk and the output are sequences, not buffers. The one-in one-out stages are left out: they keep every length.
- Stages.Pump.ReadAll: its reader never offers a chunk with no room, which Stages.Pump.ReadChunk answers as the end of the
  stream.
- Pool.Pool.Get: a class is a multiset of capacities: which buffer comes back, and what it holds, is unspecified in the
  code too. Integer and float pools are one. A runtime may drop pooled buffers at any time, which is not modelled.
- Segments.TranscodeFrom: is about a chain that settles within the two priming windows together (`Settles`): entered later
  than the earliest sample any run enters at, its output that far on is the whole stream's. It requires the rate
  conversion to make at most a frame from one source sample; Segments.SeekWithinHeadroom says what happens at any other.
- Segments.FeedEncoder: the encoder makes one packet a frame and a last short one; what it does with them, and the frames
  it still holds at the end, are left out.
- Cue.Pieces: a sheet comes parsed; parsing, its tolerated faults, and labels are left out.
