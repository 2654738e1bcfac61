# Verified model of the Discord voice service

A Dafny model of the parts of the service that decide whether audio leaves it intact, in order and at the
right speed, and of the validators that judge a run. All statements are for all inputs, all runs or all
traces; integer widths, wrap-around and saturation are written out. Check the project with
`dafny verify dfyconfig.toml`.

**RTP egress.** `Rtp` and `Protection` give headers, the cursor and transport protection, against the layout
of sections 5.1 and 5.3.1 of RFC 3550 and an abstract AEAD. `Egress` models the preparer, the packed atomic
cursor and the cloned senders, first as objects and then as a step system whose steps are the atomic sections
of the source; the objects are shown to take exactly these steps. `FifoCaller` is a caller that sends first in, first out; `EgressEvidence` shows that its log passes
the two independent checkers.

**Media pipeline.** `OpusNormalizer` re-chunks Opus packets into 960-sample frames, `OpusQueue` is the bounded
queue, `PlaybackWorker` the fill loop, `PlaybackPipeline` the steps it takes and what every path of them keeps,
`PlaybackStream` ties its output to the PCM of the source, `SourceRecovery` resumes a source at a sample position,
and `HttpStream` is the byte stream with its reopen, retry and re-resolve logic.

**Pacing and tempo evidence.** `Pacer` schedules packets; `RawSendLog` and `RawPlayback` are the controller's
order check and batch recomputation; `Observer` is the online accumulator; `Tempo` is the arithmetic they share.

**Validators.** `PlayoutLedger` (over `Matching`), `QueueDepth`, `LiveContract`, `PauseProof`, `BoundarySilence`,
`PlaybackBudget`, which puts the log checks together, and `EvidenceGate`.

## Assumptions

- The AEAD is a pair of functions; `Protection.Correct` is the law that opening inverts sealing.
- The Opus library is three functions (`OpusNormalizer.Codec`) with no law: decoding and encoding may fail on
  any input. A passthrough packet that the decoder would have rejected counts as silence when PCM is compared.
- A timed wait returns at or after its deadline (`Pacer`, `PauseProof`); one clock reading stands for the
  readings taken on the same side of an await.
- Every resolved URL serves the same content, and a response's body is that content from where its own status and
  Content-Range declare it to start: the range's start for a 206 that carries one, byte 0 for anything else
  (`HttpStream.BodyStart`). What the network does at each await is an arbitrary script.
- The standard library's unstable sort is any function that returns an ascending permutation
  (`QueueDepth.Sort`); how it breaks ties is left open.

## Where the code does not do what one would expect

- Two clones can put the same packet on the wire; only one of the two sends returns Ok
  (`Egress.ClonesCanDuplicateOnTheWire`). `Egress.SwapSucceedsIff` says exactly when the other is refused, by the
  sends that completed since its load; without a clone it never is (`Egress.SingleSenderIsNeverRefused`).
- A discard during a send leaves the preparer behind (`Egress.DiscardDuringSend`,
  `Egress.DiscardDuringSendRefusesNext`), and a packet kept across a discard can be accepted with an older
  nonce (`Egress.StalePacketBreaksNonceOrder`); `Egress.NonceOrderIff` says exactly when nonces are in order.
- `enqueue_frames` tries later frames after one was refused, so a byte limit can reorder frames
  (`OpusQueue.ByteLimitCanReorder`); `OpusQueue.EnqueueKeepsOrderIff` says exactly when, and
  `PlaybackPipeline.PathKeepsOrderIff` over a whole call.
- When a packet cannot be normalized, the fill loop drops it; if it came from a chunk just read, all packets of the
  chunk behind it are dropped with it (`PlaybackWorker.Worker.BufferChunk`, `BufferNext`).
- The running minima use 0 as "unset", so a genuine 0 is forgotten (`RawPlayback.MinimumForgetsZero`);
  `Tempo.ZeroUnsetMinIsMinimum` says exactly when they are minima.
- A flush resizes the held PCM to one frame and so can cut it (`OpusNormalizer.FlushCanCut`);
  `OpusNormalizer.FlushKeepsAllIff` says exactly when it keeps everything. More than a frame is held only after a
  push found no encoder or failed to encode, and every push since then failed (`OpusNormalizer.MoreThanAFrameHeld`).

## Model

| member | source | states |
|---|---|---|
| `Rtp.ParseInvertsEncode` | crates/discord-voice-service-voice/src/rtp.rs:43-92 | parsing any header laid out as sections 5.1 and 5.3.1 of RFC 3550 prescribe, with every CSRC count and extension length and any payload behind it, returns exactly its fields and its length |
| `Rtp.ParseInvertsBuild` | crates/discord-voice-service-voice/src/rtp.rs:26-34 | every header the builder writes parses back to the same SSRC, sequence and timestamp, twelve bytes, no padding |
| `Rtp.BuiltBytes` | crates/discord-voice-service-voice/src/rtp.rs:26-34 | byte by byte: 128, 120, then sequence, timestamp and SSRC with the most significant byte first |
| `Rtp.ParseOkIff` | crates/discord-voice-service-voice/src/rtp.rs:43-92 | a packet parses exactly when its first byte says version 2 and it is long enough for the fixed part, the CSRC list and the extension it announces |
| `Rtp.ParsedLengthBounds` | crates/discord-voice-service-voice/src/rtp.rs:43-92 | a parsed header covers the fixed part, the CSRC list and the extension header and lies inside the packet |
| `Rtp.ParseIsLocal` | crates/discord-voice-service-voice/src/rtp.rs:43-92 | parsing depends only on the first `header_len` bytes |
| `Rtp.AdvanceAllFixpoint` | crates/discord-voice-service-voice/src/rtp.rs:125-130 | a cursor returns to itself exactly when the packets number a multiple of 2^16 and last a multiple of 2^32 samples |
| `Protection.UnprotectInvertsProtect` | crates/discord-voice-service-voice/src/protection.rs:41-151 | for a correct AEAD and a header that parses to its own length, a protected packet is the header, the ciphertext, the tag and the nonce, in that order; unprotecting gives back header and payload; only a malformed RTP padding count can make it fail; the nonce can be read back |
| `Protection.BuiltPacketRoundTrip` | crates/discord-voice-service-voice/src/protection.rs:41-151 | every packet the service builds survives the round trip verbatim |
| `Protection.LayoutRoundTrip` | crates/discord-voice-service-voice/src/protection.rs:128-151 | any RFC 3550 header survives; with padding set, unprotect succeeds exactly when the last payload byte n is between 1 and the payload length, and then returns the payload without its last n bytes |
| `Protection.ProtectionContext.ProtectPacket` | crates/discord-voice-service-voice/src/protection.rs:41-87 | the nonce counter moves on every attempt, also a failed one, and the bytes are those sealed under the nonce drawn |
| `Protection.ProtectionContext.UnprotectPacket` | crates/discord-voice-service-voice/src/protection.rs:89-151 | refines the unprotect function the round-trip laws are about |
| `Egress.PackUnpack` | crates/discord-voice-service-voice/src/udp.rs:278-289 | unpacking inverts packing, and a packed cursor fits 48 bits |
| `Egress.UnpackPack` | crates/discord-voice-service-voice/src/udp.rs:278-289 | packing inverts unpacking on every 48-bit word, so comparing words is comparing cursors |
| `Egress.VoicePacketPreparer.PrepareAudioPacket` | crates/discord-voice-service-voice/src/udp.rs:50-82 | a zero duration changes nothing; otherwise the cursor is reserved and the nonce drawn even if protection fails, and a prepared packet carries the reserved cursor, the drawn nonce and the protected bytes |
| `Egress.VoicePacketPreparer.DiscardUnsentPreparedPackets` | crates/discord-voice-service-voice/src/udp.rs:84-87 | the reservation is rewound to the cursor read, and a nonce once drawn stays drawn |
| `Egress.VoicePreparedPacketSender.LoadAndCheck` | crates/discord-voice-service-voice/src/udp.rs:126-137 | the load check passes exactly for a packet that carries the current cursor |
| `Egress.VoicePreparedPacketSender.CompareExchange` | crates/discord-voice-service-voice/src/udp.rs:139-151 | the compare-exchange on packed words succeeds exactly when the cursor is still the packet's, and then advances it by that packet |
| `Egress.VoicePreparedPacketSender.SendPreparedPacket` | crates/discord-voice-service-voice/src/udp.rs:122-152 | an undisturbed send is Ok exactly when the packet is next and the socket accepts it; a refused or failed send leaves the cursor alone |
| `Egress.TakePrepareStep` | crates/discord-voice-service-voice/src/udp.rs:50-82 | a call of the preparer is exactly a Prepare step of the step system, with nonce counter and attempts in step, and an Ok call adds its packet |
| `Egress.TakeDiscardStep` | crates/discord-voice-service-voice/src/udp.rs:84-87 | a discard at the current cursor is exactly a Discard step |
| `Egress.TakeLoadStep` | crates/discord-voice-service-voice/src/udp.rs:126-137 | the load section is exactly a Load step and passes when the step does |
| `Egress.TakeSwapStep` | crates/discord-voice-service-voice/src/udp.rs:139-151 | the compare-exchange section is exactly a Swap step: Ok when the packet joins the Ok sends, else refused |
| `Egress.OkSendsFormOneChain` | crates/discord-voice-service-voice/src/udp.rs:122-156 | for any number of clones and any interleaving of prepare, discard, load, socket and compare-exchange, the sends that return Ok form one contiguous RTP chain and the shared cursor is (Oks mod 2^16, their samples mod 2^32) |
| `Egress.SwapSucceedsIff` | crates/discord-voice-service-voice/src/udp.rs:139-150 | a compare-exchange succeeds exactly when the Ok sends since the load number a multiple of 2^16 and last a multiple of 2^32 samples |
| `Egress.SwapSucceedsWithinWindow` | crates/discord-voice-service-voice/src/udp.rs:139-150 | within 65536 sends it succeeds exactly when nobody else's send returned Ok in between |
| `Egress.WireIsAccountedFor` | crates/discord-voice-service-voice/src/udp.rs:122-152 | the wire holds, with multiplicity, exactly the Ok sends, the sends waiting for their compare-exchange and those refused at it; a packet is there more often than it was sent Ok exactly when a send of it is waiting or was refused |
| `Egress.SingleSenderIsNeverRefused` | crates/discord-voice-service-voice/src/udp.rs:122-152 | duplicates need a clone: in every run without one no compare-exchange is refused, and the wire carries exactly the Ok sends in order, and at most the one packet waiting for its compare-exchange |
| `Egress.ClonesCanDuplicateOnTheWire` | crates/discord-voice-service-voice/src/udp.rs:122-152 | the converse fails: a run in which two clones put the same packet on the wire and one returns Ok |
| `Egress.DiscardDuringSend` | crates/discord-voice-service-voice/src/udp.rs:257-260 | after a discard, the reservation meets the cursor exactly when the sends that completed since number a multiple of 2^16 and last a multiple of 2^32 samples |
| `Egress.DiscardDuringSendRefusesNext` | crates/discord-voice-service-voice/src/udp.rs:257-260 | a run in which a discard taken during a send makes the next prepared packet repeat a sent cursor and be refused |
| `Egress.NonceReuse` | crates/discord-voice-service-voice/src/protection.rs:41-45 | two protected packets share a nonce exactly when their attempts agree mod 2^32; within 2^32 attempts never, whatever discards reuse sequence numbers |
| `Egress.NonceOrderIff` | crates/discord-voice-service-voice/src/udp.rs:126-150 | for any clones, interleavings and discards, within 2^32 attempts, the nonces of the Ok sends strictly increase if and only if the packets were sent in the order they were prepared |
| `Egress.StalePacketBreaksNonceOrder` | crates/discord-voice-service-voice/src/udp.rs:126-150 | a run that sends out of that order: a packet kept across a discard is sent after a newer one, and nonces go backwards on the wire |
| `FifoCaller.ReservedIsSentPlusQueue` | crates/discord-voice-service-voice/src/udp.rs:50-87 | for every first-in, first-out caller that drops its queue at each discard, the reserved cursor is the sent cursor advanced by everything reserved since, each queued packet sits at its place, and an empty queue means equality |
| `FifoCaller.HeadAcceptedIff` | crates/discord-voice-service-voice/src/udp.rs:122-152 | the head of the queue is accepted exactly when the packets lost in front of it number a multiple of 2^16 and last a multiple of 2^32 samples; once loaded its compare-exchange succeeds |
| `FifoCaller.NeverRefused` | crates/discord-voice-service-voice/src/udp.rs:122-152 | a FIFO caller that drops its queue at each discard, whose protection calls succeed and who drops nothing else, is never refused |
| `FifoCaller.SentNoncesIncrease` | crates/discord-voice-service-voice/src/protection.rs:41-45 | within 2^32 attempts the nonces of a FIFO caller's Ok sends strictly increase, whether it drops its queue at a discard or rewinds and keeps it |
| `EgressEvidence.FifoRunPassesBothCheckers` | crates/discord-voice-service-live-validation/src/controller.rs:3244-3325 | the log of every FIFO run, whatever it does with its queue at a discard, passes the controller's order check, and an observer that receives its packets accepts them all wherever its baselines are reset, through all wrap-arounds |
| `RawSendLog.CheckEvent` | crates/discord-voice-service-live-validation/src/controller.rs:3249-3322 | no complaint exactly when the event is well formed, follows the one before it and raises the nonce |
| `RawSendLog.ValidateRawSendEventOrder` | crates/discord-voice-service-live-validation/src/controller.rs:3244-3325 | accepts exactly the logs whose events are numbered, whose sequence and timestamp chain with wrap-around, whose times do not go back and whose nonces strictly increase over the whole log |
| `RawSendLog.OrderedMeaning` | crates/discord-voice-service-live-validation/src/controller.rs:3244-3325 | in an accepted log event k has number k, the first sequence number plus k mod 2^16 and the first timestamp plus all samples in between mod 2^32, and no send completes before an earlier one |
| `Tempo.ZeroUnsetMinMeaning` | crates/discord-voice-service-live-validation/src/audio.rs:349-358 | the running minimum with 0 as "unset" is the least value since the last genuine 0 |
| `Tempo.ZeroUnsetMinIsMinimum` | crates/discord-voice-service-live-validation/src/controller.rs:3399-3404 | it is the true minimum exactly when no 0 was recorded or the last value recorded is 0 |
| `Tempo.StartsDecompose` | crates/discord-voice-service-playback/src/pacer.rs:75-128 | without fast intervals, the last start is the first start plus all earlier durations plus all lateness |
| `Tempo.PacedRunTempo` | crates/discord-voice-service-live-validation/src/controller.rs:3478-3525 | a run without fast intervals is never counted fast, and is counted slow exactly when 49 times its lateness exceeds its media |
| `Tempo.RatioMeaning` | crates/discord-voice-service-live-validation/src/controller.rs:3518-3525 | a ratio r of media to wall clock has r * wall <= 1,000,000 * media < (r + 1) * wall, below saturation |
| `Tempo.LoggedTempo` | crates/discord-voice-service-live-validation/src/controller.rs:3478-3526 | a logged window is fast exactly when 1,000,000 * media >= 1,020,001 * wall and slow exactly when 1,000,000 * media < 980,000 * wall, where no sum saturates |
| `Tempo.ObservedTempo` | crates/discord-voice-service-live-validation/src/audio.rs:460-605 | the same of an observed window, media and wall clock in whole microseconds; a window without a whole microsecond of either counts as slow |
| `Tempo.NeverObservedFast` | crates/discord-voice-service-live-validation/src/audio.rs:460-605 | arrivals that never came early are never counted as fast |
| `Tempo.MaxOfIsMaximum` | crates/discord-voice-service-live-validation/src/controller.rs:3506-3507 | the running maximum is the maximum |
| `RawPlayback.SegmentsAreMaximalRuns` | crates/discord-voice-service-live-validation/src/controller.rs:3336-3376 | every segment is a maximal run of consecutive track events |
| `RawPlayback.SegmentPerRun` | crates/discord-voice-service-live-validation/src/controller.rs:3336-3376 | there are as many segments as places where a track run starts |
| `RawPlayback.Gather` | crates/discord-voice-service-live-validation/src/controller.rs:3336-3376 | the first loop collects exactly the tracks, segments, media time and boundary-silence count of the log, and fails exactly when a track event lacks its position |
| `RawPlayback.Measure` | crates/discord-voice-service-live-validation/src/controller.rs:3378-3410 | the second loop computes the segmented wall clock, the fast intervals and the rolling windows of the segments |
| `RawPlayback.AddFastIntervals` | crates/discord-voice-service-live-validation/src/controller.rs:3389-3405 | counts and minimises exactly the intervals shorter than the earlier packet |
| `RawPlayback.MinimumForgetsZero` | crates/discord-voice-service-live-validation/src/controller.rs:3399-3404 | sends at 0, 0 and 10 ms, whose fast intervals are 0 and 10 ms and whose recorded minimum ends at 10 ms |
| `RawPlayback.AddTempoWindows` | crates/discord-voice-service-live-validation/src/controller.rs:3406-3409 | tallies every rolling window of 50 packets of the segment |
| `RawPlayback.TallyMeaning` | crates/discord-voice-service-live-validation/src/controller.rs:3478-3517 | the running tally is the number of windows, of fast, slow and post-source ones, their maximum ratio and their zero-unset minimum |
| `RawPlayback.CheckPositions` | crates/discord-voice-service-live-validation/src/controller.rs:3420-3466 | no complaint exactly when every track send continues the source or skips at most 1 ms |
| `RawPlayback.RecomputeRawPlayback` | crates/discord-voice-service-live-validation/src/controller.rs:3327-3467 | succeeds exactly on positioned, continuous logs, with the figures of their tracks and segments |
| `RawPlayback.FiguresMeaning` | crates/discord-voice-service-live-validation/src/controller.rs:3336-3418 | for every positioned log: packet and boundary-silence counts; media time as the saturated sum of the track durations and wall clock as the saturated sum over segments of last start - first start + last duration, each with 1000 ms <= us < 1000 ms + 1000; their ratio in millionths, rounded down |
| `RawPlayback.DurationMeaning` | crates/discord-voice-service-live-validation/src/controller.rs:3527-3529 | the duration of n samples is the whole microseconds in n / 48 kHz |
| `RawPlayback.PostSourceIff` | crates/discord-voice-service-live-validation/src/controller.rs:3494-3499 | a window is past the source buffer exactly when its first packet starts 240,000 samples or more into the source |
| `RawPlayback.LateTwoPackets` | crates/discord-voice-service-live-validation/src/controller.rs:3378-3418 | two 20 ms sends started 25 ms apart: 40 ms of media over 45 ms of wall clock |
| `RawPlayback.HeardIntervals` | crates/discord-voice-service-live-validation/src/controller.rs:3420-3466 | between any two track packets, across pauses too, the source position moves by the samples sent between them plus at most 48 per packet (unless the 64-bit position saturated) |
| `RawPlayback.ZeroFastIntervals` | crates/discord-voice-service-live-validation/src/controller.rs:3378-3418 | with media in every track packet, zero fast intervals implies strictly increasing starts in each segment, no fast window and an aggregate ratio of at most 1,000,000 ppm |
| `RawPlayback.MediaOfSegments` | crates/discord-voice-service-live-validation/src/controller.rs:3336-3376 | the segments carry all the media of the track sends |
| `Pacer.AudioPacer.MarkSent` | crates/discord-voice-service-playback/src/pacer.rs:89-117 | the next deadline is the real send start plus the duration; the clock is reset exactly when the packet is at least one duration late |
| `Pacer.AudioPacer.WaitFor` | crates/discord-voice-service-playback/src/pacer.rs:62-87 | a wait that returns `late` after the deadline moves the deadline to that start plus the duration |
| `Pacer.PacedStretch` | crates/discord-voice-service-playback/src/pacer.rs:62-117 | in a stretch with no explicit reset, start n is the first deadline plus all earlier durations plus all lateness |
| `Pacer.StretchSpacing` | crates/discord-voice-service-playback/src/pacer.rs:75-117 | each start is at least one duration after the one before it |
| `Pacer.StretchLogIsPaced` | crates/discord-voice-service-playback/src/pacer.rs:75-128 | the log of a stretch, with starts truncated to microseconds, is a paced log |
| `Pacer.PacedLogIsNeverFast` | crates/discord-voice-service-live-validation/src/controller.rs:3378-3418 | a paced log yields no fast interval, no fast window and no ratio above 1,000,000 ppm in the batch recomputation, in spite of the truncation of times |
| `Pacer.PacedWindowIsSlowIff` | crates/discord-voice-service-live-validation/src/controller.rs:3478-3525 | a window of a paced log is counted slow exactly when 49 times the lateness after its first packet exceeds its media duration |
| `Observer.AudioValidationAccumulator.RecordInterArrival` | crates/discord-voice-service-live-validation/src/audio.rs:320-426 | the clock fields after one arrival |
| `Observer.AudioValidationAccumulator.RecordTiming` | crates/discord-voice-service-live-validation/src/audio.rs:454-605 | pushes the timing and counts the latest long, short and medium window |
| `Observer.AudioValidationAccumulator.ObservePacketAt` | crates/discord-voice-service-live-validation/src/audio.rs:191-293 | a packet that does not decode or breaks continuity is rejected and changes nothing; any other is accepted whole |
| `Observer.AudioValidationAccumulator.ResetInterArrivalBaseline` | crates/discord-voice-service-live-validation/src/audio.rs:626-632 | forgets times, timings and the timestamp, keeps the sequence number |
| `Observer.AudioValidationAccumulator.ResetWallClockBaselineAfterControlledPause` | crates/discord-voice-service-live-validation/src/audio.rs:638-643 | forgets times and timings only |
| `Observer.OnlineEqualsBatch` | crates/discord-voice-service-live-validation/src/audio.rs:320-605 | on every accepted trace with any resets: the active wall clock is the sum over reset-delimited segments of (last start - first start + last duration) for non-decreasing arrivals, its subtraction never saturates, a segment of n packets contributes max(0, n-249) long and max(0, n-24) + max(0, n-49) short windows, and fast and slow counts are those of the windows inside segments whose media exceeds 102% or falls below 98% of their wall clock |
| `Observer.BeatMeaning` | crates/discord-voice-service-live-validation/src/audio.rs:265-289 | what is noted of a packet: its arrival, its declared duration in whole nanoseconds, and the whole milliseconds of audio decoded before it |
| `Observer.PostSourceIff` | crates/discord-voice-service-live-validation/src/audio.rs:489-495 | a long window is past the source buffer exactly when five seconds of audio were decoded before its first packet |
| `Observer.CountsArePackets` | crates/discord-voice-service-live-validation/src/audio.rs:265-267 | packet count and decoded audio are those of the trace |
| `Observer.UnhurriedIsNeverFast` | crates/discord-voice-service-live-validation/src/audio.rs:454-605 | an accepted trace whose packets never come early inside a segment has no fast window |
| `Observer.OnlineIntervalsEqualBatch` | crates/discord-voice-service-live-validation/src/audio.rs:320-372 | the gap and fast-interval counts are those of neighbouring packets inside segments, none across a reset |
| `Observer.AcceptedIff` | crates/discord-voice-service-live-validation/src/audio.rs:428-452 | the next packet is accepted exactly when it decodes, its sequence follows, and its timestamp follows unless a baseline reset came in between |
| `Observer.ChainIsAccepted` | crates/discord-voice-service-live-validation/src/audio.rs:428-452 | a contiguous RTP chain is accepted whole wherever the resets fall |
| `Matching.NoneOpenIff` | crates/discord-voice-service-live-validation/src/controller.rs:3653-3676 | pairing each rebuild with the oldest open drop of its identity is optimal: no drop stays open exactly when some injective assignment of later rebuilds exists |
| `PlayoutLedger.NoneUnrecoveredIff` | crates/discord-voice-service-live-validation/src/controller.rs:3776-3799 | the unrecovered count is zero exactly when an injective map sends every counted drop to a later Rebuilt event of the same identity |
| `PlayoutLedger.Record` | crates/discord-voice-service-live-validation/src/controller.rs:3637-3678 | one event changes the track count exactly as it changes the list of open drops, plus one for a drop without identity; the saturating subtraction never saturates |
| `PlayoutLedger.ValidateRawPreparedPlayoutQueueEvents` | crates/discord-voice-service-live-validation/src/controller.rs:3614-3718 | accepts exactly the well-formed logs below the high watermark, with track enqueues and dequeues, whose reported counts are those of the log |
| `PlayoutLedger.ValidateDroppedFrames` | crates/discord-voice-service-live-validation/src/controller.rs:3881-3896 | passes exactly when all four drop counts are zero, in spite of saturating addition |
| `PlayoutLedger.ValidateBudget` | crates/discord-voice-service-live-validation/src/controller.rs:3614-3718 | both checks pass exactly when the log is well formed with zero reports and a recovery of every counted drop exists |
| `LiveContract.LiveContractState.ObserveEvent` | crates/discord-voice-service-live-validation/src/contract.rs:770-875 | an event is accepted exactly when it is tolerated by what was seen before, and a rejected event changes nothing |
| `LiveContract.AcceptedIff` | crates/discord-voice-service-live-validation/src/contract.rs:770-875 | a trace is accepted whole exactly when every event is tolerated given which kinds occurred before it, and the flags then say just that |
| `LiveContract.AcceptedIffObeyed` | crates/discord-voice-service-live-validation/src/contract.rs:770-875 | the same, rule by rule: no fatal or interrupted event; nothing of the connection or of a new track while playing; each event of the track preceded by what it needs, up to ready, buffered and resumed before the end; and ids of the expected video |
| `LiveContract.TrimIff` | crates/discord-voice-service-live-validation/src/contract.rs:963 | trimming an id gives `video` exactly when `video` has no outer white space and the id is `video` with white space around it |
| `LiveContract.SpacesAreWhiteSpace` | crates/discord-voice-service-live-validation/src/contract.rs:963 | what is trimmed are the 25 characters with the White_Space property of Unicode |
| `LiveContract.ExpectedIff` | crates/discord-voice-service-live-validation/src/contract.rs:958-1000 | the two id checks, said on the id the event carries |
| `LiveContract.AcceptedIds` | crates/discord-voice-service-live-validation/src/contract.rs:770-875 | in every accepted trace each TrackResolving, Buffering, Playing, Paused and TrackEnded event carries the expected id, white space around it aside |
| `LiveContract.EndedTraces` | crates/discord-voice-service-live-validation/src/contract.rs:770-875 | every accepted trace that reaches TrackEnded holds TrackResolving < Buffering < first Playing < Paused < Playing < first TrackEnded, all carrying the id of the expected video, a VoiceReady before the first Playing, and nothing disturbing between first Playing and first TrackEnded |
| `OpusNormalizer.DiscordOpusFrameNormalizer.PushPacket` | crates/discord-voice-service-playback/src/media/opus_normalizer.rs:36-66 | state and frames after one packet, on every path |
| `OpusNormalizer.DiscordOpusFrameNormalizer.FlushFrames` | crates/discord-voice-service-playback/src/media/opus_normalizer.rs:68-76 | state and frames after a flush |
| `OpusNormalizer.DiscordOpusFrameNormalizer.DecodePacket` | crates/discord-voice-service-playback/src/media/opus_normalizer.rs:78-120 | appends the stereo PCM of the packet, mono doubled, or reports the first error and appends nothing |
| `OpusNormalizer.DiscordOpusFrameNormalizer.EmitReadyFrames` | crates/discord-voice-service-playback/src/media/opus_normalizer.rs:155-198 | drains full frames until fewer than 960 samples are held or encoding fails |
| `OpusNormalizer.DecodedPcm` | crates/discord-voice-service-playback/src/media/opus_normalizer.rs:78-120 | a packet decodes exactly when it has a first byte and a duration and the decoder for one channel, or for two if bit 0x04 of that byte is set, gives one value per sample and channel; place j of the result is value j of a stereo packet and value j / 2 of a mono packet; and which error comes otherwise |
| `OpusNormalizer.TocLayout` | crates/discord-voice-service-playback/src/media/opus_normalizer.rs:207-210 | the stereo flag in the layout of section 3.1 of RFC 6716 |
| `OpusNormalizer.PassthroughIsVerbatim` | crates/discord-voice-service-playback/src/media/opus_normalizer.rs:36-63 | a 960-sample stereo packet that finds nothing held goes out as it is, at the next position or its own timestamp |
| `OpusNormalizer.FrameFields` | crates/discord-voice-service-playback/src/media/opus_normalizer.rs:155-198 | a frame says 20 ms, 960 samples and its position, also in whole milliseconds |
| `OpusNormalizer.RechunkingIsExact` | crates/discord-voice-service-playback/src/media/opus_normalizer.rs:36-119 | after any Ok pushes frame k carries 960 samples at position first + 960 k, frames and held PCM are the decoded inputs in order whether or not passthrough was taken, fewer than 960 samples are held, and next position and held samples add up to first timestamp plus all samples |
| `OpusNormalizer.PushOkIff` | crates/discord-voice-service-playback/src/media/opus_normalizer.rs:36-119 | a push succeeds exactly when the packet is passed through, or it decodes, an encoder exists and every frame it completes can be encoded |
| `OpusNormalizer.FlushPadsOnce` | crates/discord-voice-service-playback/src/media/opus_normalizer.rs:68-76 | from any state, an Ok flush emits exactly one frame at the next position if and only if PCM is held: the held PCM padded with silence, or its first 960 samples if more is held |
| `OpusNormalizer.SilenceIsZero` | crates/discord-voice-service-playback/src/media/opus_normalizer.rs:68-76 | the padding is zeros |
| `OpusNormalizer.FlushKeepsAllIff` | crates/discord-voice-service-playback/src/media/opus_normalizer.rs:68-76 | from any state and whether or not it succeeds, a flush keeps all held PCM if and only if no more than a frame is held; otherwise it keeps exactly the first frame |
| `OpusNormalizer.PushLeaves` | crates/discord-voice-service-playback/src/media/opus_normalizer.rs:36-66 | what a push leaves held on each path, also when it fails: the leading frames that encode are gone, the rest stays, and the next position has moved by the samples that went out |
| `OpusNormalizer.MoreThanAFrameHeld` | crates/discord-voice-service-playback/src/media/opus_normalizer.rs:155-175 | over all runs of pushes and flushes, whatever they return: more than a frame is held only after a push that decoded but found no encoder or failed to encode, followed by nothing but failed pushes |
| `OpusNormalizer.FlushCanCut` | crates/discord-voice-service-playback/src/media/opus_normalizer.rs:68-76 | a codec without an encoder and a packet after which the flush cuts the held PCM |
| `OpusQueue.OpusFrameQueue.Push` | crates/discord-voice-service-playback/src/media/opus_queue.rs:184-195 | pushes exactly when count, bytes and duration leave room |
| `OpusQueue.QueueIsAccurate` | crates/discord-voice-service-playback/src/media/opus_queue.rs:184-195 | whatever is pushed into a new queue, it counts the bytes and samples of its frames and exceeds none of its three limits |
| `OpusQueue.RefusedIff` | crates/discord-voice-service-playback/src/media/opus_queue.rs:237-244 | such a queue refuses a frame exactly when it would be one too many or too many bytes or samples |
| `OpusQueue.FullIff` | crates/discord-voice-service-playback/src/media/opus_queue.rs:227-231 | such a queue is full exactly when its frames, their bytes or their samples reach a limit |
| `OpusQueue.DrainKeepsAccurate` | crates/discord-voice-service-playback/src/worker.rs:164-175 | draining keeps the counters and the limits |
| `OpusQueue.EnqueueKeepsAccurate` | crates/discord-voice-service-playback/src/worker.rs:177-191 | so does an enqueue |
| `OpusQueue.DrainKeepsOrder` | crates/discord-voice-service-playback/src/worker.rs:164-175 | draining keeps the order of queue and waiting frames and stops only at a frame that does not fit |
| `OpusQueue.EnqueueConserves` | crates/discord-voice-service-playback/src/worker.rs:177-191 | an enqueue loses and duplicates nothing, whatever the limits |
| `OpusQueue.EnqueueKeepsOrderIff` | crates/discord-voice-service-playback/src/worker.rs:182-188 | with nothing waiting, an enqueue keeps the order exactly when no frame after the first refused one fits the queue at that point |
| `OpusQueue.ByteLimitCanReorder` | crates/discord-voice-service-playback/src/worker.rs:182-188 | two full frames and a byte limit for which a short frame overtakes a long one |
| `OpusQueue.RoomyNeverOvertakes` | crates/discord-voice-service-playback/src/media/opus_queue.rs:237-244 | full frames of at most b bytes are never overtaken when slots or duration run out before bytes |
| `OpusQueue.RuntimeQueueIsRoomy` | crates/discord-voice-service-runtime/src/session/runtime.rs:44-45 | with the limits of the runtime this holds for frames of up to 4096 bytes |
| `PlaybackPipeline.PathRefines` | crates/discord-voice-service-playback/src/worker.rs:112-191 | over every path of drain, read, buffer and flush steps no frame is lost or duplicated, nothing leaves the queue and the failure ahead stays the same; order is kept too where the byte limit never decides |
| `PlaybackPipeline.PathKeepsOrderIff` | crates/discord-voice-service-playback/src/worker.rs:112-191 | over every such path the order of the stream is kept if and only if no enqueue on it let a frame overtake a refused one: a later step cannot undo a reordering |
| `PlaybackPipeline.PathRunsInto` | crates/discord-voice-service-playback/src/worker.rs:112-162 | a path that ends where the stream fails next has staged every frame before the failure |
| `PlaybackWorker.Worker.DrainPendingFrames` | crates/discord-voice-service-playback/src/worker.rs:164-175 | refines the draining function, and reports whether nothing waits |
| `PlaybackWorker.Worker.EnqueueFrames` | crates/discord-voice-service-playback/src/worker.rs:177-191 | refines the enqueue function |
| `PlaybackWorker.Worker.BufferPacket` | crates/discord-voice-service-playback/src/worker.rs:193-201 | pushes the packet through the normalizer and enqueues its frames; an error enqueues nothing |
| `PlaybackWorker.Worker.BufferChunk` | crates/discord-voice-service-playback/src/worker.rs:145-158 | the packets of a chunk are buffered one step each or handed to the source, none beyond the one that meets the target; on an error the stream fails next, every frame before that is staged, and the failing packet and all packets of the chunk behind it are gone |
| `PlaybackWorker.Worker.BufferNext` | crates/discord-voice-service-playback/src/worker.rs:129-158 | the next packet, chunk or flush is a path of steps and decreases (unread chunks, pending packets), or reports the end; on an error the stream fails next, and what is gone is the failing packet alone if it was waiting in the source, that packet and all behind it if its chunk had just been read, or the failed read |
| `PlaybackWorker.Worker.FillOnce` | crates/discord-voice-service-playback/src/worker.rs:121-158 | one turn of the loop, drain and then the next packet, chunk or flush, with the same guarantees |
| `PlaybackWorker.Worker.FillQueueToDurationMs` | crates/discord-voice-service-playback/src/worker.rs:112-162 | a call walks a path of steps, each below the target. Ok: it stops only at the target, a full queue, an unfitting frame or the end; the stream of frames (queue, waiting frames, held PCM, demuxed packets, unread stream) is the same multiset, and the same sequence if and only if no enqueue of the call let a frame overtake a refused one. Err: exactly the failure the stream runs into, all frames before it staged, and only the failing packet (with the rest of a chunk just read) or the failed read gone. On a stream without failures every call is Ok; it always terminates |
| `PlaybackStream.StreamIsRechunking` | crates/discord-voice-service-playback/src/worker.rs:112-201 | the stream of a new worker is the re-chunking of all packets of its source: 960-sample slices of their PCM in order, the last one padded |
| `SourceRecovery.OpenFromPosition` | crates/discord-voice-service-playback/src/recovery.rs:180-244 | keeps exactly the overlapping packets of the chunks read and reads no chunk more than needed; fails with "ended before resume" exactly when the whole stream ends before the position, at once exactly on an empty stream, and with a read failure exactly when one is met before the chunks read suffice |
| `SourceRecovery.ResumeKeepsEverything` | crates/discord-voice-service-playback/src/recovery.rs:180-255 | over a gap-free stream that starts by r and extends past it, kept and unread packets are in order exactly those ending after r, and the first contains r |
| `SourceRecovery.FirstResumedFrame` | crates/discord-voice-service-playback/src/worker.rs:42-61 | the first frame after resuming at r has position p with p <= r < p + first packet duration |
| `PlaybackStream.ResumedStream` | crates/discord-voice-service-playback/src/recovery.rs:180-255 | a source resumed at r over a gap-free stream makes a new worker play the re-chunking of exactly the packets ending after r, and the first frame, be it only the flush's, has a position p with p <= r < p + first packet duration |
| `HttpStream.AcceptedBodyStartsAtOffset` | crates/discord-voice-service-playback/src/media/http_stream.rs:227-306 | a response passes the checks only if the body it declares (from its Content-Range start for a 206, from byte 0 otherwise) starts at the requested offset |
| `HttpStream.ReplyDecides` | crates/discord-voice-service-playback/src/media/http_stream.rs:170-185 | a read that has to open a response is decided by status, Content-Range and offset: 416 past the start reports the end, any other 400 to 599 fails with that status, a body from elsewhere is refused, each after that one moment; a 206 from the offset, or a success from byte 0, is read on with the ends it declares |
| `HttpStream.BreakDecides` | crates/discord-voice-service-playback/src/media/http_stream.rs:116-168 | when an open response ends or breaks off, the end is reported exactly if nothing is known to be missing; a response that brought nothing fails the read; any other is opened anew at the place reached |
| `HttpStream.ReadContinues` | crates/discord-voice-service-playback/src/media/http_stream.rs:93-147 | whatever the network does, a chunk continues exactly where the last one ended, and anything else leaves the offset alone; that an accepted body starts at the offset is proved from the checks on status and Content-Range |
| `HttpStream.ReadEndsHonestly` | crates/discord-voice-service-playback/src/media/http_stream.rs:149-185 | with a server that answers 416 only past the end and whose bodies declare where the resource ends, the end is reported only at the end |
| `HttpStream.ReadExplained` | crates/discord-voice-service-playback/src/media/http_stream.rs:93-185 | a read without data used a prefix of the network's moments, and the last of them, by its status, its range or its failure, or their running out, is the reason for its result |
| `HttpStream.PieceIsReturned` | crates/discord-voice-service-playback/src/media/http_stream.rs:116-120 | the piece an open response brings is what the read returns, up to the size of a chunk |
| `HttpStream.HttpOpusStream.SetResumeOffset` | crates/discord-voice-service-playback/src/media/http_stream.rs:84-91 | the stream stands at the given offset, any offset, with no response and nothing pending |
| `HttpStream.HttpOpusStream.TakePendingChunk` | crates/discord-voice-service-playback/src/media/http_stream.rs:187-200 | returns the first pending bytes, at most 64 KiB, and advances by them |
| `HttpStream.HttpOpusStream.Receive` | crates/discord-voice-service-playback/src/media/http_stream.rs:116-144 | the whole effect of one piece, end or error of the open response: every byte received is kept |
| `HttpStream.HttpOpusStream.ReadChunk` | crates/discord-voice-service-playback/src/media/http_stream.rs:93-147 | the same state, the same network moments used and the same result as the moment-by-moment definition the laws above are about |
| `HttpStream.PlaybackSource.ResetStreamToCurrentByteOffset` | crates/discord-voice-service-playback/src/source.rs:66-69 | keeps the place and the bytes returned so far |
| `HttpStream.PlaybackSource.ReplaceResolvedStreamAtCurrentByteOffset` | crates/discord-voice-service-playback/src/source.rs:71-80 | a new stream at the same place of the same content |
| `HttpStream.PlaybackSource.Read` | crates/discord-voice-service-playback/src/recovery.rs:305-310 | one timed read, recorded in the history; what it returns continues the bytes returned so far, always a prefix of the resource |
| `HttpStream.PlaybackRecovery.ReresolveSteadySource` | crates/discord-voice-service-playback/src/recovery.rs:128-142 | re-resolves once, only with a video id, and keeps the place |
| `HttpStream.PlaybackRecovery.ReadWithRetry` | crates/discord-voice-service-playback/src/recovery.rs:101-106 | the reads recorded are one, or two exactly when the first timed out, the second on a stream set anew at the same place |
| `HttpStream.PlaybackRecovery.ReresolveAndRead` | crates/discord-voice-service-playback/src/recovery.rs:107-117 | one question to the resolver and, if it answers, one replaced stream and one more recorded read at the same place |
| `HttpStream.PlaybackRecovery.ReadStreamChunk` | crates/discord-voice-service-playback/src/recovery.rs:96-121 | for any pattern of timeouts, stale statuses, ignored or misread ranges, short or broken responses and re-resolutions, the bytes of successive Ok reads are a gapless, non-repeating prefix of the resource; the recorded reads, genuine and accounting for every network moment used, are at most three: one retry exactly after a first timeout, one more exactly after a successful re-resolve, which is asked for exactly after a stale or timed-out read with a video id |
| `HttpStream.ExpiredUrlIsReresolved` | crates/discord-voice-service-playback/src/recovery.rs:96-121 | a call whose first request is answered 401, 403, 404 or 410 is not retried; with a video id the resolver is asked, and the next read is the answer |
| `PauseProof.TailIsCleanRun` | crates/discord-voice-service-live-validation/src/controller.rs:1354-1364 | the consecutive counter counts exactly a run of stop-silence frames with no other audio, RTP or microphone event inside |
| `PauseProof.TailIsLongest` | crates/discord-voice-service-live-validation/src/controller.rs:1354-1364 | no such run holds more frames than the counter |
| `PauseProof.HadFiveIff` | crates/discord-voice-service-live-validation/src/controller.rs:1354-1364 | the five-frame flag is set exactly when five stop-silence frames with nothing disturbing between them were seen |
| `PauseProof.SilenceDeadlineIs` | crates/discord-voice-service-live-validation/src/controller.rs:1354-1425 | the silence deadline is 600 ms after the fifth frame or the last disappearance of speaking, whichever came last |
| `PauseProof.NoSilenceDeadline` | crates/discord-voice-service-live-validation/src/controller.rs:1354-1425 | before either of these there is none |
| `PauseProof.DeadlineMeaning` | crates/discord-voice-service-live-validation/src/controller.rs:1299-1312 | the wait ends at that deadline, else ten seconds after the start, else 600 ms after the last activity once audio was heard |
| `PauseProof.NoneRejectedIff` | crates/discord-voice-service-live-validation/src/controller.rs:1343-1440 | nothing is rejected exactly when no audio or RTP came after five frames and no speaking after it had stopped |
| `PauseProof.ConclusionMeaning` | crates/discord-voice-service-live-validation/src/controller.rs:1314-1342 | what is concluded at the deadline: silence exactly after five frames, an unproved end after 600 ms without activity or after speaking stopped, a failure otherwise |
| `PauseProof.Turn` | crates/discord-voice-service-live-validation/src/controller.rs:1299-1465 | one turn either brings an acceptable activity in time, stamped with the time its poll ended, or ends the proof as the poll determines |
| `PauseProof.ProveObserverPauseSilence` | crates/discord-voice-service-live-validation/src/controller.rs:1284-1466 | history, time stamps, time of return and result are exactly those the polls determine: each event arrived in time and was not to be rejected, and the last poll, or the deadline it missed, gives the result |
| `PauseProof.EndIsUnique` | crates/discord-voice-service-live-validation/src/controller.rs:1284-1466 | that description determines them: two ends of the same polls are the same |
| `PauseProof.SilenceFlagIff` | crates/discord-voice-service-live-validation/src/controller.rs:1314-1342 | the silence flag is set exactly when five such frames were seen and nothing came before the deadline, and then the return is not before the deadline |
| `PauseProof.SilenceIsProved` | crates/discord-voice-service-live-validation/src/controller.rs:1354-1385 | then the polls show five stop-silence frames with nothing disturbing between them, and neither audio nor RTP in the 600 ms or more from the end of the fifth frame's poll to the return |
| `PauseProof.ValidatePause` | crates/discord-voice-service-live-validation/src/controller.rs:1996-2008 | a pause is marked validated exactly then: five stop-silence frames with no other audio, undecoded RTP or microphone event between them, then at least 600 ms of the polls' own time with no audio and no RTP before the proof returned |
| `BoundarySilence.LongestIsUpperBound` | crates/discord-voice-service-live-validation/src/controller.rs:4518-4549 | no run of boundary silence is longer than the longest run |
| `BoundarySilence.LongestIsAttained` | crates/discord-voice-service-live-validation/src/controller.rs:4518-4549 | some run has that length |
| `BoundarySilence.PauseSilenceEvidence` | crates/discord-voice-service-live-validation/src/controller.rs:4518-4549 | reports the length and the spacings of a longest run |
| `BoundarySilence.ValidateRunSpacing` | crates/discord-voice-service-live-validation/src/controller.rs:3228-3242 | passes exactly when all four spacings are 15 to 45 ms |
| `BoundarySilence.WellSpacedIff` | crates/discord-voice-service-live-validation/src/controller.rs:3228-3242 | well spaced means 15,000 to 45,999 us from send to send |
| `BoundarySilence.SpacingMeaning` | crates/discord-voice-service-live-validation/src/controller.rs:4518-4549 | a reported spacing is the time between two sends in whole milliseconds |
| `BoundarySilence.ValidatePauseBoundarySpacing` | crates/discord-voice-service-live-validation/src/controller.rs:3210-3226 | accepts exactly when a five-packet run exists and the first one is well spaced |
| `BoundarySilence.AcceptedSpacingHasFive` | crates/discord-voice-service-live-validation/src/controller.rs:3210-3226 | a log that passed the spacing check reports at least five boundary-silence packets |
| `QueueDepth.StatisticsAreDetermined` | crates/discord-voice-service-live-validation/src/controller.rs:3720-3749 | the depth statistics do not depend on how the unstable sort breaks ties, except for which of several depths of one duration is reported: counts, last sample and all percentile durations agree for any two sorts |
| `QueueDepth.StatisticsBound` | crates/discord-voice-service-live-validation/src/controller.rs:3720-3749 | the reported least and greatest durations bound every sample |
| `QueueDepth.StatisticsMeaning` | crates/discord-voice-service-live-validation/src/controller.rs:3720-3749 | the statistics of any samples: their number, how many are empty, the last one, and the nearest-rank 5th, 50th and 95th percentile by duration, said without a sort |
| `QueueDepth.SplitSamples` | crates/discord-voice-service-live-validation/src/controller.rs:3546-3563 | the samples split by phase in order, refused exactly when one is out of sequence or of no phase |
| `QueueDepth.ValidateRawPreparedTrackQueueSamples` | crates/discord-voice-service-live-validation/src/controller.rs:3538-3612 | accepts exactly when the reported statistics before the pause and after the resume, and the totals, are those recomputed from the raw samples |
| `QueueDepth.ValidatePreparedTrackQueueMetrics` | crates/discord-voice-service-live-validation/src/controller.rs:2912-3026 | accepts exactly the reports with the configured watermarks, depths within bounds in each phase sampled, and totals that add up |
| `QueueDepth.NeverEmpty` | crates/discord-voice-service-live-validation/src/controller.rs:2912-3026 | an accepted report means the queue was sampled before the pause and that no raw sample, before or after, found it empty |
| `PlaybackBudget.ValidateRawPlaybackEvidence` | crates/discord-voice-service-live-validation/src/controller.rs:3062-3204 | accepts exactly when the log is in order, the raw queue samples and the ledger agree with their reports, the source is continuous, the reported figures are those recomputed (ratios within 2 ppm) and a required pause shows |
| `PlaybackBudget.ValidatePlaybackTimingBudget` | crates/discord-voice-service-live-validation/src/controller.rs:3812-4231 | accepts exactly when source buffer, timings and queue depths are measured and within bounds, frames add up, drops are zero, windows are complete, all tempo and playout counters are zero and the raw evidence holds |
| `PlaybackBudget.ValidateFinishedPlaybackMetrics` | crates/discord-voice-service-live-validation/src/controller.rs:2808-2857 | accepts exactly the snapshots of the expected video, ended, of 50 packets or more, with refill samples, within the budget with windows and a pause required, and with 500 windows past the source buffer |
| `PlaybackBudget.ValidateReconnectProbe` | crates/discord-voice-service-live-validation/src/controller.rs:4233-4261 | accepts exactly the snapshots of the expected video, not ended, with a reconnect and a track packet, within the budget without windows or a pause required |
| `PlaybackBudget.AcceptedPlayback` | crates/discord-voice-service-live-validation/src/controller.rs:3812-4231 | a snapshot within the budget comes from a log in RTP and nonce order with no early packet and no fast or slow window, a ratio between 98% and 2 ppm above real time, every counted drop rebuilt, a source that moved by the samples sent plus at most 48 per packet, and a prepared queue never sampled empty; and its packet count, media time, wall clock and rolling windows are those the log shows |
| `PlaybackBudget.TwoPacketsAreAccepted` | crates/discord-voice-service-live-validation/src/controller.rs:3805-3826 | the budget of a probe can be met: two packets 20 ms apart, enqueued, dequeued and sent on time, reported as they were, are accepted; two, since one packet has no interval and is refused |
| `PlaybackBudget.SomePlaybackIsAccepted` | crates/discord-voice-service-live-validation/src/controller.rs:3805-4231 | such a snapshot exists in full, with a sort that keeps its promise: the demands of the budget do not exclude each other |
| `EvidenceGate.RequiredDurationsAgree` | crates/discord-voice-service-live-validation/src/controller.rs:1819-1827 | the controller's saturating formula and the gate's unbounded one agree on every 64-bit duration |
| `EvidenceGate.RequiredDurationIs` | crates/discord-voice-service-live-validation/src/controller.rs:1819-1827 | all of up to 6 s, nine tenths but at least 6 s of up to 20 s, all but 2 s beyond |
| `EvidenceGate.ObserverThresholdFailureReason` | crates/discord-voice-service-live-validation/src/controller.rs:1640-1752 | names a missed threshold exactly when the thresholds are not all satisfied |
| `EvidenceGate.AcceptRun` | crates/discord-voice-service-live-validation/src/controller.rs:2225-2255 | a run is accepted exactly when configuration, duration, pause and resume proofs, observer thresholds, both snapshots and the contract coverage all hold |
| `EvidenceGate.ValidatePlaybackMetrics` | scripts/ci/validate_live_staging_evidence.py:161-179 | adds no failure exactly when the playback metrics pass |
| `EvidenceGate.ValidateReconnectProbeMetrics` | scripts/ci/validate_live_staging_evidence.py:182-188 | adds no failure exactly when the probe metrics pass |
| `EvidenceGate.ValidateEvidence` | scripts/ci/validate_live_staging_evidence.py:124-157 | the gate is silent exactly on the evidence that passes |
| `EvidenceGate.EveryFlagIsRequired` | scripts/ci/validate_live_staging_evidence.py:19-48 | the flags the gate lists are all there are |
| `EvidenceGate.PlaybackZeroIs` | scripts/ci/validate_live_staging_evidence.py:50-79 | of a finished playback the gate demands a zero of every counter but the seven that only the controller reads |
| `EvidenceGate.AcceptedRunsPassTheGate` | scripts/ci/validate_live_staging_evidence.py:124-212 | a run the controller accepts passes the gate exactly when its playback crossed a pause boundary, the one thing only the gate checks |

## Left out

- Cipher internals, key expansion and the nonce layouts of the two AEAD modes; the codec's internal state from packet to packet.
- Decoded amplitude statistics, anomaly classification, opus-duration evidence and the speed-change and fastest/slowest-window records of the observer.
- 64-bit saturation of event counters that count packets or calls, other than where a row mentions it; `PlayoutLedger` requires a log of fewer than 2^64 events instead.
- The `PlaybackPosition` the worker updates in `record_buffered`, the worker's `prepare` and `reset`, and the fallback between reopening and resolving in `recover`: they only sequence the operations modelled.
- The WebM demuxer: a chunk yields a sequence of packets or an error. The two opening attempts of `read_opening_chunk` are one read that may fail.
- The artificial read delay of the HTTP stream, and its metrics other than the retry and re-resolve counts.
- `pop`, `push_front` and the epoch operations of the frame queue, and a frame's epoch and byte position.
- `stop_audio`, discovery, WebSocket, gRPC and DAVE: input and output or other components.
- How the service computes the interval and duration percentiles it reports: the budget validator only compares them. The overflow of the validator's one unsaturated addition of frame counts.
- `reset_deadline` and `reset_after_interruption_at` of the pacer are modelled as the setters they are and have no row: they end a stretch.
- The `mark_*` methods, `ensure_complete` messages and `VoiceContextTracker`: each would only add easy members.
- The evidence gate's JSON typing (missing keys, non-integers): the controller writes every key with its type.
- RawPlayback.HeardIntervals: the lower bound is not claimed for a position that has saturated at 2^64 - 1, where the source's own comparison saturates too.
- Tempo.PacedRunTempo: stated for runs of less than 2^63 microseconds of media, beyond which the source's 64-bit sums saturate; a window of 50 packets is always below.
- Pacer.PacedStretch: the spinning part of the precise sleep is only its contract, a return at or after the deadline.
- LiveContract.EndedTraces: about traces in which every event was accepted, as the controller stops at the first rejected one.
