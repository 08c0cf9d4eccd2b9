# Voice recorder bookkeeping, in Dafny

This project models the bookkeeping core of an Android voice recorder.

- **Capture thread.** It reads 1600-byte frames of 16 kHz mono 16-bit PCM. A
  speech flag follows the voice detector's "start" and "end" events. Each
  complete frame is queued together with that flag.
- **Save thread.** It groups frames into seconds of twenty frames. A second
  counts as voiced when more than five of its frames are. Voiced seconds open
  a segment. A segment is closed and written as a WAV file in three cases:
  - after ten silent seconds, with the trailing silence trimmed, but only if
    the segment has at least five voiced seconds;
  - at the 300-second limit;
  - when recording stops.
- **WAV encoding.** It fills the canonical 44-byte RIFF WAVE header in place,
  little-endian, in front of the PCM payload.
- **Silero VAD wrappers**, one in Java and one in Kotlin.
  - They validate and downsample a chunk.
  - They reset the recurrent state when the rate or the batch size changes.
  - They glue the previous chunk's tail in front of the new chunk, run the
    model, and keep the new tail.
- **`VoiceFrame`** has structural `equals` and `hashCode`.

Modules:

- `Jvm` (`jvm.dfy`) holds the JVM semantics the code relies on: 32-bit `Int`
  wrap-around, truncating division, signed bytes, `Option` and `Result`.
- `Frames` (`voice_frame.dfy`) holds `VoiceFrame` and its equality and hash.
- `Wav` (`wav.dfy`) holds the header as a value and a reader for it. It also
  holds `writeInt`, `writeShort` and the header construction, written as
  methods over a 44-byte `array`.
- `Segmentation` (`segmentation.dfy`) holds the save loop in two forms:
  - a specification on a value (`SaveState`, `OnFrame`, `OnStop`);
  - the class `SaveLoop`, whose fields are those of the save runnable. Its
    methods are proved to follow the specification. Its `written` field lists
    the files sent to the output target.
- `Capture` (`capture.dfy`) holds the speech latch and the capture loop, with
  the class `Recorder`.
- `SileroCommon` (`silero_common.dfy`) holds what both wrappers share:
  - validation and downsampling;
  - the reset rule;
  - context concatenation and carry;
  - the call after validation, as a function.
- `SileroJava` (`silero_java.dfy`) and `SileroKotlin` (`silero_kotlin.dfy`)
  hold the two wrapper classes. Each follows its own file. Where the two
  files differ, lemmas state the difference.

In these places the code's behaviour is worth noting; the model follows
the code:

- When a voiced second finds the segment at the 300-second limit, that
  second's own audio is dropped. Afterwards no segment is open; the next
  voiced second opens a new one.
- A saved file can hold up to 309 seconds: the limit plus up to nine silent
  seconds that were appended before the limit was checked.
- The bits-per-sample field of the header is always 16, whatever
  `bitsPerSample` is. Only the byte rate and the block align use that
  argument.
- The Kotlin `validateInput` downsamples a multiple of 16000 but returns the
  caller's rate. So the Kotlin wrapper then uses the 8 kHz window sizes and
  remembers the original rate.
- If the model run throws, the state reset and the context creation that
  come before it have already happened, and they stay.

## Model

| member | source | states |
|---|---|---|
| Jvm.Wrap32 | app/src/main/java/com/stitchcodes/recording/service/VoiceFrame.kt:17-18 | The result of an `Int` operation lies in the 32-bit range and agrees with the exact result modulo 2^32. When the exact result fits, it is unchanged. |
| Jvm.DivTrunc | app/src/main/java/com/stitchcodes/recording/service/VoiceRecordHandler.kt:245-246 | `Int` division rounds toward zero: the remainder `a - q * b` lies in `[0, b)` for a non-negative dividend and in `(-b, 0]` for a negative one. |
| Jvm.SignedByte | app/src/main/java/com/stitchcodes/recording/service/VoiceFrame.kt:17 | A `byte[]` element is read as a value in -128..127 that is congruent to the stored bit pattern modulo 256. |
| Frames.ContentHash | app/src/main/java/com/stitchcodes/recording/service/VoiceFrame.kt:17 | `contentHashCode` is always an `Int`, and it is 1 for an empty array. |
| Frames.HashCode | app/src/main/java/com/stitchcodes/recording/service/VoiceFrame.kt:16-20 | The hash is an `Int` congruent to `31 * contentHash + Boolean.hashCode` modulo 2^32. |
| Frames.Equals | app/src/main/java/com/stitchcodes/recording/service/VoiceFrame.kt:4-14 | The specification of `equals`: true for the same reference, false for null or another class, otherwise a comparison of byte contents and flags. Its meaning is stated by `EqualsIffSameValue`. |
| Frames.ContentEqualsIsEquality | app/src/main/java/com/stitchcodes/recording/service/VoiceFrame.kt:10 | `contentEquals` holds exactly when the two byte sequences are equal. |
| Frames.EqualsReflexive | app/src/main/java/com/stitchcodes/recording/service/VoiceFrame.kt:4-14 | A frame equals itself, whether or not the reference is the same. |
| Frames.NotEqualToNullOrOtherClass | app/src/main/java/com/stitchcodes/recording/service/VoiceFrame.kt:6 | A frame never equals null or an object of another class. |
| Frames.EqualsIffSameValue | app/src/main/java/com/stitchcodes/recording/service/VoiceFrame.kt:4-14 | Two frames are equal if and only if their byte contents and their flags agree. |
| Frames.EqualFramesHashEqual | app/src/main/java/com/stitchcodes/recording/service/VoiceFrame.kt:4-20 | Equal frames have equal hash codes. |
| Frames.FlagChangesHash | app/src/main/java/com/stitchcodes/recording/service/VoiceFrame.kt:18 | Frames with the same bytes and opposite flags hash differently. |
| Wav.LE32 | app/src/main/java/com/stitchcodes/recording/service/VoiceRecordHandler.kt:289-294 | `writeInt` produces exactly four bytes. |
| Wav.LE16 | app/src/main/java/com/stitchcodes/recording/service/VoiceRecordHandler.kt:296-299 | `writeShort` produces exactly two bytes. |
| Wav.ByteRate | app/src/main/java/com/stitchcodes/recording/service/VoiceRecordHandler.kt:245 | `sampleRate * channels * bitsPerSample / 8` with `Int` wrap-around and truncating division. `RecorderRates` gives its value for the recorder. |
| Wav.BlockAlign | app/src/main/java/com/stitchcodes/recording/service/VoiceRecordHandler.kt:246 | `channels * bitsPerSample / 8` with the same `Int` semantics. `RecorderRates` gives its value for the recorder. |
| Wav.Header | app/src/main/java/com/stitchcodes/recording/service/VoiceRecordHandler.kt:249-275 | The specification of the 44 header bytes. `HeaderRoundTrip` states what a reader finds in them. |
| Wav.WavBytes | app/src/main/java/com/stitchcodes/recording/service/VoiceRecordHandler.kt:277-280 | The specification of the bytes written: the header, then the payload. `HeaderRoundTrip` and `EncodingInjective` state its meaning. |
| Wav.LE32RoundTrip | app/src/main/java/com/stitchcodes/recording/service/VoiceRecordHandler.kt:289-294 | Reading the four bytes back as unsigned little-endian gives the value modulo 2^32. |
| Wav.LE16RoundTrip | app/src/main/java/com/stitchcodes/recording/service/VoiceRecordHandler.kt:296-299 | Reading the two bytes back gives the value modulo 2^16. |
| Wav.ParseLayout | app/src/main/java/com/stitchcodes/recording/service/VoiceRecordHandler.kt:249-275 | A reader of any header laid out this way, followed by any payload, finds the four tags and recovers every field modulo its width. The payload follows unchanged. |
| Wav.HeaderRoundTrip | app/src/main/java/com/stitchcodes/recording/service/VoiceRecordHandler.kt:244-279 | The file is a 44-byte header followed by the unchanged payload. A reader recovers: RIFF size = payload + 36; fmt size 16; format 1; the channel count; the sample rate; the byte rate; the block align; bits per sample 16; data size = payload length. |
| Wav.RecorderFormatRoundTrip | app/src/main/java/com/stitchcodes/recording/service/VoiceRecordHandler.kt:238-279 | With the recorder's defaults (16 kHz, mono, 16 bits), a reader finds exactly that format, a byte rate of 32000, a block align of 2, and the exact payload length. |
| Wav.RecorderRates | app/src/main/java/com/stitchcodes/recording/service/VoiceRecordHandler.kt:245-246 | At 16 kHz mono 16-bit, the byte rate is 32000 and the block align is 2. |
| Wav.EncodingInjective | app/src/main/java/com/stitchcodes/recording/service/VoiceRecordHandler.kt:244-279 | Different payloads in the same format give different file bytes. |
| Wav.WriteInt | app/src/main/java/com/stitchcodes/recording/service/VoiceRecordHandler.kt:289-294 | Stores the four little-endian bytes of the value at the offset and leaves every other header byte as it was. |
| Wav.WriteShort | app/src/main/java/com/stitchcodes/recording/service/VoiceRecordHandler.kt:296-299 | Stores the two little-endian bytes at the offset and leaves every other header byte as it was. |
| Wav.WriteRiffDescriptor | app/src/main/java/com/stitchcodes/recording/service/VoiceRecordHandler.kt:251-259 | Bytes 0-11 become `RIFF`, the RIFF size and `WAVE`; the rest of the header is kept. |
| Wav.WriteFmtChunk | app/src/main/java/com/stitchcodes/recording/service/VoiceRecordHandler.kt:260-270 | Bytes 12-35 become the `fmt ` sub-chunk; the rest of the header is kept. |
| Wav.WriteFmtFormat | app/src/main/java/com/stitchcodes/recording/service/VoiceRecordHandler.kt:260-266 | Bytes 12-23 become `fmt `, 16, 1 and the channel count. |
| Wav.WriteFmtRates | app/src/main/java/com/stitchcodes/recording/service/VoiceRecordHandler.kt:267-270 | Bytes 24-35 become the sample rate, the byte rate, the block align and the constant 16. |
| Wav.WriteDataHeader | app/src/main/java/com/stitchcodes/recording/service/VoiceRecordHandler.kt:271-275 | Bytes 36-43 become `data` and the data size; bytes 0-35 are kept. |
| Wav.FillHeader | app/src/main/java/com/stitchcodes/recording/service/VoiceRecordHandler.kt:249-275 | The three writers run in sequence on a 44-byte array. The array then holds exactly the canonical layout of the given fields; no later write undoes an earlier one. |
| Wav.EncodeWav | app/src/main/java/com/stitchcodes/recording/service/VoiceRecordHandler.kt:244-279 | The bytes written to the stream are the header filled in place followed by the payload. Its parsed form is what `HeaderRoundTrip` states. |
| Segmentation.InitialInv | app/src/main/java/com/stitchcodes/recording/service/VoiceRecordHandler.kt:117-141 | The save loop's initial fields satisfy the loop invariant. |
| Segmentation.OnFrame | app/src/main/java/com/stitchcodes/recording/service/VoiceRecordHandler.kt:151-197 | The specification of one loop iteration: gather the frame, then settle the second on every twentieth frame. Its properties are the lemmas below, from `OnFramePreservesInv` to `OnFrameSavesWellFormed`. |
| Segmentation.OnSecond | app/src/main/java/com/stitchcodes/recording/service/VoiceRecordHandler.kt:155-197 | The specification of the settlement: the voiced or silent branch, then the append while a segment is open, then the clear. `OnSecondSaved` states when it saves. |
| Segmentation.VoicedSecond | app/src/main/java/com/stitchcodes/recording/service/VoiceRecordHandler.kt:158-172 | The specification of the voiced branch. `VoicedSecondAppends` and `OverLimitFlushesAndDrops` state its two outcomes. |
| Segmentation.SilentSecond | app/src/main/java/com/stitchcodes/recording/service/VoiceRecordHandler.kt:173-189 | The specification of the silent branch. `SilentSecondAppendsWhileOpen` and `TimeoutTrimsTrailingSilence` state its outcomes. |
| Segmentation.AppendSecond | app/src/main/java/com/stitchcodes/recording/service/VoiceRecordHandler.kt:191-194 | The specification of the append: only while a segment is open. `SilentSecondAppendsWhileOpen` states both cases. |
| Segmentation.OnStop | app/src/main/java/com/stitchcodes/recording/service/VoiceRecordHandler.kt:199-204 | The specification of the flush after the loop. `OnStopSavesOnlyLongSegments` states its condition in both directions. |
| Segmentation.Reset | app/src/main/java/com/stitchcodes/recording/service/VoiceRecordHandler.kt:208-213 | The specification of `resetSaveState`: the segment is closed, and the silence count is kept. `ResetInv` and the timeout lemma state its effect. |
| Segmentation.TrimmedLength | app/src/main/java/com/stitchcodes/recording/service/VoiceRecordHandler.kt:227-231 | The length `trimLastSeconds` keeps, clamped at zero. `TrimKeepsPrefix` states it for the loop's arguments. |
| Segmentation.TrimSilence | app/src/main/java/com/stitchcodes/recording/service/VoiceRecordHandler.kt:220-236 | The specification of the trim with the loop's arguments. `TrimKeepsPrefix` and `TrimAtTimeout` state what it keeps. |
| Segmentation.InvBounds | app/src/main/java/com/stitchcodes/recording/service/VoiceRecordHandler.kt:166-193 | Under the invariant, a segment never exceeds 309 seconds (309 × 32000 bytes), and its voiced-second count never exceeds its length. |
| Segmentation.OnFramePreservesInv | app/src/main/java/com/stitchcodes/recording/service/VoiceRecordHandler.kt:151-197 | Every full frame keeps the invariant. The scratch buffer holds whole frames, and the segment holds whole 32000-byte seconds. `voiceInDuration` counts the segment's voiced seconds. The segment's last `countNoVoice` seconds are silent and the second before them is voiced. |
| Segmentation.MidSecondOnlyGathers | app/src/main/java/com/stitchcodes/recording/service/VoiceRecordHandler.kt:151-155 | Between boundaries a frame is appended to the scratch buffer and counted if voiced. Nothing else changes and nothing is saved. |
| Segmentation.BoundaryEveryTwentiethFrame | app/src/main/java/com/stitchcodes/recording/service/VoiceRecordHandler.kt:151-196 | The frame index cycles modulo 20. The twentieth frame clears the scratch buffer and the voiced-frame count. |
| Segmentation.VoicedIffMoreThanFive | app/src/main/java/com/stitchcodes/recording/service/VoiceRecordHandler.kt:155-176 | A second with more than five voiced frames zeroes the silence count. Any other second, including one with exactly five, increments it. |
| Segmentation.VoicedSecondAppends | app/src/main/java/com/stitchcodes/recording/service/VoiceRecordHandler.kt:158-194 | Below the limit, a voiced second keeps the open name or takes the fresh one, and counts one more voiced second. It appends the whole second to the segment and saves nothing. |
| Segmentation.SilentSecondAppendsWhileOpen | app/src/main/java/com/stitchcodes/recording/service/VoiceRecordHandler.kt:173-194 | Before the timeout, a silent second extends an open segment by the whole second. It leaves a closed segment closed and empty. |
| Segmentation.TimeoutTrimsTrailingSilence | app/src/main/java/com/stitchcodes/recording/service/VoiceRecordHandler.kt:176-189 | At the tenth silent second the segment is closed without that second, and the silence count stays at 10. With five or more voiced seconds it is saved minus exactly its last nine seconds; otherwise it is dropped. Those nine seconds are silent, the last kept second is voiced, and every voiced second is kept. |
| Segmentation.TrimAtTimeout | app/src/main/java/com/stitchcodes/recording/service/VoiceRecordHandler.kt:177-182 | At the timeout, the trim keeps exactly the segment's seconds up to its last voiced one. |
| Segmentation.OverLimitFlushesAndDrops | app/src/main/java/com/stitchcodes/recording/service/VoiceRecordHandler.kt:166-172 | A voiced second at 300 or more saved seconds saves the segment as it is, and closes it with its counters zeroed. That second's audio is dropped. The saved audio is 300 to 309 seconds long. |
| Segmentation.OnStopSavesOnlyLongSegments | app/src/main/java/com/stitchcodes/recording/service/VoiceRecordHandler.kt:199-204 | The flush saves, untrimmed, if and only if a segment is open with at least 5 voiced and 10 saved seconds. The partial second is never saved. |
| Segmentation.TrimKeepsPrefix | app/src/main/java/com/stitchcodes/recording/service/VoiceRecordHandler.kt:220-236 | `trimLastSeconds` with its defaults keeps the prefix that leaves off the last 288000 bytes, or nothing when there are fewer. |
| Segmentation.SavedWavWellFormed | app/src/main/java/com/stitchcodes/recording/service/VoiceRecordHandler.kt:238-279 | Any payload of whole seconds, up to 309 of them, is written as a well-formed recording. |
| Segmentation.OnFrameSavesIff | app/src/main/java/com/stitchcodes/recording/service/VoiceRecordHandler.kt:155-190 | A frame saves a file if and only if it ends a second that is either voiced at the limit, or the tenth silent second of an open segment with at least five voiced seconds. |
| Segmentation.SavedFileContents | app/src/main/java/com/stitchcodes/recording/service/VoiceRecordHandler.kt:168-182 | A saved file holds the segment untrimmed when the limit was reached, and trimmed at the timeout. |
| Segmentation.OnFrameSavesWellFormed | app/src/main/java/com/stitchcodes/recording/service/VoiceRecordHandler.kt:155-197 | Every file the loop body saves parses back to the recorder's format and holds whole seconds, at most 309. |
| Segmentation.SegmentWellFormed | app/src/main/java/com/stitchcodes/recording/service/VoiceRecordHandler.kt:168-169 | Under the invariant, the open segment as it stands is a well-formed recording. |
| Segmentation.TrimmedWellFormed | app/src/main/java/com/stitchcodes/recording/service/VoiceRecordHandler.kt:180-182 | The segment trimmed at the timeout is a well-formed recording. |
| Segmentation.OnStopWellFormed | app/src/main/java/com/stitchcodes/recording/service/VoiceRecordHandler.kt:199-204 | The flush keeps the invariant and saves only well-formed recordings. |
| Segmentation.ResetInv | app/src/main/java/com/stitchcodes/recording/service/VoiceRecordHandler.kt:208-213 | `resetSaveState` keeps the invariant, even though it leaves the silence count as it is. |
| Segmentation.RunKeepsInv | app/src/main/java/com/stitchcodes/recording/service/VoiceRecordHandler.kt:145-198 | Over any run of full frames, whatever the output target at each frame, the invariant holds and every saved file is well formed. |
| Segmentation.WrittenAmongSaved | app/src/main/java/com/stitchcodes/recording/service/VoiceRecordHandler.kt:242 | Every file that reaches the output was saved by the loop. When an output target exists at every save, exactly the saved files are written, in order. |
| Segmentation.SessionWritesWellFormed | app/src/main/java/com/stitchcodes/recording/service/VoiceRecordHandler.kt:143-205 | Every file a session writes is a well-formed recording, from the initial state through the final flush, with any output target at each save. |
| Segmentation.SaveLoop.constructor | app/src/main/java/com/stitchcodes/recording/service/VoiceRecordHandler.kt:117-141 | The fields start at the initial state, which satisfies the invariant; nothing has been written. |
| Segmentation.SaveLoop.Step | app/src/main/java/com/stitchcodes/recording/service/VoiceRecordHandler.kt:151-197 | One iteration keeps the invariant and moves the fields as `OnFrame` does. It writes the saved file, if any, when an output target exists. |
| Segmentation.SaveLoop.Gather | app/src/main/java/com/stitchcodes/recording/service/VoiceRecordHandler.kt:151-154 | The frame is counted and buffered; nothing is written. |
| Segmentation.SaveLoop.Settle | app/src/main/java/com/stitchcodes/recording/service/VoiceRecordHandler.kt:155-197 | The end-of-second settlement follows `OnSecond`. |
| Segmentation.SaveLoop.SettleVoiced | app/src/main/java/com/stitchcodes/recording/service/VoiceRecordHandler.kt:158-172 | The voiced branch follows `VoicedSecond`. |
| Segmentation.SaveLoop.SettleSilent | app/src/main/java/com/stitchcodes/recording/service/VoiceRecordHandler.kt:173-189 | The silent branch follows `SilentSecond`. |
| Segmentation.SaveLoop.Shutdown | app/src/main/java/com/stitchcodes/recording/service/VoiceRecordHandler.kt:199-204 | The flush keeps the invariant and follows `OnStop`. |
| Segmentation.SaveLoop.ResetSaveState | app/src/main/java/com/stitchcodes/recording/service/VoiceRecordHandler.kt:208-213 | Closes the segment and keeps every other field. |
| Segmentation.SaveLoop.TrimLastSeconds | app/src/main/java/com/stitchcodes/recording/service/VoiceRecordHandler.kt:220-236 | Replaces the segment by its trimmed prefix (see `TrimKeepsPrefix`). |
| Segmentation.SaveLoop.SaveAsWav | app/src/main/java/com/stitchcodes/recording/service/VoiceRecordHandler.kt:238-286 | Without an output target nothing is written. Otherwise the file's bytes are the recorder's WAV encoding of the payload. |
| Segmentation.SaveLoop.Run | app/src/main/java/com/stitchcodes/recording/service/VoiceRecordHandler.kt:143-205 | The save thread keeps the invariant. It writes the files of `RunFrames` that found an output target, then the flush's file if a target exists at the flush, in order. |
| Segmentation.SaveLoop.Loop | app/src/main/java/com/stitchcodes/recording/service/VoiceRecordHandler.kt:145-198 | The frame loop follows `RunFrames`, frame by frame with that frame's output target, and writes its files in order. |
| Segmentation.SaveLoop.Advance | app/src/main/java/com/stitchcodes/recording/service/VoiceRecordHandler.kt:145-197 | One iteration of the loop keeps the invariant and extends the run by exactly one `OnFrame`. |
| Capture.LatchCases | app/src/main/java/com/stitchcodes/recording/service/VoiceRecordHandler.kt:102-109 | "end" clears the flag, even together with "start". "start" alone sets it. With neither key the flag is kept. |
| Capture.LatchForgetsOnEvent | app/src/main/java/com/stitchcodes/recording/service/VoiceRecordHandler.kt:102-109 | After either event, the flag no longer depends on its previous value. |
| Capture.LatchIgnoresOtherKeys | app/src/main/java/com/stitchcodes/recording/service/VoiceRecordHandler.kt:101-109 | Result keys other than "start" and "end" do not move the flag. |
| Capture.Latch | app/src/main/java/com/stitchcodes/recording/service/VoiceRecordHandler.kt:101-109 | The specification of the flag update. `LatchCases` states it in all three cases. |
| Capture.CaptureReads | app/src/main/java/com/stitchcodes/recording/service/VoiceRecordHandler.kt:97-111 | The specification of the capture loop over its reads. `CaptureQueuesCompleteFrames`, `LastQueuedCarriesFlag` and `IncompleteReadsIgnored` state its meaning. |
| Capture.CaptureQueuesCompleteFrames | app/src/main/java/com/stitchcodes/recording/service/VoiceRecordHandler.kt:97-111 | Exactly one frame is queued per complete read, and every queued frame is a full 1600-byte frame. |
| Capture.LastQueuedCarriesFlag | app/src/main/java/com/stitchcodes/recording/service/VoiceRecordHandler.kt:100-110 | A frame is queued with its read's bytes and with the flag as it stands right after that read. |
| Capture.IncompleteReadsIgnored | app/src/main/java/com/stitchcodes/recording/service/VoiceRecordHandler.kt:100 | An error or short read changes neither the flag nor the queue. |
| Capture.Recorder.constructor | app/src/main/java/com/stitchcodes/recording/service/VoiceRecordHandler.kt:94 | The flag starts false and the queue starts empty. |
| Capture.Recorder.CaptureFrame | app/src/main/java/com/stitchcodes/recording/service/VoiceRecordHandler.kt:98-111 | A complete read latches the flag and queues the buffer with the new flag. Any other read changes nothing. |
| Capture.Recorder.Run | app/src/main/java/com/stitchcodes/recording/service/VoiceRecordHandler.kt:97-112 | The loop ends with the flag of `CaptureReads`, and its frames are appended to the queue in order. |
| SileroCommon.Zeros | app/src/main/java/com/stitchcodes/recording/vad/sliero/SlieroVadOnnxModel.java:191 | A fresh `float` array has the requested length and is all zeros. |
| SileroCommon.ZeroState | app/src/main/java/com/stitchcodes/recording/vad/sliero/SlieroVadOnnxModel.java:89 | The reset state is `[2][batchSize][128]` zeros. |
| SileroCommon.DownsampleAll | app/src/main/java/com/stitchcodes/recording/vad/sliero/SlieroVadOnnxModel.java:130-147 | Downsampling keeps the channel count and downsamples each channel. |
| SileroCommon.Downsample | app/src/main/java/com/stitchcodes/recording/vad/sliero/SlieroVadOnnxModel.java:134-143 | Every `step`-th sample of a channel. `DownsampleAt` states its length and contents. |
| SileroCommon.DownsampleAt | app/src/main/java/com/stitchcodes/recording/vad/sliero/SlieroVadOnnxModel.java:134-143 | A downsampled channel has `ceil(len / step)` samples, and its k-th sample is the channel's `k * step`-th. |
| SileroCommon.StepBound | app/src/main/java/com/stitchcodes/recording/vad/sliero/SlieroVadOnnxModel.java:136-139 | The output index stays below `(len + step - 1) / step` exactly while `j` stays inside the channel, so the loop never overruns `newArr`. |
| SileroCommon.DownsampleChannel | app/src/main/java/com/stitchcodes/recording/vad/sliero/SlieroVadOnnxModel.java:135-142 | The per-channel downsampling gives exactly `Downsample`. |
| SileroCommon.FillEveryStep | app/src/main/java/com/stitchcodes/recording/vad/sliero/SlieroVadOnnxModel.java:138-140 | After the loop, `newArr[k]` is `current[k * step]` for every k. |
| SileroCommon.DownsampleBatch | app/src/main/java/com/stitchcodes/recording/vad/sliero/SlieroVadOnnxModel.java:132-145 | The outer loop downsamples every channel. |
| SileroCommon.ValidateOkIff | app/src/main/java/com/stitchcodes/recording/vad/sliero/SlieroVadOnnxModel.java:119-160 | Validation succeeds if and only if: there are one or two channels; the rate is 8000, 16000 or a multiple of 16000; and the first channel, after downsampling, holds at least 512 samples at 16 kHz or 256 at 8 kHz. |
| SileroCommon.ValidateResult | app/src/main/java/com/stitchcodes/recording/vad/sliero/SlieroVadOnnxModel.java:129-159 | A validated chunk keeps its channel count. A multiple of 16000 is downsampled and returns rate 16000; any other rate returns the chunk unchanged at the given rate. The first channel holds a full window. |
| SileroCommon.ValidateErrorOrder | app/src/main/java/com/stitchcodes/recording/vad/sliero/SlieroVadOnnxModel.java:125-157 | More than two channels is rejected first. Then an unsupported rate. Then a missing first channel. |
| SileroCommon.Validate | app/src/main/java/com/stitchcodes/recording/vad/sliero/SlieroVadOnnxModel.java:119-160 | The specification of `validateInput`, for every positive rate and every rate that is not a multiple of 16000. `ValidateOkIff`, `ValidateResult` and `ValidateErrorOrder` state its meaning. |
| SileroCommon.ConcatContext | app/src/main/java/com/stitchcodes/recording/vad/sliero/SlieroVadOnnxModel.java:194-201 | Each input row is the context row's first `contextSize` samples followed by the chunk row's first `numSamples`. A missing or short row is an index failure. |
| SileroCommon.WithContext | app/src/main/java/com/stitchcodes/recording/vad/sliero/SlieroVadOnnxModel.java:194-201 | The specification of the concatenation. `ConcatContext` implements it, and `ConsecutiveCallsOverlap` states its meaning across calls. |
| SileroCommon.Prepare | app/src/main/java/com/stitchcodes/recording/vad/sliero/SlieroVadOnnxModel.java:179-192 | The specification of the reset rule and the lazy context. `SteadyCallKeepsState`, `RateChangeResets`, `BatchChangeResets` and `FirstCallRecordsBatch` state each case. |
| SileroCommon.CarryContext | app/src/main/java/com/stitchcodes/recording/vad/sliero/SlieroVadOnnxModel.java:227-230 | The specification of the context update. `SuccessCarriesTail` states what each row then begins with. |
| SileroCommon.RunPrepared | app/src/main/java/com/stitchcodes/recording/vad/sliero/SlieroVadOnnxModel.java:194-234 | The specification of the call after preparation. `SuccessCarriesTail` and `FailedRunKeepsPreparedFields` state its outcomes. |
| SileroCommon.SteadyCallKeepsState | app/src/main/java/com/stitchcodes/recording/vad/sliero/SlieroVadOnnxModel.java:179-192 | At the remembered rate and batch size, with a context present, the reset rule changes nothing. |
| SileroCommon.RateChangeResets | app/src/main/java/com/stitchcodes/recording/vad/sliero/SlieroVadOnnxModel.java:179-192 | A new rate after a successful call gives a zero state and a zero context for the new batch, and forgets the rate and the batch size. |
| SileroCommon.BatchChangeResets | app/src/main/java/com/stitchcodes/recording/vad/sliero/SlieroVadOnnxModel.java:182-183 | At the remembered rate, or with none remembered, a new batch size after a successful call gives a zero state and a zero context for the new batch. It also forgets the rate and the batch size. |
| SileroCommon.FirstCallRecordsBatch | app/src/main/java/com/stitchcodes/recording/vad/sliero/SlieroVadOnnxModel.java:184-192 | The first call after a reset only records the batch size and creates a zero context. The state is kept. |
| SileroCommon.SuccessCarriesTail | app/src/main/java/com/stitchcodes/recording/vad/sliero/SlieroVadOnnxModel.java:194-233 | After success, the rate and the batch size are remembered. Each context row begins with input samples `[numSamples - contextSize, numSamples)` of its row. |
| SileroCommon.FailedRunKeepsPreparedFields | app/src/main/java/com/stitchcodes/recording/vad/sliero/SlieroVadOnnxModel.java:179-249 | When the run throws, the fields stay as the reset rule and the context creation left them. A call that needed no preparation changes nothing. |
| SileroCommon.ConsecutiveCallsOverlap | app/src/main/java/com/stitchcodes/recording/vad/sliero/SlieroVadOnnxModel.java:194-230 | For two successful calls in a row, each row of the second model input is the last `contextSize` samples of the first window followed by the second window. |
| SileroJava.RejectedChunkChangesNothing | app/src/main/java/com/stitchcodes/recording/vad/sliero/SlieroVadOnnxModel.java:170-171 | A chunk that fails validation throws its error and leaves every field as it was. |
| SileroJava.CallEffect | app/src/main/java/com/stitchcodes/recording/vad/sliero/SlieroVadOnnxModel.java:170-249 | The specification of `call`: validation, then the call after validation with the rate validation returns. The lemmas of `SileroJava` and `SileroCommon` state its meaning. |
| SileroJava.SuccessfulCallRemembersRate | app/src/main/java/com/stitchcodes/recording/vad/sliero/SlieroVadOnnxModel.java:170-234 | After success the remembered rate is 8000 or 16000, and it is 16000 for a multiple of 16000. The batch size is remembered and the context carries each row's tail. |
| SileroJava.WindowSize | app/src/main/java/com/stitchcodes/recording/vad/sliero/SlieroVadOnnxModel.java:175-177 | A validated call uses 512 + 64 samples at 16 kHz and 256 + 32 at 8 kHz. |
| SileroJava.ValidateInput | app/src/main/java/com/stitchcodes/recording/vad/sliero/SlieroVadOnnxModel.java:119-160 | The method with its loops returns exactly `Validate`. |
| SileroJava.SlieroVadOnnxModel.constructor | app/src/main/java/com/stitchcodes/recording/vad/sliero/SlieroVadOnnxModel.java:44-60 | A new wrapper has the reset fields for a batch of one. |
| SileroJava.SlieroVadOnnxModel.ResetStates | app/src/main/java/com/stitchcodes/recording/vad/sliero/SlieroVadOnnxModel.java:88-93 | A zero `[2][batchSize][128]` state, no context, and no remembered rate or batch size. |
| SileroJava.SlieroVadOnnxModel.Call | app/src/main/java/com/stitchcodes/recording/vad/sliero/SlieroVadOnnxModel.java:170-249 | The fields and the result are those of `CallEffect`. |
| SileroJava.SlieroVadOnnxModel.PrepareStates | app/src/main/java/com/stitchcodes/recording/vad/sliero/SlieroVadOnnxModel.java:179-192 | The reset rule and the lazy context follow `Prepare`. |
| SileroJava.SlieroVadOnnxModel.RunWindow | app/src/main/java/com/stitchcodes/recording/vad/sliero/SlieroVadOnnxModel.java:194-234 | The concatenation, the run and the field updates follow `RunPrepared`. |
| SileroJava.SlieroVadOnnxModel.UpdateContext | app/src/main/java/com/stitchcodes/recording/vad/sliero/SlieroVadOnnxModel.java:227-230 | Each context row's first `contextSize` samples become the tail of its input row; the other fields are kept. |
| SileroKotlin.ValidateKotlin | app/src/main/java/com/stitchcodes/recording/vad/sliero/SlieroVadOnnxModel2.kt:50-81 | A validated chunk carries the caller's rate, not the rate after downsampling. |
| SileroKotlin.CallEffect | app/src/main/java/com/stitchcodes/recording/vad/sliero/SlieroVadOnnxModel2.kt:83-139 | The specification of the Kotlin `call`. `AgreesWithJavaUnlessDownsampled` and `DownsampledRateDiverges` relate it to the Java call. |
| SileroKotlin.AgreesWithJavaUnlessDownsampled | app/src/main/java/com/stitchcodes/recording/vad/sliero/SlieroVadOnnxModel2.kt:50-139 | At every rate that is not a higher multiple of 16000, the Kotlin call is the Java call. |
| SileroKotlin.DownsampledRateDiverges | app/src/main/java/com/stitchcodes/recording/vad/sliero/SlieroVadOnnxModel2.kt:80-90 | At a higher multiple of 16000, Kotlin runs the downsampled chunk with 256 + 32 samples, the original rate, and remembers that rate. Java runs it with 512 + 64 samples at 16000. |
| SileroKotlin.SwitchBackTo16000Resets | app/src/main/java/com/stitchcodes/recording/vad/sliero/SlieroVadOnnxModel2.kt:92-98 | After a successful call at such a rate, a call at 16000 starts from a zero state and a zero context. |
| SileroKotlin.ValidateInput | app/src/main/java/com/stitchcodes/recording/vad/sliero/SlieroVadOnnxModel2.kt:50-81 | The method with its loops returns exactly `ValidateKotlin`. |
| SileroKotlin.SlieroVadOnnxModel2.constructor | app/src/main/java/com/stitchcodes/recording/vad/sliero/SlieroVadOnnxModel2.kt:21-29 | A new wrapper has the reset fields for a batch of one. |
| SileroKotlin.SlieroVadOnnxModel2.ResetStates | app/src/main/java/com/stitchcodes/recording/vad/sliero/SlieroVadOnnxModel2.kt:35-40 | A zero `[2][batchSize][128]` state, no context, and no remembered rate or batch size. |
| SileroKotlin.SlieroVadOnnxModel2.Call | app/src/main/java/com/stitchcodes/recording/vad/sliero/SlieroVadOnnxModel2.kt:83-139 | The fields and the result are those of the Kotlin `CallEffect`. |
| SileroKotlin.SlieroVadOnnxModel2.PrepareStates | app/src/main/java/com/stitchcodes/recording/vad/sliero/SlieroVadOnnxModel2.kt:92-102 | The reset rule and the lazy context follow `Prepare`. |
| SileroKotlin.SlieroVadOnnxModel2.RunWindow | app/src/main/java/com/stitchcodes/recording/vad/sliero/SlieroVadOnnxModel2.kt:104-132 | The concatenation, the run and the field updates follow `RunPrepared`. |
| SileroKotlin.SlieroVadOnnxModel2.UpdateContext | app/src/main/java/com/stitchcodes/recording/vad/sliero/SlieroVadOnnxModel2.kt:127-129 | Each context row's first `contextSize` samples become the tail of its input row; the other fields are kept. |

## Left out

- Threading and the queue between the two threads are not modelled. That
  includes `init`, `start`, `stop`, the handler threads, polling with a 20 ms
  sleep, and the clearing of the queue on stop. The save loop receives the
  queued frames as a sequence. The `isRecording` flag is the end of that
  sequence.
- The clock in `genSaveFileName` becomes a name passed to each step.
- The output target is looked up at every save. It becomes one
  `targetAvailable` flag per frame and one for the final flush, plus the
  `written` list.
  Not modelled: the storage access framework, the output stream, exceptions
  caught while writing, and the save-event broadcast.
- The voice detector `SlieroVadDetector` is not part of this model. The
  capture loop receives its result as the set of keys `events`. Thresholds,
  silence and padding are not modelled.
- Audio reads are inputs: each read is a count and a buffer.
- The ONNX session and `readAssetToBytes` are not modelled. Neither are tensor
  creation and closing, or `close()`. A call's inference is a function
  passed in, which either returns an output and a new state or throws.
- `float` samples are 32-bit patterns that are only copied. The too-short
  check `sr / len > 31.25` is the exact comparison `4 * sr > 125 * len`, which
  the float quotient matches at 8000 and 16000.
- The Silero calls are modelled for every positive rate and every rate that
  is not a multiple of 16000. Validation rejects every such rate other than
  8000 as unsupported.
  Zero and the negative multiples of 16000 are excluded. They give a
  downsampling step of zero or less. On such a step the source throws an
  exception that the wrappers do not handle: division by zero, an array
  size or index error, or, in Kotlin, the range `step` with a step that is
  not positive. Java differs when every channel of the batch is empty at a
  negative multiple. Each row then gets one or two zero samples and no loop
  iteration, and the chunk is rejected as too short.

- Java array-size limits and `Int` overflow of the downsampled length are not
  modelled.
- Segmentation.SaveLoop.Step: requires a full 1600-byte frame. The capture loop
  queues only full frames (`Capture.CaptureQueuesCompleteFrames`).
- Segmentation.SaveLoop.TrimLastSeconds: only the default arguments the save
  loop uses are modelled; `Int` overflow for other arguments is not.
- Segmentation.SaveLoop: `countNoVoice` is an unbounded integer. Its `Int`
  overflow would need 2^31 silent seconds.
- Logging is left out.
