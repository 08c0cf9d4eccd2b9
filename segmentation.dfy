/** The save loop of the voice recorder: frames are gathered into seconds,
    each second is judged voiced or silent, voiced seconds open a segment, and
    a segment is written out as a WAV file when speech stops for long enough,
    when it grows past the per-file limit, or when recording stops.

    The functions below state the loop body and the post-loop flush on a
    value (`SaveState`); the class `SaveLoop` is the same loop over mutable
    fields, proved to follow them. */
module Segmentation {
  import opened Jvm
  import opened Frames
  import Wav

  const SampleRate: int := 16000
  /** Frames per second. */
  const FrameCountSecond: int := 20
  /** A second is voiced when strictly more than this many of its frames are. */
  const ConfidenceSecond: int := 5
  /** Consecutive silent seconds after which an open segment is closed. */
  const NoVoiceTimeout: int := 10
  /** Seconds of audio after which a voiced second flushes the segment. */
  const FileSeconds: int := 60 * 5
  /** Voiced seconds a segment needs to be worth keeping. */
  const DurationSeconds: int := 5
  /** Bytes in one frame: 16-bit mono samples for a twentieth of a second. */
  const FrameBytes: int := 1600
  /** Bytes in one second of 16-bit mono PCM. */
  const SecondBytes: int := 32000
  /** The longest a segment can grow: the limit plus the silent seconds that may follow the last voiced second. */
  const MaxSegmentSeconds: int := FileSeconds + NoVoiceTimeout - 1

  /** A file handed to the output sink. */
  datatype WavFile = WavFile(fileName: string, bytes: seq<Byte>)

  /** `saveAsWav(pcm, name)` with the recorder's format. */
  function SavedWav(name: string, pcm: seq<Byte>): WavFile {
    WavFile(name, Wav.WavBytes(pcm, SampleRate, 1, 16))
  }

  /** The fields of the save loop. `voicedSeconds` is bookkeeping that the
      source does not keep: for each second appended to `pcmData`, whether it
      was voiced. */
  datatype SaveState = SaveState(
    voiceIndex: int,
    voiceInSecond: int,
    countNoVoice: int,
    dataInSecond: seq<Byte>,
    saveSeconds: int,
    pcmData: seq<Byte>,
    saveFileName: Option<string>,
    voiceInDuration: int,
    voicedSeconds: seq<bool>)

  const Initial: SaveState := SaveState(0, 0, 0, [], 0, [], None, 0, [])

  /** The state after one call, and the file it saved, if any. */
  datatype StepResult = StepResult(next: SaveState, saved: Option<WavFile>)

  /** The saved files of a call, as a sequence. */
  function Saves(saved: Option<WavFile>): seq<WavFile> {
    if saved.Some? then [saved.value] else []
  }

  /** Number of voiced seconds in a history. */
  function CountTrue(s: seq<bool>): nat {
    if s == [] then 0 else CountTrue(s[..|s| - 1]) + (if s[|s| - 1] then 1 else 0)
  }

  /** `resetSaveState`: closes the segment; `countNoVoice` is kept. */
  function Reset(s: SaveState): SaveState {
    s.(pcmData := [], saveFileName := None, voiceInDuration := 0, saveSeconds := 0, voicedSeconds := [])
  }

  /** The length `trimLastSeconds` keeps of `n` bytes. */
  function TrimmedLength(n: nat, sampleRate: nat, channels: nat, bitsPerSample: nat, secondsToTrim: nat): nat {
    var bytesToTrim := sampleRate * channels * (bitsPerSample / 8) * secondsToTrim;
    if n - bytesToTrim >= 0 then n - bytesToTrim else 0
  }

  /** `trimLastSeconds` with the arguments the save loop passes it: drops the
      last `NoVoiceTimeout - 1` seconds of 16 kHz mono 16-bit audio. */
  function TrimSilence(pcm: seq<Byte>): seq<Byte> {
    pcm[..TrimmedLength(|pcm|, SampleRate, 1, 16, NoVoiceTimeout - 1)]
  }

  /** The loop body for one frame taken from the queue. */
  function OnFrame(s: SaveState, frame: VoiceFrame, freshName: string): StepResult {
    var index := (s.voiceIndex + 1) % FrameCountSecond;
    var t := s.(voiceIndex := index, dataInSecond := s.dataInSecond + frame.bytes,
                voiceInSecond := if frame.hasVoice then s.voiceInSecond + 1 else s.voiceInSecond);
    if index != 0 then StepResult(t, None) else OnSecond(t, freshName)
  }

  /** The settlement at the end of a second. */
  function OnSecond(s: SaveState, freshName: string): StepResult {
    var voiced := s.voiceInSecond > ConfidenceSecond;
    var r := if voiced then VoicedSecond(s, freshName) else SilentSecond(s);
    var u := AppendSecond(r.next, voiced);
    StepResult(u.(dataInSecond := [], voiceInSecond := 0), r.saved)
  }

  /** The second's audio joins the segment when one is open after the
      settlement, and is discarded otherwise. */
  function AppendSecond(t: SaveState, voiced: bool): SaveState {
    if t.saveFileName.Some?
    then t.(pcmData := t.pcmData + t.dataInSecond, saveSeconds := t.saveSeconds + 1,
            voicedSeconds := t.voicedSeconds + [voiced])
    else t
  }

  /** A voiced second: silence count zeroed, a segment opened if none is,
      one more voiced second, and a flush when the segment is at its limit. */
  function VoicedSecond(s: SaveState, freshName: string): StepResult {
    var t := s.(countNoVoice := 0,
                saveFileName := if s.saveFileName.None? then Some(freshName) else s.saveFileName,
                voiceInDuration := s.voiceInDuration + 1);
    if t.saveSeconds >= FileSeconds
    then StepResult(Reset(t), Some(SavedWav(t.saveFileName.value, t.pcmData)))
    else StepResult(t, None)
  }

  /** A silent second: one more silent second, and at the timeout an open
      segment is trimmed and saved, or dropped when it has too little voice. */
  function SilentSecond(s: SaveState): StepResult {
    var t := s.(countNoVoice := s.countNoVoice + 1);
    if t.countNoVoice >= NoVoiceTimeout && t.saveFileName.Some? then
      if t.voiceInDuration >= DurationSeconds
      then StepResult(Reset(t), Some(SavedWav(t.saveFileName.value, TrimSilence(t.pcmData))))
      else StepResult(Reset(t), None)
    else StepResult(t, None)
  }

  /** The flush after the loop ends. */
  function OnStop(s: SaveState): StepResult {
    if s.saveFileName.Some? && s.voiceInDuration >= DurationSeconds && s.saveSeconds >= NoVoiceTimeout
    then StepResult(Reset(s), Some(SavedWav(s.saveFileName.value, s.pcmData)))
    else StepResult(s, None)
  }

  /** What the loop keeps true between frames when every frame is a full
      1600-byte read: the scratch buffer holds whole frames, the segment holds
      whole seconds, `voiceInDuration` counts its voiced seconds, its last
      `countNoVoice` seconds are silent and the one before them voiced, and it
      never extends more than `NoVoiceTimeout - 1` seconds past the limit. */
  ghost predicate Inv(s: SaveState) {
    && 0 <= s.voiceIndex < FrameCountSecond
    && 0 <= s.voiceInSecond <= s.voiceIndex
    && |s.dataInSecond| == FrameBytes * s.voiceIndex
    && SegmentInv(s)
  }

  /** The part of `Inv` about the segment and the silence count. */
  ghost predicate SegmentInv(s: SaveState) {
    && s.countNoVoice >= 0
    && |s.voicedSeconds| == s.saveSeconds
    && |s.pcmData| == SecondBytes * s.saveSeconds
    && s.voiceInDuration == CountTrue(s.voicedSeconds)
    && (s.saveFileName.None? ==> s.saveSeconds == 0)
    && (s.saveFileName.Some? ==>
         && s.countNoVoice < s.saveSeconds
         && s.countNoVoice < NoVoiceTimeout
         && s.saveSeconds - s.countNoVoice <= FileSeconds
         && s.voicedSeconds[s.saveSeconds - 1 - s.countNoVoice]
         && forall i :: s.saveSeconds - s.countNoVoice <= i < s.saveSeconds ==> !s.voicedSeconds[i])
  }

  predicate IsFullFrame(frame: VoiceFrame) {
    |frame.bytes| == FrameBytes
  }

  // ---------------------------------------------------------------------------
  // Facts about the specification

  lemma {:induction false} CountTrueSnoc(s: seq<bool>, b: bool)
    ensures CountTrue(s + [b]) == CountTrue(s) + (if b then 1 else 0)
  {
    assert (s + [b])[..|s + [b]| - 1] == s;
  }

  lemma {:induction false} CountTrueBound(s: seq<bool>)
    ensures CountTrue(s) <= |s|
  {
    if s != [] {
      CountTrueBound(s[..|s| - 1]);
    }
  }

  /** The voiced seconds of a history are those of its prefix when the rest is silent. */
  lemma {:induction false} CountTrueSilentTail(s: seq<bool>, k: nat)
    requires k <= |s|
    requires forall i :: k <= i < |s| ==> !s[i]
    ensures CountTrue(s[..k]) == CountTrue(s)
    decreases |s|
  {
    if k < |s| {
      var p := s[..|s| - 1];
      assert p[..k] == s[..k];
      CountTrueSilentTail(p, k);
    } else {
      assert s[..k] == s;
    }
  }

  lemma InvBounds(s: SaveState)
    requires SegmentInv(s)
    ensures 0 <= s.saveSeconds <= MaxSegmentSeconds
    ensures |s.pcmData| <= SecondBytes * MaxSegmentSeconds
    ensures 0 <= s.voiceInDuration <= s.saveSeconds
  {
    CountTrueBound(s.voicedSeconds);
  }

  /** The initial state satisfies the invariant. */
  lemma InitialInv()
    ensures Inv(Initial)
  {
  }

  /** Every frame keeps the invariant, whichever way the second goes. */
  lemma {:induction false} OnFramePreservesInv(s: SaveState, frame: VoiceFrame, freshName: string)
    requires Inv(s) && IsFullFrame(frame)
    ensures Inv(OnFrame(s, frame, freshName).next)
  {
    var t := Gathered(s, frame);
    OnFrameIsGatherThenSettle(s, frame, freshName);
    GatheredSegmentInv(s, frame);
    if t.voiceIndex == 0 {
      SettledSecondInv(t, freshName);
    } else {
      assert t.voiceIndex == s.voiceIndex + 1;
    }
  }

  /** The state after a frame is counted and buffered, before any settlement. */
  function Gathered(s: SaveState, frame: VoiceFrame): SaveState {
    s.(voiceIndex := (s.voiceIndex + 1) % FrameCountSecond, dataInSecond := s.dataInSecond + frame.bytes,
       voiceInSecond := if frame.hasVoice then s.voiceInSecond + 1 else s.voiceInSecond)
  }

  /** Gathering a full frame leaves the segment alone; on the twentieth frame
      the scratch buffer holds a whole second. */
  lemma GatheredSegmentInv(s: SaveState, frame: VoiceFrame)
    requires Inv(s) && IsFullFrame(frame)
    ensures SegmentInv(Gathered(s, frame))
    ensures Gathered(s, frame).voiceIndex == 0 ==> |Gathered(s, frame).dataInSecond| == SecondBytes
  {
  }

  lemma SettledSecondInv(t: SaveState, freshName: string)
    requires SegmentInv(t) && t.voiceIndex == 0 && |t.dataInSecond| == SecondBytes
    ensures Inv(OnSecond(t, freshName).next)
  {
    if t.voiceInSecond > ConfidenceSecond {
      SettledVoicedInv(t, freshName);
    } else {
      SettledSilentInv(t, freshName);
    }
  }

  lemma SettledVoicedInv(t: SaveState, freshName: string)
    requires SegmentInv(t) && t.voiceIndex == 0 && |t.dataInSecond| == SecondBytes
    requires t.voiceInSecond > ConfidenceSecond
    ensures Inv(OnSecond(t, freshName).next)
  {
    var u := AppendSecond(VoicedSecond(t, freshName).next, true);
    assert OnSecond(t, freshName).next == u.(dataInSecond := [], voiceInSecond := 0);
    VoicedSecondKeepsSegmentInv(t, freshName);
    ClearedInv(u);
  }

  lemma SettledSilentInv(t: SaveState, freshName: string)
    requires SegmentInv(t) && t.voiceIndex == 0 && |t.dataInSecond| == SecondBytes
    requires t.voiceInSecond <= ConfidenceSecond
    ensures Inv(OnSecond(t, freshName).next)
  {
    var u := AppendSecond(SilentSecond(t).next, false);
    assert OnSecond(t, freshName).next == u.(dataInSecond := [], voiceInSecond := 0);
    SilentSecondKeepsSegmentInv(t);
    ClearedInv(u);
  }

  lemma ClearedInv(u: SaveState)
    requires SegmentInv(u) && u.voiceIndex == 0
    ensures Inv(u.(dataInSecond := [], voiceInSecond := 0))
  {
    var c := u.(dataInSecond := [], voiceInSecond := 0);
    assert SegmentInv(c) by {
      assert c.voicedSeconds == u.voicedSeconds && c.saveSeconds == u.saveSeconds;
    }
  }

  /** A voiced second, settled and appended, keeps the segment invariant. */
  lemma {:induction false} VoicedSecondKeepsSegmentInv(t: SaveState, freshName: string)
    requires SegmentInv(t) && |t.dataInSecond| == SecondBytes
    ensures SegmentInv(AppendSecond(VoicedSecond(t, freshName).next, true))
  {
    var m := VoicedSecond(t, freshName).next;
    if t.saveSeconds >= FileSeconds {
      assert m == Reset(t.(countNoVoice := 0, voiceInDuration := t.voiceInDuration + 1,
                                    saveFileName := m.saveFileName));
    } else {
      assert m.saveFileName.Some? && m.countNoVoice == 0 && m.saveSeconds == t.saveSeconds;
      assert m.voicedSeconds == t.voicedSeconds && m.pcmData == t.pcmData;
      CountTrueSnoc(m.voicedSeconds, true);
      var u := AppendSecond(m, true);
      assert u.voicedSeconds == t.voicedSeconds + [true];
      assert u.voicedSeconds[u.saveSeconds - 1];
    }
  }

  /** A silent second, settled and appended, keeps the segment invariant. */
  lemma {:induction false} SilentSecondKeepsSegmentInv(t: SaveState)
    requires SegmentInv(t) && |t.dataInSecond| == SecondBytes
    ensures SegmentInv(AppendSecond(SilentSecond(t).next, false))
  {
    var m := SilentSecond(t).next;
    if m.saveFileName.Some? {
      CountTrueSnoc(m.voicedSeconds, false);
      var u := AppendSecond(m, false);
      assert u.voicedSeconds[..t.saveSeconds] == t.voicedSeconds;
      assert u.voicedSeconds[u.saveSeconds - 1 - u.countNoVoice] == t.voicedSeconds[t.saveSeconds - 1 - t.countNoVoice];
    }
  }

  /** Between second boundaries a frame is only gathered: it is appended to
      the scratch buffer and counted if voiced, and nothing is saved. */
  lemma MidSecondOnlyGathers(s: SaveState, frame: VoiceFrame, freshName: string)
    requires 0 <= s.voiceIndex < FrameCountSecond - 1
    ensures var r := OnFrame(s, frame, freshName);
      && r.saved == None
      && r.next == s.(voiceIndex := s.voiceIndex + 1, dataInSecond := s.dataInSecond + frame.bytes,
                      voiceInSecond := s.voiceInSecond + (if frame.hasVoice then 1 else 0))
  {
    OnFrameIsGatherThenSettle(s, frame, freshName);
    assert (s.voiceIndex + 1) % FrameCountSecond == s.voiceIndex + 1;
  }

  /** The settlement runs exactly on every twentieth frame, and it always
      clears the scratch buffer and the voiced-frame count. */
  lemma BoundaryEveryTwentiethFrame(s: SaveState, frame: VoiceFrame, freshName: string)
    requires Inv(s)
    ensures OnFrame(s, frame, freshName).next.voiceIndex == (s.voiceIndex + 1) % FrameCountSecond
    ensures s.voiceIndex == FrameCountSecond - 1 ==>
      OnFrame(s, frame, freshName).next.dataInSecond == [] && OnFrame(s, frame, freshName).next.voiceInSecond == 0
  {
  }

  /** The number of voiced frames in the second that `frame` completes. */
  function VoicedFrames(s: SaveState, frame: VoiceFrame): int {
    s.voiceInSecond + (if frame.hasVoice then 1 else 0)
  }

  /** At a boundary the second counts as voiced exactly when more than five
      of its twenty frames were: a voiced second zeroes the silence count and
      an unvoiced one (five voiced frames included) increments it. */
  lemma VoicedIffMoreThanFive(s: SaveState, frame: VoiceFrame, freshName: string)
    requires Inv(s) && s.voiceIndex == FrameCountSecond - 1
    ensures var r := OnFrame(s, frame, freshName);
      && (VoicedFrames(s, frame) > ConfidenceSecond ==> r.next.countNoVoice == 0)
      && (VoicedFrames(s, frame) <= ConfidenceSecond ==> r.next.countNoVoice == s.countNoVoice + 1)
  {
  }

  /** A voiced second below the limit keeps the open segment's name or opens
      one under the fresh name, counts one more voiced second, and appends the
      whole second to the segment. */
  lemma {:induction false} VoicedSecondAppends(s: SaveState, frame: VoiceFrame, freshName: string)
    requires Inv(s) && IsFullFrame(frame) && s.voiceIndex == FrameCountSecond - 1
    requires VoicedFrames(s, frame) > ConfidenceSecond && s.saveSeconds < FileSeconds
    ensures var r := OnFrame(s, frame, freshName);
      && r.saved == None
      && r.next.saveFileName == (if s.saveFileName.Some? then s.saveFileName else Some(freshName))
      && r.next.voiceInDuration == s.voiceInDuration + 1
      && r.next.pcmData == s.pcmData + s.dataInSecond + frame.bytes
      && r.next.saveSeconds == s.saveSeconds + 1
      && |r.next.pcmData| == SecondBytes * r.next.saveSeconds
  {
    InvBounds(s);
  }

  /** A silent second before the timeout extends an open segment by the
      whole second and leaves a closed one closed and empty. */
  lemma SilentSecondAppendsWhileOpen(s: SaveState, frame: VoiceFrame, freshName: string)
    requires Inv(s) && s.voiceIndex == FrameCountSecond - 1
    requires VoicedFrames(s, frame) <= ConfidenceSecond
    requires s.saveFileName.None? || s.countNoVoice + 1 < NoVoiceTimeout
    ensures var r := OnFrame(s, frame, freshName);
      && r.saved == None
      && r.next.saveFileName == s.saveFileName
      && (s.saveFileName.Some? ==> r.next.pcmData == s.pcmData + s.dataInSecond + frame.bytes
                                    && r.next.saveSeconds == s.saveSeconds + 1)
      && (s.saveFileName.None? ==> r.next.pcmData == [] && r.next.saveSeconds == 0)
  {
  }

  /** The timeout: on the tenth silent second in a row an open segment is
      closed without appending that second. It is saved, trimmed, when it had
      at least five voiced seconds, and dropped otherwise. The trim removes
      exactly the nine silent seconds that followed the last voiced second,
      so the saved audio ends with that voiced second and still holds every
      voiced second of the segment; the silence count is not reset. */
  lemma {:induction false} TimeoutTrimsTrailingSilence(s: SaveState, frame: VoiceFrame, freshName: string)
    requires Inv(s) && s.voiceIndex == FrameCountSecond - 1
    requires VoicedFrames(s, frame) <= ConfidenceSecond
    requires s.saveFileName.Some? && s.countNoVoice + 1 >= NoVoiceTimeout
    ensures s.countNoVoice == NoVoiceTimeout - 1 && s.saveSeconds >= NoVoiceTimeout
    ensures var r := OnFrame(s, frame, freshName);
      && r.next.saveFileName.None? && r.next.pcmData == [] && r.next.saveSeconds == 0
      && r.next.voiceInDuration == 0 && r.next.countNoVoice == NoVoiceTimeout
      && (s.voiceInDuration >= DurationSeconds ==>
            r.saved == Some(SavedWav(s.saveFileName.value, s.pcmData[..SecondBytes * (s.saveSeconds - (NoVoiceTimeout - 1))])))
      && (s.voiceInDuration < DurationSeconds ==> r.saved == None)
    ensures var kept := s.saveSeconds - (NoVoiceTimeout - 1);
      && s.voicedSeconds[kept - 1]
      && (forall i :: kept <= i < s.saveSeconds ==> !s.voicedSeconds[i])
      && CountTrue(s.voicedSeconds[..kept]) == s.voiceInDuration
  {
    TrimAtTimeout(s);
    CountTrueSilentTail(s.voicedSeconds, s.saveSeconds - (NoVoiceTimeout - 1));
  }

  /** At the timeout the trim keeps exactly the seconds up to the last voiced one. */
  lemma TrimAtTimeout(s: SaveState)
    requires SegmentInv(s) && s.saveFileName.Some? && s.countNoVoice == NoVoiceTimeout - 1
    ensures TrimSilence(s.pcmData) == s.pcmData[..SecondBytes * (s.saveSeconds - (NoVoiceTimeout - 1))]
  {
    assert TrimmedLength(|s.pcmData|, SampleRate, 1, 16, NoVoiceTimeout - 1)
        == SecondBytes * (s.saveSeconds - (NoVoiceTimeout - 1));
  }

  /** The limit: a voiced second that finds the segment at 300 seconds or
      more saves the segment as it is and closes it; that second's audio is
      dropped, no segment is open afterwards, and the saved file holds at most
      nine seconds beyond the limit. */
  lemma {:induction false} OverLimitFlushesAndDrops(s: SaveState, frame: VoiceFrame, freshName: string)
    requires Inv(s) && s.voiceIndex == FrameCountSecond - 1
    requires VoicedFrames(s, frame) > ConfidenceSecond && s.saveSeconds >= FileSeconds
    ensures s.saveFileName.Some?
    ensures var r := OnFrame(s, frame, freshName);
      && r.saved == Some(SavedWav(s.saveFileName.value, s.pcmData))
      && r.next.saveFileName.None? && r.next.pcmData == [] && r.next.saveSeconds == 0
      && r.next.voiceInDuration == 0 && r.next.countNoVoice == 0
    ensures FileSeconds * SecondBytes <= |s.pcmData| <= MaxSegmentSeconds * SecondBytes
  {
    InvBounds(s);
  }

  /** The flush after the loop: it saves the segment untrimmed exactly when
      one is open with at least five voiced seconds and ten saved seconds, and
      otherwise writes nothing. The partial second in the scratch buffer is
      never part of what is saved. */
  lemma OnStopSavesOnlyLongSegments(s: SaveState)
    requires Inv(s)
    ensures var r := OnStop(s);
      && (r.saved.Some? <==>
           s.saveFileName.Some? && s.voiceInDuration >= DurationSeconds && s.saveSeconds >= NoVoiceTimeout)
      && (r.saved.Some? ==> r.saved == Some(SavedWav(s.saveFileName.value, s.pcmData))
                            && r.next.saveFileName.None? && r.next.pcmData == [])
      && r.next.dataInSecond == s.dataInSecond
  {
  }

  /** `trimLastSeconds` keeps a prefix: the input without its last
      `bytesPerSecond * secondsToTrim` bytes, or nothing when the input is
      shorter; with the save loop's arguments that is 288000 bytes. */
  lemma {:induction false} TrimKeepsPrefix(pcm: seq<Byte>)
    ensures var t := TrimSilence(pcm);
      && |t| == (if |pcm| >= 288000 then |pcm| - 288000 else 0)
      && pcm == t + pcm[|t|..]
      && |pcm[|t|..]| == (if |pcm| >= 288000 then 288000 else |pcm|)
  {
    assert TrimmedLength(|pcm|, SampleRate, 1, 16, NoVoiceTimeout - 1)
        == (if |pcm| >= 288000 then |pcm| - 288000 else 0);
  }

  /** The bytes of a saved file are a header the recorder's format parses
      back from, followed by whole seconds of audio, at most
      `MaxSegmentSeconds` of them. */
  predicate WellFormedRecording(f: WavFile) {
    && |f.bytes| >= Wav.HeaderSize
    && var pcm := Wav.Payload(f.bytes);
    && |pcm| % SecondBytes == 0
    && |pcm| <= MaxSegmentSeconds * SecondBytes
    && Wav.ParseHeader(f.bytes) == Some(Wav.WavFormat(|pcm| + 36, 16, 1, 1, SampleRate, SecondBytes, 2, 16, |pcm|))
  }

  lemma SavedWavWellFormed(name: string, pcm: seq<Byte>)
    requires |pcm| % SecondBytes == 0 && |pcm| <= MaxSegmentSeconds * SecondBytes
    ensures WellFormedRecording(SavedWav(name, pcm))
  {
    Wav.RecorderFormatRoundTrip(pcm);
  }

  /** A frame saves a file exactly when it completes a second that either
      is voiced and finds the segment at the limit, or is the tenth silent
      second of an open segment with at least five voiced seconds. */
  lemma OnFrameSavesIff(s: SaveState, frame: VoiceFrame, freshName: string)
    requires 0 <= s.voiceIndex < FrameCountSecond
    ensures OnFrame(s, frame, freshName).saved.Some? <==>
      && s.voiceIndex == FrameCountSecond - 1
      && (|| (VoicedFrames(s, frame) > ConfidenceSecond && s.saveSeconds >= FileSeconds)
          || (&& VoicedFrames(s, frame) <= ConfidenceSecond && s.saveFileName.Some?
              && s.countNoVoice + 1 >= NoVoiceTimeout && s.voiceInDuration >= DurationSeconds))
  {
    OnFrameIsGatherThenSettle(s, frame, freshName);
    var g := Gathered(s, frame);
    assert g.voiceIndex == 0 <==> s.voiceIndex == FrameCountSecond - 1;
    assert g.voiceInSecond == VoicedFrames(s, frame);
    assert g.saveSeconds == s.saveSeconds && g.saveFileName == s.saveFileName;
    assert g.countNoVoice == s.countNoVoice && g.voiceInDuration == s.voiceInDuration;
    if g.voiceIndex == 0 {
      OnSecondSaved(g, freshName);
    }
  }

  lemma OnSecondSaved(t: SaveState, freshName: string)
    ensures OnSecond(t, freshName).saved.Some? <==>
      || (t.voiceInSecond > ConfidenceSecond && t.saveSeconds >= FileSeconds)
      || (&& t.voiceInSecond <= ConfidenceSecond && t.saveFileName.Some?
          && t.countNoVoice + 1 >= NoVoiceTimeout && t.voiceInDuration >= DurationSeconds)
  {
    if t.voiceInSecond > ConfidenceSecond {
      assert OnSecond(t, freshName).saved == VoicedSecond(t, freshName).saved;
    } else {
      assert OnSecond(t, freshName).saved == SilentSecond(t).saved;
    }
  }

  /** A frame is gathered and then, on the twentieth, settled. */
  lemma OnFrameIsGatherThenSettle(s: SaveState, frame: VoiceFrame, freshName: string)
    ensures var g := Gathered(s, frame);
      OnFrame(s, frame, freshName) == if g.voiceIndex != 0 then StepResult(g, None) else OnSecond(g, freshName)
  {
  }

  /** What a saved file holds: the segment as it is at the limit, trimmed at the timeout. */
  lemma SavedFileContents(s: SaveState, frame: VoiceFrame, freshName: string)
    requires 0 <= s.voiceIndex < FrameCountSecond
    ensures var r := OnFrame(s, frame, freshName);
      var name := if s.saveFileName.Some? then s.saveFileName.value else freshName;
      r.saved.Some? ==>
        r.saved.value == SavedWav(name, if VoicedFrames(s, frame) > ConfidenceSecond then s.pcmData else TrimSilence(s.pcmData))
  {
    OnFrameIsGatherThenSettle(s, frame, freshName);
    var g := Gathered(s, frame);
    if g.voiceIndex == 0 {
      if g.voiceInSecond > ConfidenceSecond {
        assert OnSecond(g, freshName).saved == VoicedSecond(g, freshName).saved;
      } else {
        assert OnSecond(g, freshName).saved == SilentSecond(g).saved;
      }
    }
  }

  /** Whatever a frame saves is a well-formed recording. */
  lemma {:induction false} OnFrameSavesWellFormed(s: SaveState, frame: VoiceFrame, freshName: string)
    requires Inv(s) && IsFullFrame(frame)
    ensures var r := OnFrame(s, frame, freshName);
      r.saved.Some? ==> WellFormedRecording(r.saved.value)
  {
    var r := OnFrame(s, frame, freshName);
    SavedFileContents(s, frame, freshName);
    OnFrameSavesIff(s, frame, freshName);
    if r.saved.Some? {
      var name := if s.saveFileName.Some? then s.saveFileName.value else freshName;
      if VoicedFrames(s, frame) > ConfidenceSecond {
        SegmentWellFormed(s, name);
      } else {
        TrimmedWellFormed(s);
      }
    }
  }

  /** The segment as it stands is a well-formed recording. */
  lemma SegmentWellFormed(s: SaveState, name: string)
    requires SegmentInv(s)
    ensures WellFormedRecording(SavedWav(name, s.pcmData))
  {
    InvBounds(s);
    ModUnique(|s.pcmData|, SecondBytes, s.saveSeconds, 0);
    SavedWavWellFormed(name, s.pcmData);
  }

  /** The segment trimmed at the timeout is a well-formed recording. */
  lemma TrimmedWellFormed(s: SaveState)
    requires SegmentInv(s) && s.saveFileName.Some? && s.countNoVoice == NoVoiceTimeout - 1
    ensures WellFormedRecording(SavedWav(s.saveFileName.value, TrimSilence(s.pcmData)))
  {
    var kept := s.saveSeconds - (NoVoiceTimeout - 1);
    TrimAtTimeout(s);
    InvBounds(s);
    ModUnique(SecondBytes * kept, SecondBytes, kept, 0);
    SavedWavWellFormed(s.saveFileName.value, TrimSilence(s.pcmData));
  }

  /** The flush after the loop keeps the invariant and saves only well-formed recordings. */
  lemma OnStopWellFormed(s: SaveState)
    requires Inv(s)
    ensures Inv(OnStop(s).next)
    ensures OnStop(s).saved.Some? ==> WellFormedRecording(OnStop(s).saved.value)
  {
    if s.saveFileName.Some? && s.voiceInDuration >= DurationSeconds && s.saveSeconds >= NoVoiceTimeout {
      InvBounds(s);
      SavedWavWellFormed(s.saveFileName.value, s.pcmData);
      ResetInv(s);
    }
  }

  /** Closing the segment keeps the invariant. */
  lemma ResetInv(s: SaveState)
    requires Inv(s)
    ensures Inv(Reset(s))
  {
  }

  /** The state after a run of frames, the files it saved in order, and
      those of them that reached an output target. */
  datatype RunResult = RunResult(state: SaveState, saved: seq<WavFile>, written: seq<WavFile>)

  /** The save loop over the frames taken from the queue, one `OnFrame` per
      frame; `names[i]` is the name the clock would give at frame `i`, and
      `targets[i]` whether an output target is chosen when that frame is
      processed. */
  function RunFrames(s: SaveState, frames: seq<VoiceFrame>, names: seq<string>, targets: seq<bool>): RunResult
    requires |frames| == |names| == |targets|
    decreases |frames|
  {
    if frames == [] then RunResult(s, [], [])
    else
      var n := |frames| - 1;
      var p := RunFrames(s, frames[..n], names[..n], targets[..n]);
      var r := OnFrame(p.state, frames[n], names[n]);
      RunResult(r.next, p.saved + Saves(r.saved), p.written + Sink(Saves(r.saved), targets[n]))
  }

  /** One more frame of the run is one more `OnFrame`. */
  lemma RunFramesSnoc(s: SaveState, frames: seq<VoiceFrame>, names: seq<string>, targets: seq<bool>, i: nat)
    requires |frames| == |names| == |targets| && i < |frames|
    ensures var p := RunFrames(s, frames[..i], names[..i], targets[..i]);
      var r := OnFrame(p.state, frames[i], names[i]);
      RunFrames(s, frames[..i + 1], names[..i + 1], targets[..i + 1])
        == RunResult(r.next, p.saved + Saves(r.saved), p.written + Sink(Saves(r.saved), targets[i]))
  {
    assert frames[..i + 1][..i] == frames[..i] && names[..i + 1][..i] == names[..i];
    assert targets[..i + 1][..i] == targets[..i];
  }

  predicate AllFull(frames: seq<VoiceFrame>) {
    forall i :: 0 <= i < |frames| ==> IsFullFrame(frames[i])
  }

  /** Over any run of full frames the invariant holds and every saved file
      is a well-formed recording. */
  lemma {:induction false} RunKeepsInv(s: SaveState, frames: seq<VoiceFrame>, names: seq<string>, targets: seq<bool>)
    requires Inv(s) && |frames| == |names| == |targets| && AllFull(frames)
    ensures Inv(RunFrames(s, frames, names, targets).state)
    ensures forall f :: f in RunFrames(s, frames, names, targets).saved ==> WellFormedRecording(f)
    decreases |frames|
  {
    if frames != [] {
      var n := |frames| - 1;
      RunKeepsInv(s, frames[..n], names[..n], targets[..n]);
      var p := RunFrames(s, frames[..n], names[..n], targets[..n]);
      OnFramePreservesInv(p.state, frames[n], names[n]);
      OnFrameSavesWellFormed(p.state, frames[n], names[n]);
    }
  }

  /** What reaches the output is what was saved, less the files saved while
      no target was chosen: every written file was saved, and with a target
      chosen throughout, everything saved is written. */
  lemma {:induction false} WrittenAmongSaved(s: SaveState, frames: seq<VoiceFrame>, names: seq<string>, targets: seq<bool>)
    requires |frames| == |names| == |targets|
    ensures forall f :: f in RunFrames(s, frames, names, targets).written ==> f in RunFrames(s, frames, names, targets).saved
    ensures (forall i :: 0 <= i < |targets| ==> targets[i]) ==>
      RunFrames(s, frames, names, targets).written == RunFrames(s, frames, names, targets).saved
    decreases |frames|
  {
    if frames != [] {
      var n := |frames| - 1;
      WrittenAmongSaved(s, frames[..n], names[..n], targets[..n]);
      var p := RunFrames(s, frames[..n], names[..n], targets[..n]);
      var out := Saves(OnFrame(p.state, frames[n], names[n]).saved);
      var run := RunFrames(s, frames, names, targets);
      assert run.saved == p.saved + out;
      assert run.written == p.written + Sink(out, targets[n]);
      forall f | f in run.written
        ensures f in run.saved
      {
        if f !in p.written {
          assert f in out;
        }
      }
      if forall i :: 0 <= i < |targets| ==> targets[i] {
        assert forall i :: 0 <= i < n ==> targets[..n][i];
        assert targets[n];
      }
    }
  }

  /** Everything a recording session writes, from the initial state through
      the flush after the loop, is a well-formed recording. */
  lemma SessionWritesWellFormed(frames: seq<VoiceFrame>, names: seq<string>, targets: seq<bool>, stopTarget: bool)
    requires |frames| == |names| == |targets| && AllFull(frames)
    ensures var run := RunFrames(Initial, frames, names, targets);
      forall f :: f in run.written + Sink(Saves(OnStop(run.state).saved), stopTarget) ==> WellFormedRecording(f)
  {
    InitialInv();
    RunKeepsInv(Initial, frames, names, targets);
    WrittenAmongSaved(Initial, frames, names, targets);
    OnStopWellFormed(RunFrames(Initial, frames, names, targets).state);
  }

  /** The files that reach the output: none when no output target is chosen. */
  function Sink(saved: seq<WavFile>, targetAvailable: bool): seq<WavFile> {
    if targetAvailable then saved else []
  }

  /** The save thread's fields. `voicedSeconds` is ghost bookkeeping; `written`
      stands for the output target and lists the files written to it. */
  class SaveLoop {
    var voiceIndex: int
    var voiceInSecond: int
    var countNoVoice: int
    var dataInSecond: seq<Byte>
    var saveSeconds: int
    var pcmData: seq<Byte>
    var saveFileName: Option<string>
    var voiceInDuration: int
    ghost var voicedSeconds: seq<bool>
    var written: seq<WavFile>

    ghost function State(): SaveState
      reads this
    {
      SaveState(voiceIndex, voiceInSecond, countNoVoice, dataInSecond, saveSeconds,
                pcmData, saveFileName, voiceInDuration, voicedSeconds)
    }

    ghost predicate Valid()
      reads this
    {
      Inv(State())
    }

    constructor()
      ensures Valid() && State() == Initial && written == []
    {
      voiceIndex, voiceInSecond, countNoVoice, dataInSecond := 0, 0, 0, [];
      saveSeconds, pcmData, saveFileName, voiceInDuration := 0, [], None, 0;
      voicedSeconds, written := [], [];
    }

    /** One iteration of the loop, for a frame taken from the queue. */
    method Step(frame: VoiceFrame, freshName: string, targetAvailable: bool)
      requires Valid() && IsFullFrame(frame)
      modifies this
      ensures Valid()
      ensures State() == OnFrame(old(State()), frame, freshName).next
      ensures written == old(written) + Sink(Saves(OnFrame(old(State()), frame, freshName).saved), targetAvailable)
    {
      OnFramePreservesInv(State(), frame, freshName);
      OnFrameIsGatherThenSettle(State(), frame, freshName);
      GatheredSegmentInv(State(), frame);
      Gather(frame);
      if voiceIndex == 0 {
        Settle(freshName, targetAvailable);
      }
    }

    /** The frame is counted and buffered. */
    method Gather(frame: VoiceFrame)
      modifies this
      ensures State() == Gathered(old(State()), frame)
      ensures written == old(written)
    {
      voiceIndex := (voiceIndex + 1) % FrameCountSecond;
      dataInSecond := dataInSecond + frame.bytes;
      if frame.hasVoice {
        voiceInSecond := voiceInSecond + 1;
      }
    }

    /** The settlement at the end of a second. */
    method Settle(freshName: string, targetAvailable: bool)
      requires SegmentInv(State()) && voiceIndex == 0 && |dataInSecond| == SecondBytes
      modifies this
      ensures State() == OnSecond(old(State()), freshName).next
      ensures written == old(written) + Sink(Saves(OnSecond(old(State()), freshName).saved), targetAvailable)
    {
      var voiced := voiceInSecond > ConfidenceSecond;
      if voiced {
        SettleVoiced(freshName, targetAvailable);
      } else {
        SettleSilent(targetAvailable);
      }
      if saveFileName.Some? {
        pcmData := pcmData + dataInSecond;
        saveSeconds := saveSeconds + 1;
        voicedSeconds := voicedSeconds + [voiced];
      }
      dataInSecond := [];
      voiceInSecond := 0;
    }

    method SettleVoiced(freshName: string, targetAvailable: bool)
      requires SegmentInv(State())
      modifies this
      ensures State() == VoicedSecond(old(State()), freshName).next
      ensures written == old(written) + Sink(Saves(VoicedSecond(old(State()), freshName).saved), targetAvailable)
    {
      InvBounds(State());
      countNoVoice := 0;
      if saveFileName.None? {
        saveFileName := Some(freshName);
      }
      voiceInDuration := voiceInDuration + 1;
      if saveSeconds >= FileSeconds {
        SaveAsWav(pcmData, saveFileName.value, targetAvailable);
        ResetSaveState();
      }
    }

    method SettleSilent(targetAvailable: bool)
      requires SegmentInv(State())
      modifies this
      ensures State() == SilentSecond(old(State())).next
      ensures written == old(written) + Sink(Saves(SilentSecond(old(State())).saved), targetAvailable)
    {
      InvBounds(State());
      countNoVoice := countNoVoice + 1;
      if countNoVoice >= NoVoiceTimeout && saveFileName.Some? {
        if voiceInDuration >= DurationSeconds {
          TrimLastSeconds();
          SaveAsWav(pcmData, saveFileName.value, targetAvailable);
          ResetSaveState();
        } else {
          ResetSaveState();
        }
      }
    }

    /** The flush after the loop ends. */
    method Shutdown(targetAvailable: bool)
      requires Valid()
      modifies this
      ensures Valid()
      ensures State() == OnStop(old(State())).next
      ensures written == old(written) + Sink(Saves(OnStop(old(State())).saved), targetAvailable)
    {
      OnStopWellFormed(State());
      InvBounds(State());
      if saveFileName.Some? && voiceInDuration >= DurationSeconds && saveSeconds >= NoVoiceTimeout {
        SaveAsWav(pcmData, saveFileName.value, targetAvailable);
        ResetSaveState();
      }
    }

    /** `resetSaveState`. */
    method ResetSaveState()
      modifies this
      ensures State() == Reset(old(State()))
      ensures written == old(written)
    {
      pcmData := [];
      saveFileName := None;
      voiceInDuration := 0;
      saveSeconds := 0;
      voicedSeconds := [];
    }

    /** `trimLastSeconds(pcmData)` with its default arguments. */
    method TrimLastSeconds()
      modifies this
      ensures State() == old(State()).(pcmData := TrimSilence(old(pcmData)))
      ensures written == old(written)
    {
      var bytesPerSecond := SampleRate * 1 * (16 / 8);
      var bytesToTrim := bytesPerSecond * (NoVoiceTimeout - 1);
      var data := pcmData;
      var newLength := if |data| - bytesToTrim >= 0 then |data| - bytesToTrim else 0;
      pcmData := data[..newLength];
    }

    /** `saveAsWav(pcm, name)`: the header and the samples go to the output
        target when one is chosen; otherwise nothing is written. */
    method SaveAsWav(pcm: seq<Byte>, name: string, targetAvailable: bool)
      requires |pcm| <= IntMax
      modifies this
      ensures State() == old(State())
      ensures written == old(written) + Sink([SavedWav(name, pcm)], targetAvailable)
    {
      if !targetAvailable {
        return;
      }
      var bytes := Wav.EncodeWav(pcm, SampleRate, 1, 16);
      written := written + [WavFile(name, bytes)];
    }

    /** The save thread: the loop over the frames taken from the queue while
        recording, then the flush; `stopTarget` is whether an output target
        is chosen at the flush. */
    method Run(frames: seq<VoiceFrame>, names: seq<string>, targets: seq<bool>, stopTarget: bool)
      requires Valid() && |frames| == |names| == |targets| && AllFull(frames)
      modifies this
      ensures Valid()
      ensures var run := RunFrames(old(State()), frames, names, targets);
        && State() == OnStop(run.state).next
        && written == old(written) + run.written + Sink(Saves(OnStop(run.state).saved), stopTarget)
    {
      Loop(frames, names, targets);
      Shutdown(stopTarget);
    }

    /** One iteration of `Loop`: frame `i` goes through `Step`, and the run
        so far grows by one frame. */
    method Advance(ghost s0: SaveState, frames: seq<VoiceFrame>, names: seq<string>, targets: seq<bool>,
                   i: nat, ghost acc: RunResult) returns (ghost next: RunResult)
      requires |frames| == |names| == |targets| && i < |frames| && IsFullFrame(frames[i])
      requires acc == RunFrames(s0, frames[..i], names[..i], targets[..i])
      requires Valid() && State() == acc.state
      modifies this
      ensures next == RunFrames(s0, frames[..i + 1], names[..i + 1], targets[..i + 1])
      ensures Valid() && State() == next.state
      ensures written == old(written) + Sink(Saves(OnFrame(acc.state, frames[i], names[i]).saved), targets[i])
      ensures next.written == acc.written + Sink(Saves(OnFrame(acc.state, frames[i], names[i]).saved), targets[i])
    {
      RunFramesSnoc(s0, frames, names, targets, i);
      var r := OnFrame(acc.state, frames[i], names[i]);
      Step(frames[i], names[i], targets[i]);
      next := RunResult(r.next, acc.saved + Saves(r.saved), acc.written + Sink(Saves(r.saved), targets[i]));
    }

    /** The loop over the frames, one `Step` each. */
    method Loop(frames: seq<VoiceFrame>, names: seq<string>, targets: seq<bool>)
      requires Valid() && |frames| == |names| == |targets| && AllFull(frames)
      modifies this
      ensures Valid()
      ensures State() == RunFrames(old(State()), frames, names, targets).state
      ensures written == old(written) + RunFrames(old(State()), frames, names, targets).written
    {
      ghost var s0 := State();
      ghost var w0 := written;
      ghost var acc := RunResult(s0, [], []);
      var i := 0;
      while i < |frames|
        invariant 0 <= i <= |frames|
        invariant acc == RunFrames(s0, frames[..i], names[..i], targets[..i])
        invariant Valid() && State() == acc.state
        invariant written == w0 + acc.written
      {
        acc := Advance(s0, frames, names, targets, i, acc);
        i := i + 1;
      }
      assert frames[..i] == frames && names[..i] == names && targets[..i] == targets;
    }
  }
}
