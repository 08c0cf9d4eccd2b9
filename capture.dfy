/** The capture thread: it reads a frame's worth of PCM at a time, feeds it
    to the voice detector, keeps a speech flag that the detector's "start"
    and "end" events set and clear, and queues each complete frame with the
    flag as it stands after that frame. */
module Capture {
  import opened Jvm
  import opened Frames
  import Segmentation

  /** The event keys of the detector's result map. */
  const StartEvent: string := "start"
  const EndEvent: string := "end"

  /** The speech flag after a frame whose detector result has the keys
      `events`: "start" sets it, "end" clears it, and when both are present
      the later check, "end", wins. */
  function Latch(isSpeed: bool, events: set<string>): bool {
    if EndEvent in events then false
    else if StartEvent in events then true
    else isSpeed
  }

  /** What one `read` returned: the count (a negative error code, a short
      read or the full frame) and the buffer's contents, plus the keys of
      the detector's result for that buffer. */
  datatype Read = Read(count: int, buffer: seq<Byte>, events: set<string>)

  /** A read whose buffer has the frame size the thread allocates. */
  predicate FrameSized(r: Read) {
    |r.buffer| == Segmentation.FrameBytes
  }

  /** A read is kept only when it filled the whole buffer. */
  predicate Complete(r: Read) {
    r.count > 0 && r.count == |r.buffer|
  }

  /** The capture loop over a sequence of reads: the final flag and the
      frames it queued, in order. */
  datatype Captured = Captured(isSpeed: bool, queued: seq<VoiceFrame>)

  function CaptureReads(isSpeed: bool, history: seq<Read>): Captured
    decreases |history|
  {
    if history == [] then Captured(isSpeed, [])
    else
      var n := |history| - 1;
      var p := CaptureReads(isSpeed, history[..n]);
      var r := history[n];
      if Complete(r)
      then
        var flag := Latch(p.isSpeed, r.events);
        Captured(flag, p.queued + [VoiceFrame(r.buffer, flag)])
      else p
  }

  /** Number of complete reads. */
  function CountComplete(history: seq<Read>): nat {
    if history == [] then 0
    else CountComplete(history[..|history| - 1]) + (if Complete(history[|history| - 1]) then 1 else 0)
  }

  // ---------------------------------------------------------------------------
  // Facts about the latch

  /** "end" always clears the flag; "start" without "end" always sets it;
      with neither the flag is kept. */
  lemma LatchCases(isSpeed: bool, events: set<string>)
    ensures EndEvent in events ==> !Latch(isSpeed, events)
    ensures StartEvent in events && EndEvent !in events ==> Latch(isSpeed, events)
    ensures StartEvent !in events && EndEvent !in events ==> Latch(isSpeed, events) == isSpeed
  {
  }

  /** The flag after a frame depends on the flag before it only when the
      detector reported neither event. */
  lemma LatchForgetsOnEvent(a: bool, b: bool, events: set<string>)
    requires StartEvent in events || EndEvent in events
    ensures Latch(a, events) == Latch(b, events)
  {
  }

  /** Keys other than "start" and "end" do not move the flag. */
  lemma LatchIgnoresOtherKeys(isSpeed: bool, events: set<string>)
    ensures Latch(isSpeed, events) == Latch(isSpeed, events * {StartEvent, EndEvent})
  {
  }

  // ---------------------------------------------------------------------------
  // Facts about the capture loop

  /** The capture loop queues exactly one frame per complete read, each
      holding the full buffer; so every frame the save loop receives is a
      full 1600-byte frame. */
  lemma {:induction false} CaptureQueuesCompleteFrames(isSpeed: bool, history: seq<Read>)
    requires forall i :: 0 <= i < |history| ==> FrameSized(history[i])
    ensures |CaptureReads(isSpeed, history).queued| == CountComplete(history)
    ensures Segmentation.AllFull(CaptureReads(isSpeed, history).queued)
    decreases |history|
  {
    if history != [] {
      var n := |history| - 1;
      CaptureQueuesCompleteFrames(isSpeed, history[..n]);
    }
  }

  /** The last queued frame carries the flag the loop ends with: the flag a
      frame is queued with is the latch state right after that frame. */
  lemma {:induction false} LastQueuedCarriesFlag(isSpeed: bool, history: seq<Read>)
    requires |history| > 0 && Complete(history[|history| - 1])
    ensures var c := CaptureReads(isSpeed, history);
      |c.queued| > 0 && c.queued[|c.queued| - 1].hasVoice == c.isSpeed
      && c.queued[|c.queued| - 1].bytes == history[|history| - 1].buffer
  {
  }

  /** Reads that are not complete change nothing: neither the flag nor the queue. */
  lemma {:induction false} IncompleteReadsIgnored(isSpeed: bool, history: seq<Read>, r: Read)
    requires !Complete(r)
    ensures CaptureReads(isSpeed, history + [r]) == CaptureReads(isSpeed, history)
  {
    assert (history + [r])[..|history|] == history;
  }

  /** The capture thread's state: the speech flag and the queue it feeds. */
  class Recorder {
    var isSpeed: bool
    var queue: seq<VoiceFrame>

    constructor()
      ensures !isSpeed && queue == []
    {
      isSpeed := false;
      queue := [];
    }

    /** One iteration of the capture loop. */
    method CaptureFrame(r: Read)
      modifies this
      ensures isSpeed == (if Complete(r) then Latch(old(isSpeed), r.events) else old(isSpeed))
      ensures queue == old(queue) + (if Complete(r) then [VoiceFrame(r.buffer, isSpeed)] else [])
    {
      if r.count > 0 && r.count == |r.buffer| {
        if |r.events| > 0 {
          if StartEvent in r.events {
            isSpeed := true;
          }
          if EndEvent in r.events {
            isSpeed := false;
          }
        }
        queue := queue + [VoiceFrame(r.buffer, isSpeed)];
      }
    }

    /** The capture loop over the reads made while recording. */
    method Run(history: seq<Read>)
      modifies this
      ensures var c := CaptureReads(old(isSpeed), history);
        isSpeed == c.isSpeed && queue == old(queue) + c.queued
    {
      ghost var q0 := queue;
      ghost var f0 := isSpeed;
      var i := 0;
      while i < |history|
        invariant 0 <= i <= |history|
        invariant var c := CaptureReads(f0, history[..i]);
          isSpeed == c.isSpeed && queue == q0 + c.queued
      {
        assert history[..i + 1][..i] == history[..i];
        CaptureFrame(history[i]);
        i := i + 1;
      }
      assert history[..i] == history;
    }
  }
}
