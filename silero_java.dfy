/** The Java wrapper around the Silero VAD model: it validates a chunk,
    resets its recurrent state when the rate or batch size changes, glues the
    previous chunk's tail in front of the new one, runs the model, and keeps
    the new state and tail for the next call. Validation hands back the rate
    after downsampling, so everything after it works at 8000 or 16000. */
module SileroJava {
  import opened Jvm
  import opened SileroCommon

  /** `call(x, sr)` as a change of the fields and a result. */
  function CallEffect(st: VadState, x: Batch, sr: int, infer: Infer): CallOutcome
    requires HandledRate(sr)
  {
    match Validate(x, sr)
    case Err(e) => CallOutcome(st, Err(e))
    case Ok(v) => CallValidated(st, v.input, v.rate, infer)
  }

  /** A chunk that fails validation leaves every field as it was. */
  lemma RejectedChunkChangesNothing(st: VadState, x: Batch, sr: int, infer: Infer)
    requires HandledRate(sr) && Validate(x, sr).Err?
    ensures CallEffect(st, x, sr, infer) == CallOutcome(st, Err(Validate(x, sr).error))
  {
  }

  /** After a successful call the wrapper remembers a supported rate (16000
      for every multiple of it) and the batch size, and each context row
      begins with the last context-size samples of that row's window. */
  lemma {:induction false} SuccessfulCallRemembersRate(st: VadState, x: Batch, sr: int, infer: Infer)
    requires HandledRate(sr) && CallEffect(st, x, sr, infer).result.Ok?
    ensures var o := CallEffect(st, x, sr, infer);
      var v := Validate(x, sr).value;
      && o.next.lastSr in SampleRates
      && (Downsampled(sr) ==> o.next.lastSr == BasicSampleRate)
      && o.next.lastBatchSize == |x|
      && forall i :: 0 <= i < |x| ==>
           o.next.context[i][..ContextSize(v.rate)] == v.input[i][NumSamples(v.rate) - ContextSize(v.rate)..NumSamples(v.rate)]
  {
    ValidateResult(x, sr);
    var v := Validate(x, sr).value;
    SuccessCarriesTail(st, v.input, v.rate, infer);
  }

  /** A successful call fed the model the remembered context followed by
      exactly one window of the chunk: 64 + 512 samples per row at 16000,
      32 + 256 at 8000. */
  lemma {:induction false} WindowSize(st: VadState, x: Batch, sr: int, infer: Infer)
    requires HandledRate(sr) && Validate(x, sr).Ok?
    ensures var v := Validate(x, sr).value;
      (v.rate == BasicSampleRate ==> NumSamples(v.rate) == 512 && ContextSize(v.rate) == 64)
      && (v.rate != BasicSampleRate ==> v.rate == 8000 && NumSamples(v.rate) == 256 && ContextSize(v.rate) == 32)
  {
    ValidateResult(x, sr);
  }

  /** The wrapper's fields. */
  class SlieroVadOnnxModel {
    var state: Tensor
    var context: Batch
    var lastSr: int
    var lastBatchSize: int

    ghost function Snapshot(): VadState
      reads this
    {
      VadState(state, context, lastSr, lastBatchSize)
    }

    /** The constructor's `resetStates()`; the session is not modelled. */
    constructor()
      ensures Snapshot() == Reset(1)
    {
      state := ZeroState(1);
      context := [];
      lastSr := 0;
      lastBatchSize := 0;
    }

    /** `resetStates(batchSize)`. */
    method ResetStates(batchSize: nat)
      modifies this
      ensures Snapshot() == Reset(batchSize)
    {
      state := ZeroState(batchSize);
      context := [];
      lastSr := 0;
      lastBatchSize := 0;
    }

    /** `call(x, sr)`. */
    method Call(x: Batch, sr: int, infer: Infer) returns (r: Result<Row, VadError>)
      requires HandledRate(sr)
      modifies this
      ensures CallOutcome(Snapshot(), r) == CallEffect(old(Snapshot()), x, sr, infer)
    {
      var validated := ValidateInput(x, sr);
      if validated.Err? {
        return Err(validated.error);
      }
      var input := validated.value.input;
      var rate := validated.value.rate;
      var batchSize := |input|;
      var numSamples := if rate == BasicSampleRate then 512 else 256;
      var contextSize := if rate == BasicSampleRate then 64 else 32;
      PrepareStates(batchSize, rate, contextSize);
      r := RunWindow(input, rate, numSamples, contextSize, infer);
    }

    /** The reset rule and the lazy context of `call`. */
    method PrepareStates(batchSize: nat, rate: int, contextSize: nat)
      requires contextSize == ContextSize(rate)
      modifies this
      ensures Snapshot() == Prepare(old(Snapshot()), batchSize, rate)
    {
      if lastSr != 0 && lastSr != rate {
        ResetStates(batchSize);
      } else if lastBatchSize != 0 && lastBatchSize != batchSize {
        ResetStates(batchSize);
      } else if lastBatchSize == 0 {
        lastBatchSize := batchSize;
      }
      if |context| == 0 {
        context := ZeroRows(batchSize, contextSize);
      }
    }

    /** The rest of `call`: the window with its context, the model run, and
        the update of the state, the context and the remembered values. */
    method RunWindow(input: Batch, rate: int, numSamples: nat, contextSize: nat, infer: Infer)
      returns (r: Result<Row, VadError>)
      requires numSamples == NumSamples(rate) && contextSize == ContextSize(rate)
      modifies this
      ensures CallOutcome(Snapshot(), r) == RunPrepared(old(Snapshot()), input, rate, infer)
    {
      var batchSize := |input|;
      var xWithContext := ConcatContext(context, input, batchSize, contextSize, numSamples);
      if xWithContext.None? {
        return Err(IndexOutOfBounds);
      }
      var outcome := infer(xWithContext.value, state, rate);
      if outcome.Threw? {
        return Err(InferenceFailed);
      }
      state := outcome.newState;
      UpdateContext(xWithContext.value, contextSize);
      lastSr := rate;
      lastBatchSize := batchSize;
      if |outcome.output| == 0 {
        return Err(IndexOutOfBounds);
      }
      return Ok(outcome.output[0]);
    }

    /** The context update loop: the last `contextSize` samples of each row of
        the model input are copied over the start of that context row. */
    method UpdateContext(xWithContext: Batch, contextSize: nat)
      requires |xWithContext| <= |context|
      requires forall i :: 0 <= i < |xWithContext| ==> contextSize <= |context[i]| && contextSize <= |xWithContext[i]|
      modifies this
      ensures context == CarryContext(old(context), xWithContext, contextSize)
      ensures state == old(state) && lastSr == old(lastSr) && lastBatchSize == old(lastBatchSize)
    {
      ghost var original := context;
      var i := 0;
      while i < |xWithContext|
        invariant 0 <= i <= |xWithContext|
        invariant |context| == |original|
        invariant forall k :: 0 <= k < |original| ==>
          context[k] == (if k < i then xWithContext[k][|xWithContext[k]| - contextSize..] + original[k][contextSize..] else original[k])
        invariant state == old(state) && lastSr == old(lastSr) && lastBatchSize == old(lastBatchSize)
      {
        var row := xWithContext[i];
        context := context[i := row[|row| - contextSize..] + context[i][contextSize..]];
        i := i + 1;
      }
      assert context == CarryContext(original, xWithContext, contextSize);
    }
  }

  /** `validateInput` with its downsampling loops. */
  method ValidateInput(x: Batch, sr: int) returns (r: Result<Validated, VadError>)
    requires HandledRate(sr)
    ensures r == Validate(x, sr)
  {
    var input := x;
    if |input| > 2 {
      return Err(BadDimension);
    }
    var rate := sr;
    if sr != BasicSampleRate && sr % BasicSampleRate == 0 {
      var step := sr / BasicSampleRate;
      input := DownsampleBatch(input, step);
      rate := BasicSampleRate;
    }
    if rate !in SampleRates {
      return Err(UnsupportedRate);
    }
    if |input| == 0 {
      return Err(IndexOutOfBounds);
    }
    if 4 * rate > 125 * |input[0]| {
      return Err(TooShort);
    }
    return Ok(Validated(input, rate));
  }
}
