/** The Kotlin wrapper around the Silero VAD model. It follows the Java
    wrapper step for step except in one place: `validateInput` downsamples a
    multiple of 16000 but hands back the caller's rate, so for such rates the
    rest of the call works with the original rate. */
module SileroKotlin {
  import opened Jvm
  import opened SileroCommon
  import SileroJava

  /** `validateInput`: the same checks, returning the caller's `sampleRate`. */
  function ValidateKotlin(x: Batch, sampleRate: int): (r: Result<Validated, VadError>)
    requires HandledRate(sampleRate)
    ensures r.Ok? ==> r.value.rate == sampleRate
  {
    match Validate(x, sampleRate)
    case Err(e) => Err(e)
    case Ok(v) => Ok(Validated(v.input, sampleRate))
  }

  /** `call(x, sr)` as a change of the fields and a result. */
  function CallEffect(st: VadState, x: Batch, sr: int, infer: Infer): CallOutcome
    requires HandledRate(sr)
  {
    match ValidateKotlin(x, sr)
    case Err(e) => CallOutcome(st, Err(e))
    case Ok(v) => CallValidated(st, v.input, v.rate, infer)
  }

  /** At every rate that is not a higher multiple of 16000 the two wrappers
      behave identically. */
  lemma AgreesWithJavaUnlessDownsampled(st: VadState, x: Batch, sr: int, infer: Infer)
    requires HandledRate(sr) && !Downsampled(sr)
    ensures CallEffect(st, x, sr, infer) == SileroJava.CallEffect(st, x, sr, infer)
  {
  }

  /** At a higher multiple of 16000 the wrappers part ways: both downsample
      the chunk, but the Kotlin wrapper then feeds the model 32 + 256 samples
      per row with the original rate as the rate tensor and remembers that
      rate, where the Java wrapper uses 64 + 512 samples and 16000. */
  lemma {:induction false} DownsampledRateDiverges(st: VadState, x: Batch, sr: int, infer: Infer)
    requires HandledRate(sr) && Downsampled(sr) && Validate(x, sr).Ok?
    ensures var input := DownsampleAll(x, sr / BasicSampleRate);
      && CallEffect(st, x, sr, infer) == CallValidated(st, input, sr, infer)
      && SileroJava.CallEffect(st, x, sr, infer) == CallValidated(st, input, BasicSampleRate, infer)
      && NumSamples(sr) == 256 && ContextSize(sr) == 32
      && NumSamples(BasicSampleRate) == 512 && ContextSize(BasicSampleRate) == 64
    ensures CallEffect(st, x, sr, infer).result.Ok? ==> CallEffect(st, x, sr, infer).next.lastSr == sr
  {
    ValidateResult(x, sr);
    if CallEffect(st, x, sr, infer).result.Ok? {
      SuccessCarriesTail(st, DownsampleAll(x, sr / BasicSampleRate), sr, infer);
    }
  }

  /** So after a successful Kotlin call at a higher multiple of 16000, a call
      at 16000 starts over from a zero state and a zero context. */
  lemma {:induction false} SwitchBackTo16000Resets(st: VadState, x: Batch, sr: int, infer: Infer, batchSize: nat)
    requires HandledRate(sr) && Downsampled(sr) && CallEffect(st, x, sr, infer).result.Ok?
    ensures var p := Prepare(CallEffect(st, x, sr, infer).next, batchSize, BasicSampleRate);
      p.state == ZeroState(batchSize) && p.context == ZeroRows(batchSize, ContextSize(BasicSampleRate))
  {
    DownsampledRateDiverges(st, x, sr, infer);
    RateChangeResets(CallEffect(st, x, sr, infer).next, batchSize, BasicSampleRate);
  }

  /** The wrapper's fields. */
  class SlieroVadOnnxModel2 {
    var state: Tensor
    var context: Batch
    var lastSr: int
    var lastBatchSize: int

    ghost function Snapshot(): VadState
      reads this
    {
      VadState(state, context, lastSr, lastBatchSize)
    }

    /** The `init` block's `resetStates()`; the session is not modelled. */
    constructor()
      ensures Snapshot() == Reset(1)
    {
      state := ZeroState(1);
      context := [];
      lastSr := 0;
      lastBatchSize := 0;
    }

    /** `resetStates(batchSize)`. */
    method ResetStates(batchSize: nat)
      modifies this
      ensures Snapshot() == Reset(batchSize)
    {
      state := ZeroState(batchSize);
      context := [];
      lastSr := 0;
      lastBatchSize := 0;
    }

    /** `call(x, sr)`. */
    method Call(x: Batch, sr: int, infer: Infer) returns (r: Result<Row, VadError>)
      requires HandledRate(sr)
      modifies this
      ensures CallOutcome(Snapshot(), r) == CallEffect(old(Snapshot()), x, sr, infer)
    {
      var validated := ValidateInput(x, sr);
      if validated.Err? {
        return Err(validated.error);
      }
      var input := validated.value.input;
      var rate := validated.value.rate;
      var batchSize := |input|;
      var numSamples := if rate == BasicSampleRate then 512 else 256;
      var contextSize := if rate == BasicSampleRate then 64 else 32;
      PrepareStates(batchSize, rate, contextSize);
      r := RunWindow(input, rate, numSamples, contextSize, infer);
    }

    /** The reset rule and the lazy context of `call`. */
    method PrepareStates(batchSize: nat, rate: int, contextSize: nat)
      requires contextSize == ContextSize(rate)
      modifies this
      ensures Snapshot() == Prepare(old(Snapshot()), batchSize, rate)
    {
      if lastSr != 0 && lastSr != rate {
        ResetStates(batchSize);
      } else if lastBatchSize != 0 && lastBatchSize != batchSize {
        ResetStates(batchSize);
      } else if lastBatchSize == 0 {
        lastBatchSize := batchSize;
      }
      if |context| == 0 {
        context := ZeroRows(batchSize, contextSize);
      }
    }

    /** The rest of `call`: the window with its context, the model run, and
        the update of the state, the context and the remembered values. */
    method RunWindow(input: Batch, rate: int, numSamples: nat, contextSize: nat, infer: Infer)
      returns (r: Result<Row, VadError>)
      requires numSamples == NumSamples(rate) && contextSize == ContextSize(rate)
      modifies this
      ensures CallOutcome(Snapshot(), r) == RunPrepared(old(Snapshot()), input, rate, infer)
    {
      var batchSize := |input|;
      var xWithContext := ConcatContext(context, input, batchSize, contextSize, numSamples);
      if xWithContext.None? {
        return Err(IndexOutOfBounds);
      }
      var outcome := infer(xWithContext.value, state, rate);
      if outcome.Threw? {
        return Err(InferenceFailed);
      }
      state := outcome.newState;
      UpdateContext(xWithContext.value, contextSize);
      lastSr := rate;
      lastBatchSize := batchSize;
      if |outcome.output| == 0 {
        return Err(IndexOutOfBounds);
      }
      return Ok(outcome.output[0]);
    }

    /** The context update loop: the last `contextSize` samples of each row of
        the model input are copied over the start of that context row. */
    method UpdateContext(xWithContext: Batch, contextSize: nat)
      requires |xWithContext| <= |context|
      requires forall i :: 0 <= i < |xWithContext| ==> contextSize <= |context[i]| && contextSize <= |xWithContext[i]|
      modifies this
      ensures context == CarryContext(old(context), xWithContext, contextSize)
      ensures state == old(state) && lastSr == old(lastSr) && lastBatchSize == old(lastBatchSize)
    {
      ghost var original := context;
      var i := 0;
      while i < |xWithContext|
        invariant 0 <= i <= |xWithContext|
        invariant |context| == |original|
        invariant forall k :: 0 <= k < |original| ==>
          context[k] == (if k < i then xWithContext[k][|xWithContext[k]| - contextSize..] + original[k][contextSize..] else original[k])
        invariant state == old(state) && lastSr == old(lastSr) && lastBatchSize == old(lastBatchSize)
      {
        var row := xWithContext[i];
        context := context[i := row[|row| - contextSize..] + context[i][contextSize..]];
        i := i + 1;
      }
      assert context == CarryContext(original, xWithContext, contextSize);
    }
  }

  /** `validateInput` with its downsampling loops. */
  method ValidateInput(x: Batch, sampleRate: int) returns (r: Result<Validated, VadError>)
    requires HandledRate(sampleRate)
    ensures r == ValidateKotlin(x, sampleRate)
  {
    var input := x;
    if |input| > 2 {
      return Err(BadDimension);
    }
    var sr := sampleRate;
    if sampleRate != BasicSampleRate && sampleRate % BasicSampleRate == 0 {
      var step := sampleRate / BasicSampleRate;
      input := DownsampleBatch(input, step);
      sr := BasicSampleRate;
    }
    if sr !in SampleRates {
      return Err(UnsupportedRate);
    }
    if |input| == 0 {
      return Err(IndexOutOfBounds);
    }
    if 4 * sr > 125 * |input[0]| {
      return Err(TooShort);
    }
    return Ok(Validated(input, sampleRate));
  }
}
