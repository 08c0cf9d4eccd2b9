/** What the two Silero VAD wrappers share: the shapes of their tensors,
    input validation with downsampling, the state reset rule, the context
    window glued in front of each chunk, and the carry of the chunk's tail
    into the next call's context. The ONNX session itself is not modelled:
    a call's inference is a function passed in (`Infer`). */
module SileroCommon {
  import opened Jvm

  /** A `float` as its 32-bit pattern; samples are only copied, never computed on. */
  type Sample = bv32

  /** `0f`. */
  const Zero: Sample := 0

  type Row = seq<Sample>
  type Batch = seq<Row>
  type Tensor = seq<Batch>

  /** The rate the model runs at, which higher multiples are downsampled to. */
  const BasicSampleRate: int := 16000
  const SampleRates: set<int> := {8000, 16000}
  const StateWidth: int := 128

  /** Why a call throws. `IndexOutOfBounds` stands for the array index
      failures of `x[0]`, `System.arraycopy` and `output[0]`. */
  datatype VadError = BadDimension | UnsupportedRate | TooShort | IndexOutOfBounds | InferenceFailed

  /** What the ONNX session returns: the output probabilities and the next
      recurrent state, or an exception. */
  datatype Inference = Ran(output: Batch, newState: Tensor) | Threw

  /** The session's run on the input with context, the state and the rate tensor. */
  type Infer = (Batch, Tensor, int) -> Inference

  /** The wrapper's fields. */
  datatype VadState = VadState(state: Tensor, context: Batch, lastSr: int, lastBatchSize: int)

  /** The checked input and the rate the rest of the call works with. */
  datatype Validated = Validated(input: Batch, rate: int)

  /** A call's effect: the new fields and what it returns or throws. */
  datatype CallOutcome = CallOutcome(next: VadState, result: Result<Row, VadError>)

  /** `new float[n]`: the JVM fills a new array with zeros. */
  function Zeros(n: nat): (r: Row)
    ensures |r| == n && forall i :: 0 <= i < n ==> r[i] == Zero
  {
    seq(n, _ => Zero)
  }

  /** `new float[rows][n]`: every row is a new zero array. */
  function ZeroRows(rows: nat, n: nat): (r: Batch)
    ensures |r| == rows && forall i :: 0 <= i < rows ==> r[i] == Zeros(n)
  {
    seq(rows, _ => Zeros(n))
  }

  /** `new float[2][batchSize][128]`: two layers of zero rows. */
  function ZeroState(batchSize: nat): (r: Tensor)
    ensures |r| == 2 && forall k :: 0 <= k < 2 ==> r[k] == ZeroRows(batchSize, StateWidth)
  {
    seq(2, _ => ZeroRows(batchSize, StateWidth))
  }

  /** `resetStates(batchSize)`: a zero state for the batch, no context, and
      no remembered rate or batch size. */
  function Reset(batchSize: nat): VadState {
    VadState(ZeroState(batchSize), [], 0, 0)
  }

  /** Samples fed to the model per call. */
  function NumSamples(rate: int): int {
    if rate == BasicSampleRate then 512 else 256
  }

  /** Samples of the previous chunk kept as context. */
  function ContextSize(rate: int): int {
    if rate == BasicSampleRate then 64 else 32
  }

  // ---------------------------------------------------------------------------
  // Downsampling

  /** Every `step`-th sample of a channel, starting with the first. */
  function Downsample(channel: Row, step: nat): Row
    requires step > 0
    decreases |channel|
  {
    if channel == [] then []
    else [channel[0]] + Downsample(channel[if step < |channel| then step else |channel|..], step)
  }

  /** The outer downsampling loop: one `reducedX[i]` per channel, each
      channel downsampled on its own. */
  function DownsampleAll(x: Batch, step: nat): (r: Batch)
    requires step > 0
    ensures |r| == |x| && forall i :: 0 <= i < |x| ==> r[i] == Downsample(x[i], step)
  {
    seq(|x|, i requires 0 <= i < |x| => Downsample(x[i], step))
  }

  /** The downsampled channel has `ceil(|channel| / step)` samples, the k-th
      being the channel's `k * step`-th. */
  lemma {:induction false} DownsampleAt(channel: Row, step: nat)
    requires step > 0
    ensures |Downsample(channel, step)| == (|channel| + step - 1) / step
    ensures forall k :: 0 <= k < |Downsample(channel, step)| ==>
      k * step < |channel| && Downsample(channel, step)[k] == channel[k * step]
    decreases |channel|, 1
  {
    var r := Downsample(channel, step);
    if channel == [] {
      assert (step - 1) / step == 0;
    } else if |channel| <= step {
      assert channel[|channel|..] == [];
      assert r == [channel[0]] + Downsample([], step);
      assert r == [channel[0]];
      CeilOfAtMostOne(|channel|, step);
    } else {
      DownsampleAtLong(channel, step);
    }
  }

  /** The inductive step of `DownsampleAt`, for a channel longer than `step`. */
  lemma {:induction false} DownsampleAtLong(channel: Row, step: nat)
    requires 0 < step < |channel|
    ensures |Downsample(channel, step)| == (|channel| + step - 1) / step
    ensures forall k :: 0 <= k < |Downsample(channel, step)| ==>
      k * step < |channel| && Downsample(channel, step)[k] == channel[k * step]
    decreases |channel|, 0
  {
    var r := Downsample(channel, step);
    var rest := channel[step..];
    DownsampleAt(rest, step);
    var d := Downsample(rest, step);
    assert r == [channel[0]] + d;
    DivShift(|channel| - 1, step);
    forall k | 0 <= k < |r|
      ensures k * step < |channel| && r[k] == channel[k * step]
    {
      if k > 0 {
        ShiftedIndex(k, step, |rest|);
        assert r[k] == d[k - 1] == rest[(k - 1) * step];
      }
    }
  }

  /** A channel no longer than one step gives one sample. */
  lemma CeilOfAtMostOne(n: int, step: int)
    requires 0 < n <= step
    ensures (n + step - 1) / step == 1
  {
    ModUnique(n + step - 1, step, 1, n - 1);
  }

  lemma ShiftedIndex(k: int, step: int, n: int)
    requires (k - 1) * step < n
    ensures (k - 1) * step + step == k * step && k * step < n + step
  {
  }

  lemma DivShift(a: nat, d: int)
    requires d > 0
    ensures (a + d) / d == a / d + 1
  {
    ModUnique(a + d, d, a / d + 1, a % d);
  }

  /** One channel downsampled by the source's loop: `newArr[index] = current[j]`
      for `j` stepping by `step` from 0, `index` counting from 0. */
  method DownsampleChannel(current: Row, step: nat) returns (reduced: Row)
    requires step > 0
    ensures reduced == Downsample(current, step)
  {
    var newArr := new Sample[(|current| + step - 1) / step](_ => Zero);
    FillEveryStep(newArr, current, step);
    reduced := newArr[..];
    DownsampleAt(current, step);
    assert |reduced| == |Downsample(current, step)|;
    forall k | 0 <= k < |reduced|
      ensures reduced[k] == Downsample(current, step)[k]
    {
    }
  }

  /** The loop itself: `newArr[index] = current[j]` for `j` stepping by
      `step` from 0 and `index` counting from 0. */
  method FillEveryStep(newArr: array<Sample>, current: Row, step: nat)
    requires step > 0 && newArr.Length == (|current| + step - 1) / step
    modifies newArr
    ensures forall k :: 0 <= k < newArr.Length ==> k * step < |current| && newArr[k] == current[k * step]
  {
    var j, index := 0, 0;
    while j < |current|
      invariant 0 <= index <= newArr.Length && j == index * step
      invariant forall k :: 0 <= k < index ==> k * step < |current| && newArr[k] == current[k * step]
      decreases |current| - j
    {
      StepBound(|current|, step, index);
      newArr[index] := current[j];
      j, index := j + step, index + 1;
    }
    StepBound(|current|, step, index);
  }

  /** The loop's index stays below the array's size exactly while its
      position stays inside the channel. */
  lemma StepBound(len: nat, step: nat, index: nat)
    requires step > 0
    ensures index < (len + step - 1) / step <==> index * step < len
  {
    var q := (len + step - 1) / step;
    var r := (len + step - 1) % step;
    assert len + step - 1 == q * step + r && 0 <= r < step;
    if index < q {
      MulMono(index + 1, q, step);
    } else {
      MulMono(q, index, step);
    }
  }

  lemma MulMono(a: int, b: int, c: nat)
    requires a <= b
    ensures a * c <= b * c
  {
  }

  /** The downsampling loop of `validateInput`, over every channel. */
  method DownsampleBatch(x: Batch, step: nat) returns (reducedX: Batch)
    requires step > 0
    ensures reducedX == DownsampleAll(x, step)
  {
    reducedX := [];
    var i := 0;
    while i < |x|
      invariant 0 <= i <= |x|
      invariant reducedX == DownsampleAll(x[..i], step)
    {
      var newArr := DownsampleChannel(x[i], step);
      reducedX := reducedX + [newArr];
      i := i + 1;
    }
    assert x[..i] == x;
  }

  // ---------------------------------------------------------------------------
  // Validation

  /** The rates a call is defined for: every positive rate, and every rate
      that is not a multiple of 16000, which validation rejects as
      unsupported. A zero or negative multiple of 16000 gives a downsampling
      step of zero or less, on which the source fails in array arithmetic. */
  predicate HandledRate(sr: int) {
    sr > 0 || sr % BasicSampleRate != 0
  }

  /** Whether `rate` is a multiple of 16000 other than 16000 itself, which
      the wrappers downsample. */
  predicate Downsampled(rate: int) {
    rate != BasicSampleRate && rate % BasicSampleRate == 0
  }

  /** The checks of `validateInput` in their order: at most two channels;
      multiples of 16000 downsampled to 16000; a supported rate; a first
      channel (indexing it fails on an empty batch); and at least
      `rate / 31.25` samples in it. The result carries the rate after
      downsampling. */
  function Validate(x: Batch, sr: int): Result<Validated, VadError>
    requires HandledRate(sr)
  {
    if |x| > 2 then Err(BadDimension)
    else
      var input := if Downsampled(sr) then DownsampleAll(x, sr / BasicSampleRate) else x;
      var rate := if Downsampled(sr) then BasicSampleRate else sr;
      if rate !in SampleRates then Err(UnsupportedRate)
      else if |input| == 0 then Err(IndexOutOfBounds)
      else if ChunkTooShort(rate, |input[0]|) then Err(TooShort)
      else Ok(Validated(input, rate))
  }

  /** `rate / length > 31.25` in `float`. For the two supported rates the
      quotient is never within rounding distance of 31.25 unless equal to it,
      and a zero length gives infinity; so it is the exact comparison. */
  predicate ChunkTooShort(rate: int, length: nat) {
    4 * rate > 125 * length
  }

  /** Validation succeeds exactly when there are one or two channels, the
      rate is 8000, 16000 or a multiple of 16000, and the first channel,
      after downsampling, holds at least a full window of samples. */
  lemma ValidateOkIff(x: Batch, sr: int)
    requires HandledRate(sr)
    ensures Validate(x, sr).Ok? <==>
      && 1 <= |x| <= 2
      && (sr in SampleRates || sr % BasicSampleRate == 0)
      && |(if Downsampled(sr) then Downsample(x[0], sr / BasicSampleRate) else x[0])|
         >= NumSamples(if Downsampled(sr) then BasicSampleRate else sr)
  {
  }

  /** What validation returns: as many channels as it was given, each the
      original or its downsampling, at a supported rate, with the first
      channel long enough for one window. */
  lemma ValidateResult(x: Batch, sr: int)
    requires HandledRate(sr) && Validate(x, sr).Ok?
    ensures var v := Validate(x, sr).value;
      && v.rate in SampleRates
      && |v.input| == |x|
      && (Downsampled(sr) ==> v.rate == BasicSampleRate && v.input == DownsampleAll(x, sr / BasicSampleRate))
      && (!Downsampled(sr) ==> v.rate == sr && v.input == x)
      && |v.input[0]| >= NumSamples(v.rate)
  {
  }

  /** Too many channels are refused before anything else; an unsupported
      rate before an empty batch or a short chunk. */
  lemma ValidateErrorOrder(x: Batch, sr: int)
    requires HandledRate(sr)
    ensures |x| > 2 ==> Validate(x, sr) == Err(BadDimension)
    ensures |x| <= 2 && sr !in SampleRates && sr % BasicSampleRate != 0 ==> Validate(x, sr) == Err(UnsupportedRate)
    ensures |x| == 0 && (sr in SampleRates || sr % BasicSampleRate == 0) ==> Validate(x, sr) == Err(IndexOutOfBounds)
  {
  }

  // ---------------------------------------------------------------------------
  // The call, after validation

  /** The reset rule and the lazy context: a change of rate or of batch size
      since the last successful call resets the state for the new batch; the
      first call only records the batch size; a missing context is created
      as zeros. */
  function Prepare(st: VadState, batchSize: nat, rate: int): VadState {
    var s1 := if st.lastSr != 0 && st.lastSr != rate then Reset(batchSize)
              else if st.lastBatchSize != 0 && st.lastBatchSize != batchSize then Reset(batchSize)
              else if st.lastBatchSize == 0 then st.(lastBatchSize := batchSize)
              else st;
    if |s1.context| == 0 then s1.(context := ZeroRows(batchSize, ContextSize(rate))) else s1
  }

  /** Each row of the model input: the first `cs` samples of the context row
      followed by the first `ns` samples of the input row, or an index
      failure when some row is missing or too short. */
  function WithContext(context: Batch, x: Batch, batchSize: nat, cs: nat, ns: nat): Option<Batch> {
    if CanConcat(context, x, batchSize, cs, ns)
    then Some(seq(batchSize, i requires 0 <= i < batchSize && CanConcat(context, x, batchSize, cs, ns) => context[i][..cs] + x[i][..ns]))
    else None
  }

  predicate CanConcat(context: Batch, x: Batch, batchSize: nat, cs: nat, ns: nat) {
    && batchSize <= |context| && batchSize <= |x|
    && forall i :: 0 <= i < batchSize ==> cs <= |context[i]| && ns <= |x[i]|
  }

  /** The context after a successful run: in each of the batch's rows the
      first `cs` samples are overwritten with the last `cs` samples of that
      row of the model input; the rest of the row, and rows beyond the
      batch, are kept. */
  function CarryContext(context: Batch, xWithContext: Batch, cs: nat): Batch
    requires |xWithContext| <= |context|
    requires forall i :: 0 <= i < |xWithContext| ==> cs <= |context[i]| && cs <= |xWithContext[i]|
  {
    seq(|context|, i requires 0 <= i < |context| =>
      if i < |xWithContext|
      then xWithContext[i][|xWithContext[i]| - cs..] + context[i][cs..]
      else context[i])
  }

  /** `call` once the input is validated: `input` and `rate` are what
      validation handed back, and `rate` is both the rate tensor and the
      rate remembered. */
  function CallValidated(st: VadState, input: Batch, rate: int, infer: Infer): CallOutcome {
    RunPrepared(Prepare(st, |input|, rate), input, rate, infer)
  }

  /** The window with its context, the model run, and the update of the
      state, the context and the remembered values, from the prepared fields `p`. */
  function RunPrepared(p: VadState, input: Batch, rate: int, infer: Infer): CallOutcome {
    var batchSize := |input|;
    var ns := NumSamples(rate);
    var cs := ContextSize(rate);
    match WithContext(p.context, input, batchSize, cs, ns)
    case None => CallOutcome(p, Err(IndexOutOfBounds))
    case Some(xWithContext) =>
      match infer(xWithContext, p.state, rate)
      case Threw => CallOutcome(p, Err(InferenceFailed))
      case Ran(output, newState) =>
        var next := VadState(newState, CarryContext(p.context, xWithContext, cs), rate, batchSize);
        if |output| == 0 then CallOutcome(next, Err(IndexOutOfBounds))
        else CallOutcome(next, Ok(output[0]))
  }

  /** The concatenation loop of `call`. */
  method ConcatContext(context: Batch, x: Batch, batchSize: nat, cs: nat, ns: nat) returns (r: Option<Batch>)
    ensures r == WithContext(context, x, batchSize, cs, ns)
  {
    var xWithContext: Batch := [];
    var i := 0;
    while i < batchSize
      invariant 0 <= i <= batchSize
      invariant |xWithContext| == i
      invariant i <= |context| && i <= |x|
      invariant forall k :: 0 <= k < i ==> cs <= |context[k]| && ns <= |x[k]| && xWithContext[k] == context[k][..cs] + x[k][..ns]
    {
      if i >= |context| || |context[i]| < cs || i >= |x| || |x[i]| < ns {
        return None;
      }
      xWithContext := xWithContext + [context[i][..cs] + x[i][..ns]];
      i := i + 1;
    }
    assert CanConcat(context, x, batchSize, cs, ns);
    assert xWithContext == WithContext(context, x, batchSize, cs, ns).value;
    return Some(xWithContext);
  }

  // ---------------------------------------------------------------------------
  // Properties of a call

  /** A call at the remembered rate and batch size, with a context present,
      keeps the state, the context and the remembered values as they are. */
  lemma SteadyCallKeepsState(st: VadState, batchSize: nat, rate: int)
    requires rate != 0 && st.lastSr == rate && st.lastBatchSize == batchSize && batchSize != 0
    requires |st.context| != 0
    ensures Prepare(st, batchSize, rate) == st
  {
  }

  /** A call at a new rate, after a successful call at another, runs the
      model on a zeroed state and a zeroed context for the new batch. */
  lemma RateChangeResets(st: VadState, batchSize: nat, rate: int)
    requires st.lastSr != 0 && st.lastSr != rate
    ensures var p := Prepare(st, batchSize, rate);
      && p.state == ZeroState(batchSize)
      && p.context == ZeroRows(batchSize, ContextSize(rate))
      && p.lastSr == 0 && p.lastBatchSize == 0
  {
  }

  /** At the remembered rate (or with none remembered), a batch size other
      than the remembered one resets the state and the context for the new
      batch and forgets the rate and the batch size. */
  lemma BatchChangeResets(st: VadState, batchSize: nat, rate: int)
    requires st.lastSr == 0 || st.lastSr == rate
    requires st.lastBatchSize != 0 && st.lastBatchSize != batchSize
    ensures var p := Prepare(st, batchSize, rate);
      && p.state == ZeroState(batchSize)
      && p.context == ZeroRows(batchSize, ContextSize(rate))
      && p.lastSr == 0 && p.lastBatchSize == 0
  {
  }

  /** The first call after a reset only records the batch size and creates
      a zero context; the state is kept as the reset left it. */
  lemma FirstCallRecordsBatch(st: VadState, batchSize: nat, rate: int)
    requires st.lastSr == 0 && st.lastBatchSize == 0 && |st.context| == 0
    ensures Prepare(st, batchSize, rate)
         == st.(lastBatchSize := batchSize, context := ZeroRows(batchSize, ContextSize(rate)))
  {
  }

  /** After a successful call the model's new state is kept, the rate and
      batch size are remembered, and each context row begins with the last
      `cs` samples of that row's window, i.e. the samples just before
      position `ns` of the input row. */
  lemma {:induction false} SuccessCarriesTail(st: VadState, input: Batch, rate: int, infer: Infer)
    requires CallValidated(st, input, rate, infer).result.Ok?
    ensures var o := CallValidated(st, input, rate, infer);
      var cs := ContextSize(rate);
      var ns := NumSamples(rate);
      && o.next.lastSr == rate && o.next.lastBatchSize == |input|
      && |input| <= |o.next.context|
      && forall i :: 0 <= i < |input| ==>
           ns <= |input[i]| && cs <= |o.next.context[i]| && o.next.context[i][..cs] == input[i][ns - cs..ns]
  {
    var cs := ContextSize(rate);
    var ns := NumSamples(rate);
    var p := Prepare(st, |input|, rate);
    var xwc := WithContext(p.context, input, |input|, cs, ns).value;
    var o := CallValidated(st, input, rate, infer);
    assert o.next.context == CarryContext(p.context, xwc, cs);
    forall i | 0 <= i < |input|
      ensures o.next.context[i][..cs] == input[i][ns - cs..ns]
    {
      assert xwc[i] == p.context[i][..cs] + input[i][..ns];
      assert xwc[i][|xwc[i]| - cs..] == input[i][ns - cs..ns];
    }
  }

  /** When the model run throws, the call leaves the fields as the reset
      rule and the lazy context left them before the run: the state, the
      context and the remembered rate and batch size are not updated, and a
      call that needed no preparation changes nothing at all. */
  lemma FailedRunKeepsPreparedFields(st: VadState, input: Batch, rate: int, infer: Infer)
    requires var p := Prepare(st, |input|, rate);
      var w := WithContext(p.context, input, |input|, ContextSize(rate), NumSamples(rate));
      w.Some? && infer(w.value, p.state, rate).Threw?
    ensures CallValidated(st, input, rate, infer) == CallOutcome(Prepare(st, |input|, rate), Err(InferenceFailed))
    ensures rate != 0 && st.lastSr == rate && st.lastBatchSize == |input| && |input| != 0 && |st.context| != 0 ==>
      CallValidated(st, input, rate, infer).next == st
  {
  }

  /** Two successful calls in a row at the same rate and batch size: the
      second call's model input is, row by row, the last `cs` samples of the
      first chunk's window followed by the second chunk's window. */
  lemma {:induction false} ConsecutiveCallsOverlap(st: VadState, a: Batch, b: Batch, rate: int, infer: Infer)
    requires rate != 0 && |a| == |b| && |a| != 0
    requires CallValidated(st, a, rate, infer).result.Ok?
    requires forall i :: 0 <= i < |b| ==> NumSamples(rate) <= |b[i]|
    ensures var mid := CallValidated(st, a, rate, infer).next;
      var cs := ContextSize(rate);
      var ns := NumSamples(rate);
      WithContext(Prepare(mid, |b|, rate).context, b, |b|, cs, ns)
        == Some(seq(|b|, i requires 0 <= i < |b| => a[i][ns - cs..ns] + b[i][..ns]))
  {
    var mid := CallValidated(st, a, rate, infer).next;
    var cs := ContextSize(rate);
    var ns := NumSamples(rate);
    SuccessCarriesTail(st, a, rate, infer);
    SteadyCallKeepsState(mid, |b|, rate);
    assert CanConcat(mid.context, b, |b|, cs, ns);
    var w := WithContext(mid.context, b, |b|, cs, ns).value;
    var expected := seq(|b|, i requires 0 <= i < |b| => a[i][ns - cs..ns] + b[i][..ns]);
    assert |w| == |expected|;
    forall i | 0 <= i < |b|
      ensures w[i] == expected[i]
    {
      assert w[i] == mid.context[i][..cs] + b[i][..ns];
    }
    assert w == expected;
  }
}
