/** TransferLearningHelper: the sample store, the weight lifecycle (restore, initialize with
    its fallback chain, persist and reload), the recovery path of loadBottleneck and the
    epoch loop of startTraining. Every call into the TFLite interpreter is an oracle: the
    k-th call the helper makes has the outcome `outcomes(k)`, and the helper keeps the log
    of the calls it made. */
module TransferLearning {
  import opened Common
  import opened TrainingData
  import opened Signatures
  import opened ErrorClassifier

  const MaxEpochs: nat := 100
  const DefaultBottleneckSize: int := 1 * 7 * 7 * 1280
  const DefaultBatchSize: int := 1
  /** The checkpoint file, <filesDir>/trained_models/model_checkpoint. */
  const CheckpointFilePath: string := "trained_models/model_checkpoint"
  const LoadBottleneckInputKey: string := "feature"
  const TrainingInputBottleneckKey: string := "bottleneck"
  const TrainingInputLabelsKey: string := "label"

  /** What the interpreter answers when asked for an input tensor of a signature: no
      tensor, a tensor with this shape, or an exception. */
  datatype ShapeLookup = NoTensor | Shape(dims: seq<int>) | LookupFails

  /** The loaded model as far as the helper inspects it: the declared inputs of each
      signature, the shape of input tensor 0 and the three shapes updateModelConstraints
      reads. */
  datatype Runtime = Runtime(
    signatureInputs: map<string, seq<SignatureInput>>,
    inputTensorShape: seq<int>,
    loadFeatureShape: ShapeLookup,
    trainBottleneckShape: ShapeLookup,
    trainLabelShape: ShapeLookup)

  /** extractSignatureNames(interpreter?.getSignatureInputs(key)): nothing without an
      interpreter or for an unknown signature. */
  function InputsOf(interpreter: Option<Runtime>, signatureKey: string): (r: seq<SignatureInput>)
    ensures interpreter.None? ==> r == []
  {
    if interpreter.Some? && signatureKey in interpreter.value.signatureInputs
    then interpreter.value.signatureInputs[signatureKey] else []
  }

  /** The input map a save, restore or initialize run receives. */
  function CheckpointInputs(interpreter: Option<Runtime>, signatureKey: string): map<string, InputValue>
  {
    AddCheckpointInputIfRequired(signatureKey, InputsOf(interpreter, signatureKey), map[], CheckpointFilePath)
  }

  /** The checkpoint file: absent, present but empty, or written. */
  datatype CheckpointFile = Missing | Empty | Written

  /** The result of one interpreter call: the output it wrote, or what it threw. */
  datatype Outcome = Succeeds(output: seq<real>) | Fails(error: Throwable)

  /** A call into the interpreter: a signature run with its input map, the reflective
      zero-input run, or resetVariableTensors(). */
  datatype Call =
    | RunSignature(signature: string, inputs: map<string, InputValue>)
    | ReflectiveRun(signature: string)
    | ResetVariableTensors

  /** The onError messages the helper reports. */
  datatype ErrorKind =
    | TfliteInitFailed
    | SetupFailed
    | SaveFailed
    | LoadFailed
    | InitializeWeightsFailed
    | WeightsUnavailable
    | Rejected(reason: ValidationError)
    | TrainingFailed

  /** The listener notifications, in the order they are delivered. */
  datatype Event =
    | Error(kind: ErrorKind)
    | ModelSaved
    | ModelLoaded
    | LossResults
    | EpochUpdate(epoch: nat, progress: nat)
    | TrainingComplete

  predicate Succeeded(outcomes: nat -> Outcome, i: nat)
  {
    outcomes(i).Succeeds?
  }

  // ---------------------------------------------------------------------------
  // The initialize fallback chain

  /** initializeUsingZeroInputSignature: the reflective run (skipped, as the runner
      reports inputs, when the signature declares any), then resetVariableTensors. */
  function ZeroInputChain(rt: Runtime): (r: seq<Call>)
    ensures 1 <= |r| <= 2 && r[|r| - 1] == ResetVariableTensors
  {
    (if InputsOf(Some(rt), InitializeKey) == [] then [ReflectiveRun(InitializeKey)] else [])
    + [ResetVariableTensors]
  }

  /** The calls initializeModelWeights may make, in order: the run with the declared
      inputs (or the empty-input run when none are declared), then the zero-input chain. */
  function InitializeChain(rt: Runtime): (r: seq<Call>)
  {
    var declared := InputsOf(Some(rt), InitializeKey);
    if declared != [] then
      var inputs := CheckpointInputs(Some(rt), InitializeKey);
      (if inputs == map[] then [] else [RunSignature(InitializeKey, inputs)]) + ZeroInputChain(rt)
    else [RunSignature(InitializeKey, map[])] + ZeroInputChain(rt)
  }

  /** The attempts are a prefix of the chain, made in order, each one made only because the
      one before it failed, and the chain is left only after a success. */
  predicate TriedUntilSuccess(attempts: seq<Call>, chain: seq<Call>, outcomes: nat -> Outcome, start: nat)
  {
    1 <= |attempts| <= |chain| && attempts == chain[..|attempts|]
    && (forall i :: start <= i < start + |attempts| - 1 ==> !Succeeded(outcomes, i))
    && (|attempts| < |chain| ==> Succeeded(outcomes, start + |attempts| - 1))
  }

  /** A slice of a sequence is unchanged by appending to the sequence. */
  lemma SliceOfExtension<T>(a: seq<T>, b: seq<T>, i: nat, j: nat)
    requires |a| <= |b| && b[..|a|] == a && i <= j <= |a|
    ensures b[i..j] == a[i..j]
  {
    forall k | 0 <= k < j - i
      ensures b[i..j][k] == a[i..j][k]
    {
      assert b[i + k] == b[..|a|][i + k];
    }
  }

  /** The tail of an extended sequence from i is the old tail from i and what was appended. */
  lemma SliceAcrossExtension<T>(a: seq<T>, b: seq<T>, i: nat)
    requires i <= |a| <= |b| && b[..|a|] == a
    ensures b[i..] == a[i..] + b[|a|..]
  {
    assert b == b[..|a|] + b[|a|..];
  }

  /** `after` is `before` followed by the attempts of `chain`, tried until one succeeded. */
  predicate ChainTried(before: seq<Call>, after: seq<Call>, chain: seq<Call>, outcomes: nat -> Outcome)
  {
    |before| < |after| && after[..|before|] == before
    && TriedUntilSuccess(after[|before|..], chain, outcomes, |before|)
  }

  /** A first attempt that succeeds is the chain tried until success. */
  lemma FirstAttemptSucceeded(before: seq<Call>, after: seq<Call>, chain: seq<Call>, outcomes: nat -> Outcome)
    requires |chain| >= 1 && after == before + [chain[0]] && Succeeded(outcomes, |before|)
    ensures ChainTried(before, after, chain, outcomes)
  {
    assert after[..|before|] == before;
    assert after[|before|..] == chain[..1];
  }

  /** A chain that failed to its end followed by a second chain tried from the next call
      is the two chains tried in sequence. */
  lemma TriedAfterExhausted(a: seq<Call>, b: seq<Call>, chainB: seq<Call>, outcomes: nat -> Outcome, start: nat)
    requires 1 <= |a| && forall i :: start <= i < start + |a| ==> !Succeeded(outcomes, i)
    requires TriedUntilSuccess(b, chainB, outcomes, start + |a|)
    ensures TriedUntilSuccess(a + b, a + chainB, outcomes, start)
  {
    assert (a + chainB)[..|a + b|] == a + chainB[..|b|];
  }

  /** With declared inputs the resolved map is never empty, so the fallback for "no
      resolvable checkpoint input" is dead; and the reflective run is never tried,
      because the runner then reports inputs. */
  lemma DeclaredInitializeChain(rt: Runtime)
    requires InputsOf(Some(rt), InitializeKey) != []
    ensures InitializeChain(rt) == [RunSignature(InitializeKey, CheckpointInputs(Some(rt), InitializeKey)), ResetVariableTensors]
    ensures |CheckpointInputs(Some(rt), InitializeKey)| == 1
  {
    CheckpointInputsFromEmpty(InitializeKey, InputsOf(Some(rt), InitializeKey), CheckpointFilePath);
  }

  /** Without declared inputs the chain is the empty-input run, the reflective run and
      the reset, in that order. */
  lemma UndeclaredInitializeChain(rt: Runtime)
    requires InputsOf(Some(rt), InitializeKey) == []
    ensures InitializeChain(rt) == [RunSignature(InitializeKey, map[]), ReflectiveRun(InitializeKey), ResetVariableTensors]
  {
  }

  /** The errors initializeModelWeights reports when every attempt failed: the zero-input
      path reports once, and a failed declared-input run reports again. */
  function InitializeFailureEvents(rt: Runtime): seq<Event>
  {
    if InputsOf(Some(rt), InitializeKey) != [] && CheckpointInputs(Some(rt), InitializeKey) != map[]
    then [Error(InitializeWeightsFailed), Error(InitializeWeightsFailed)]
    else [Error(InitializeWeightsFailed)]
  }

  // ---------------------------------------------------------------------------
  // The epoch loop

  /** Whether the train step at call index i succeeds; without an interpreter nothing
      runs and nothing throws. */
  predicate StepSucceeds(present: bool, outcomes: nat -> Outcome, i: nat)
  {
    !present || Succeeded(outcomes, i)
  }

  /** The errors posted by the first k steps of an epoch whose first train call has
      index `first`: one per failing step, in order. */
  function StepFailures(present: bool, outcomes: nat -> Outcome, first: nat, k: nat): (r: seq<Event>)
    ensures |r| <= k
    ensures forall j :: 0 <= j < |r| ==> r[j] == Error(TrainingFailed)
  {
    if k == 0 then []
    else
      StepFailures(present, outcomes, first, k - 1)
      + (if StepSucceeds(present, outcomes, first + k - 1) then [] else [Error(TrainingFailed)])
  }

  lemma {:induction false} StepFailuresNone(present: bool, outcomes: nat -> Outcome, first: nat, k: nat)
    ensures StepFailures(present, outcomes, first, k) == [] <==>
      forall i :: first <= i < first + k ==> StepSucceeds(present, outcomes, i)
  {
    if k > 0 {
      StepFailuresNone(present, outcomes, first, k - 1);
    }
  }

  /** The epochs whose progress single-precision arithmetic puts just below the exact
      percentage: in IEEE 754 binary32, 53f / 100 rounds to 0.52999997f, which times 100
      rounds to 52.999996f, and 59f / 100 rounds to 0.58999997f, which times 100 rounds to
      58.999996f. Every other epoch up to MaxEpochs comes out exact. */
  const Float32Shortfalls: set<nat> := {53, 59}

  /** progress = ((epoch.toFloat() / maxEpochs) * 100).toInt(): the truncated percentage,
      one lower at the epochs where the Float arithmetic falls short of the integer. */
  function Progress(epoch: nat): (r: nat)
    ensures r <= epoch * 100 / MaxEpochs <= r + 1
    ensures epoch !in Float32Shortfalls ==> r == epoch * 100 / MaxEpochs
  {
    var exact := epoch * 100 / MaxEpochs;
    if epoch in Float32Shortfalls && exact > 0 then exact - 1 else exact
  }

  /** The posted progress never exceeds the exact percentage and is at most one below it;
      it is exact away from the shortfall epochs, reaches 100 at the last epoch and never
      goes down from one epoch to the next. */
  lemma ProgressTracksEpochs(e: nat, e2: nat)
    requires e <= e2 <= MaxEpochs
    ensures Progress(e) <= e <= Progress(e) + 1
    ensures e !in Float32Shortfalls ==> Progress(e) == e
    ensures Progress(MaxEpochs) == 100
    ensures Progress(e) <= Progress(e2)
  {
    assert e * 100 / MaxEpochs == e;
    assert e2 * 100 / MaxEpochs == e2;
    assert MaxEpochs !in Float32Shortfalls;
  }

  /** The notifications of the epoch loop from epoch `epoch` on, when every epoch makes nb
      train steps and the loop may run `limit` epochs: a clean epoch posts its loss and
      progress; an epoch with a failing step posts one error per failure and ends the
      loop; completion is posted when the loop ends without a failure. */
  function TrainingEvents(present: bool, outcomes: nat -> Outcome, first: nat, nb: nat, epoch: nat, limit: nat): (r: seq<Event>)
    ensures r != [] && (r[|r| - 1] == TrainingComplete || r[|r| - 1] == Error(TrainingFailed))
    decreases limit - epoch
  {
    if epoch >= limit then [TrainingComplete]
    else
      var failures := StepFailures(present, outcomes, first, nb);
      if failures != [] then failures
      else if nb == 0 then [TrainingComplete]
      else
        [LossResults, EpochUpdate(epoch + 1, Progress(epoch + 1))]
        + TrainingEvents(present, outcomes, if present then first + nb else first, nb, epoch + 1, limit)
  }

  /** How many epochs the loop runs from epoch `epoch` on, counting an epoch that fails
      or has no batch, after which the loop stops; it stops as TrainingEvents does. */
  function EpochsRun(present: bool, outcomes: nat -> Outcome, first: nat, nb: nat, epoch: nat, limit: nat): (r: nat)
    ensures epoch >= limit ==> r == 0
    ensures epoch < limit ==> 1 <= r <= limit - epoch
    decreases limit - epoch
  {
    if epoch >= limit then 0
    else if StepFailures(present, outcomes, first, nb) != [] || nb == 0 then 1
    else 1 + EpochsRun(present, outcomes, if present then first + nb else first, nb, epoch + 1, limit)
  }

  /** When every step succeeds and every epoch has a batch, the loop runs all its
      epochs. */
  lemma {:induction false} CleanRunRunsEveryEpoch(present: bool, outcomes: nat -> Outcome, first: nat, nb: nat, epoch: nat, limit: nat)
    requires nb >= 1 && epoch <= limit
    requires forall i :: first <= i ==> StepSucceeds(present, outcomes, i)
    ensures EpochsRun(present, outcomes, first, nb, epoch, limit) == limit - epoch
    decreases limit - epoch
  {
    if epoch < limit {
      StepFailuresNone(present, outcomes, first, nb);
      CleanRunRunsEveryEpoch(present, outcomes, if present then first + nb else first, nb, epoch + 1, limit);
    }
  }

  /** With a batch in every epoch, a loop that stops before its last epoch has posted a
      training failure, and one that posts completion ran every epoch. */
  lemma {:induction false} EarlyStopIsFailure(present: bool, outcomes: nat -> Outcome, first: nat, nb: nat, epoch: nat, limit: nat)
    requires nb >= 1 && epoch <= limit
    ensures EpochsRun(present, outcomes, first, nb, epoch, limit) < limit - epoch
      ==> Error(TrainingFailed) in TrainingEvents(present, outcomes, first, nb, epoch, limit)
    ensures TrainingComplete in TrainingEvents(present, outcomes, first, nb, epoch, limit)
      ==> EpochsRun(present, outcomes, first, nb, epoch, limit) == limit - epoch
    decreases limit - epoch
  {
    if epoch < limit {
      var failures := StepFailures(present, outcomes, first, nb);
      if failures != [] {
        EpochFails(present, outcomes, first, nb, epoch, limit);
        assert failures[0] == Error(TrainingFailed);
      } else {
        var next := if present then first + nb else first;
        EarlyStopIsFailure(present, outcomes, next, nb, epoch + 1, limit);
        EpochClean(present, outcomes, first, nb, epoch, limit, next);
      }
      CompleteIffNoFailure(present, outcomes, first, nb, epoch, limit);
    }
  }

  /** Once the epochs are used up, or an epoch has no batch, the loop posts only the
      completion. */
  lemma LoopEndCompletes(present: bool, outcomes: nat -> Outcome, first: nat, nb: nat, epoch: nat, limit: nat)
    requires epoch >= limit || nb == 0
    ensures TrainingEvents(present, outcomes, first, nb, epoch, limit) == [TrainingComplete]
  {
    if epoch < limit {
      assert StepFailures(present, outcomes, first, nb) == [];
    }
  }

  /** A failing epoch ends the loop: when the events so far followed by the loop's events
      from this epoch on make `total`, the epoch's errors complete `total`. */
  lemma {:induction false} FailingEpochEnds(present: bool, outcomes: nat -> Outcome, first: nat, nb: nat, epoch: nat, limit: nat,
                                            before: seq<Event>, total: seq<Event>)
    requires epoch < limit && StepFailures(present, outcomes, first, nb) != []
    requires before + TrainingEvents(present, outcomes, first, nb, epoch, limit) == total
    ensures before + StepFailures(present, outcomes, first, nb) + [] == total
    ensures EpochsRun(present, outcomes, first, nb, epoch, limit) == 1
  {
    EpochFails(present, outcomes, first, nb, epoch, limit);
    var failures := StepFailures(present, outcomes, first, nb);
    assert before + failures + [] == before + failures;
  }

  /** A clean epoch reports its loss and progress, and the rest of `total` is the loop
      from the next epoch on, starting at the next train call. */
  lemma {:induction false} CleanEpochContinues(present: bool, outcomes: nat -> Outcome, first: nat, nb: nat, epoch: nat, limit: nat,
                                               next: nat, before: seq<Event>, total: seq<Event>)
    requires epoch < limit && nb != 0 && StepFailures(present, outcomes, first, nb) == []
    requires next == if present then first + nb else first
    requires before + TrainingEvents(present, outcomes, first, nb, epoch, limit) == total
    ensures before + StepFailures(present, outcomes, first, nb) + [LossResults, EpochUpdate(epoch + 1, Progress(epoch + 1))]
      + TrainingEvents(present, outcomes, next, nb, epoch + 1, limit) == total
    ensures EpochsRun(present, outcomes, first, nb, epoch, limit) == 1 + EpochsRun(present, outcomes, next, nb, epoch + 1, limit)
  {
    EpochClean(present, outcomes, first, nb, epoch, limit, next);
    var head := [LossResults, EpochUpdate(epoch + 1, Progress(epoch + 1))];
    var rest := TrainingEvents(present, outcomes, next, nb, epoch + 1, limit);
    assert before + [] + head + rest == before + (head + rest);
  }

  /** One failing epoch of TrainingEvents. */
  lemma {:induction false} EpochFails(present: bool, outcomes: nat -> Outcome, first: nat, nb: nat, epoch: nat, limit: nat)
    requires epoch < limit && StepFailures(present, outcomes, first, nb) != []
    ensures TrainingEvents(present, outcomes, first, nb, epoch, limit) == StepFailures(present, outcomes, first, nb)
  {
  }

  /** One clean epoch of TrainingEvents. */
  lemma {:induction false} EpochClean(present: bool, outcomes: nat -> Outcome, first: nat, nb: nat, epoch: nat, limit: nat, next: nat)
    requires epoch < limit && nb != 0 && StepFailures(present, outcomes, first, nb) == []
    requires next == if present then first + nb else first
    ensures TrainingEvents(present, outcomes, first, nb, epoch, limit)
      == [LossResults, EpochUpdate(epoch + 1, Progress(epoch + 1))] + TrainingEvents(present, outcomes, next, nb, epoch + 1, limit)
  {
  }

  /** Completion is posted exactly when no step failed. */
  lemma {:induction false} CompleteIffNoFailure(present: bool, outcomes: nat -> Outcome, first: nat, nb: nat, epoch: nat, limit: nat)
    ensures var events := TrainingEvents(present, outcomes, first, nb, epoch, limit);
      TrainingComplete in events <==> Error(TrainingFailed) !in events
    decreases limit - epoch
  {
    var events := TrainingEvents(present, outcomes, first, nb, epoch, limit);
    if epoch < limit {
      var failures := StepFailures(present, outcomes, first, nb);
      if failures != [] {
        assert failures[0] == Error(TrainingFailed);
      } else if nb != 0 {
        CompleteIffNoFailure(present, outcomes, if present then first + nb else first, nb, epoch + 1, limit);
      }
    }
  }

  /** Every progress notification in `events` is for an epoch in (after, limit], and its
      progress value is the epoch number (MaxEpochs being 100), one less at the
      shortfall epochs. */
  predicate UpdatesWithin(events: seq<Event>, after: nat, limit: nat)
  {
    forall i :: 0 <= i < |events| && events[i].EpochUpdate? ==>
      && after < events[i].epoch <= limit
      && events[i].progress <= events[i].epoch <= events[i].progress + 1
      && (events[i].epoch !in Float32Shortfalls ==> events[i].progress == events[i].epoch)
  }

  /** Every progress notification is for an epoch within the loop's bound, and its progress
      value is the epoch number, except one less at the shortfall epochs. */
  lemma {:induction false} EpochUpdatesBounded(present: bool, outcomes: nat -> Outcome, first: nat, nb: nat, epoch: nat, limit: nat)
    requires limit <= MaxEpochs
    ensures UpdatesWithin(TrainingEvents(present, outcomes, first, nb, epoch, limit), epoch, limit)
    decreases limit - epoch
  {
    if epoch >= limit || nb == 0 || StepFailures(present, outcomes, first, nb) != [] {
      NoUpdatesAtLoopEnd(present, outcomes, first, nb, epoch, limit);
    } else {
      var next := if present then first + nb else first;
      var rest := TrainingEvents(present, outcomes, next, nb, epoch + 1, limit);
      EpochUpdatesBounded(present, outcomes, next, nb, epoch + 1, limit);
      ReportBeforeRest(epoch, limit, rest);
      EpochClean(present, outcomes, first, nb, epoch, limit, next);
      assert TrainingEvents(present, outcomes, first, nb, epoch, limit)
          == [LossResults, EpochUpdate(epoch + 1, Progress(epoch + 1))] + rest;
    }
  }

  /** When the loop ends at this epoch, by completion or by a failed step, it posts no
      progress at all. */
  lemma NoUpdatesAtLoopEnd(present: bool, outcomes: nat -> Outcome, first: nat, nb: nat, epoch: nat, limit: nat)
    requires epoch >= limit || nb == 0 || StepFailures(present, outcomes, first, nb) != []
    ensures forall i :: 0 <= i < |TrainingEvents(present, outcomes, first, nb, epoch, limit)| ==>
      !TrainingEvents(present, outcomes, first, nb, epoch, limit)[i].EpochUpdate?
  {
    if epoch >= limit || nb == 0 {
      LoopEndCompletes(present, outcomes, first, nb, epoch, limit);
    } else {
      EpochFails(present, outcomes, first, nb, epoch, limit);
    }
  }

  /** One clean epoch's reports in front of events that keep UpdatesWithin from the next
      epoch on keep it from this epoch on. */
  lemma ReportBeforeRest(epoch: nat, limit: nat, rest: seq<Event>)
    requires epoch < limit <= MaxEpochs && UpdatesWithin(rest, epoch + 1, limit)
    ensures UpdatesWithin([LossResults, EpochUpdate(epoch + 1, Progress(epoch + 1))] + rest, epoch, limit)
  {
    ProgressTracksEpochs(epoch + 1, epoch + 1);
    var events := [LossResults, EpochUpdate(epoch + 1, Progress(epoch + 1))] + rest;
    forall i | 0 <= i < |events| && events[i].EpochUpdate?
      ensures epoch < events[i].epoch <= limit
      ensures events[i].progress <= events[i].epoch <= events[i].progress + 1
      ensures events[i].epoch !in Float32Shortfalls ==> events[i].progress == events[i].epoch
    {
      if i >= 2 {
        assert events[i] == rest[i - 2];
      }
    }
  }

  /** The loss and progress reports of epochs epoch+1 .. limit. */
  function EpochReports(epoch: nat, limit: nat): seq<Event>
    decreases limit - epoch
  {
    if epoch >= limit then []
    else [LossResults, EpochUpdate(epoch + 1, Progress(epoch + 1))] + EpochReports(epoch + 1, limit)
  }

  /** When every step succeeds, each of the `limit` epochs reports, then completion. */
  lemma {:induction false} CleanRunReportsEveryEpoch(present: bool, outcomes: nat -> Outcome, first: nat, nb: nat, epoch: nat, limit: nat)
    requires nb >= 1
    requires forall i :: first <= i ==> StepSucceeds(present, outcomes, i)
    ensures TrainingEvents(present, outcomes, first, nb, epoch, limit) == EpochReports(epoch, limit) + [TrainingComplete]
    decreases limit - epoch
  {
    if epoch < limit {
      StepFailuresNone(present, outcomes, first, nb);
      var next := if present then first + nb else first;
      EpochClean(present, outcomes, first, nb, epoch, limit, next);
      CleanRunReportsEveryEpoch(present, outcomes, next, nb, epoch + 1, limit);
      var head := [LossResults, EpochUpdate(epoch + 1, Progress(epoch + 1))];
      assert head + (EpochReports(epoch + 1, limit) + [TrainingComplete])
          == (head + EpochReports(epoch + 1, limit)) + [TrainingComplete];
    }
  }

  /** What a train call looks like: the bottleneck rows and the label rows, as many as the
      model's batch size, each label row as long as the model's label size. */
  predicate IsTrainCall(c: Call, batchSize: nat, labelSize: nat)
  {
    c.RunSignature? && c.signature == TrainKey
    && TrainingInputBottleneckKey in c.inputs && c.inputs[TrainingInputBottleneckKey].Rows?
    && TrainingInputLabelsKey in c.inputs && c.inputs[TrainingInputLabelsKey].Rows?
    && |c.inputs[TrainingInputBottleneckKey].rows| == batchSize
    && |c.inputs[TrainingInputLabelsKey].rows| == batchSize
    && forall row :: row in c.inputs[TrainingInputLabelsKey].rows ==> |row| == labelSize
  }

  /** The epoch loop's shuffle: the same samples, in some order. */
  predicate IsShuffleOf(after: seq<TrainingSample>, before: seq<TrainingSample>)
  {
    multiset(after) == multiset(before)
  }

  lemma ShuffleKeepsLength(after: seq<TrainingSample>, before: seq<TrainingSample>)
    requires IsShuffleOf(after, before)
    ensures |after| == |before|
  {
    assert |multiset(after)| == |multiset(before)|;
  }

  /** `after` is `before` followed by train calls only. */
  predicate TrainCallsAppended(before: seq<Call>, after: seq<Call>, batchSize: nat, labelSize: nat)
  {
    |before| <= |after| && after[..|before|] == before
    && forall i :: |before| <= i < |after| ==> IsTrainCall(after[i], batchSize, labelSize)
  }

  lemma TrainCallsAppendedTransitive(a: seq<Call>, b: seq<Call>, c: seq<Call>, batchSize: nat, labelSize: nat)
    requires TrainCallsAppended(a, b, batchSize, labelSize) && TrainCallsAppended(b, c, batchSize, labelSize)
    ensures TrainCallsAppended(a, c, batchSize, labelSize)
  {
    assert c[..|a|] == c[..|b|][..|a|];
  }

  /** The train run with the given bottleneck rows and label rows. */
  function TrainCall(bottlenecks: seq<seq<real>>, labels: seq<seq<real>>): Call
  {
    RunSignature(TrainKey, map[TrainingInputBottleneckKey := Rows(bottlenecks), TrainingInputLabelsKey := Rows(labels)])
  }

  /** The train run for one batch: its rows padded to the model's batch size, its labels
      coerced to the model's label size. */
  function PaddedTrainCall(batch: seq<TrainingSample>, expectedBatchSize: nat, expectedLabelSize: nat): Call
    requires |batch| >= 1
  {
    TrainCall(PaddedBottlenecks(batch, expectedBatchSize), PaddedLabels(batch, expectedBatchSize, expectedLabelSize))
  }

  /** A padded batch's call has the shape the model's train signature expects, and its
      row i is batch member i mod |batch|. */
  lemma PaddedTrainCallIsTrainCall(batch: seq<TrainingSample>, expectedBatchSize: nat, expectedLabelSize: nat)
    requires |batch| >= 1
    ensures IsTrainCall(PaddedTrainCall(batch, expectedBatchSize, expectedLabelSize), expectedBatchSize, expectedLabelSize)
    ensures forall i :: 0 <= i < expectedBatchSize ==>
      var c := PaddedTrainCall(batch, expectedBatchSize, expectedLabelSize);
      c.inputs[TrainingInputBottleneckKey].rows[i] == batch[i % |batch|].bottleneck
      && c.inputs[TrainingInputLabelsKey].rows[i] == PrepareLabel(batch[i % |batch|].labelValues, expectedLabelSize)
  {
    var labels := PaddedLabels(batch, expectedBatchSize, expectedLabelSize);
    forall row | row in labels
      ensures |row| == expectedLabelSize
    {
      var i :| 0 <= i < |labels| && labels[i] == row;
    }
  }

  /** One train call per batch, in order. */
  function BatchCalls(batches: seq<seq<TrainingSample>>, expectedBatchSize: nat, expectedLabelSize: nat): seq<Call>
    requires forall k :: 0 <= k < |batches| ==> |batches[k]| >= 1
  {
    seq(|batches|, k requires 0 <= k < |batches| => PaddedTrainCall(batches[k], expectedBatchSize, expectedLabelSize))
  }

  /** Appending a batch's calls appends train calls only. */
  lemma BatchCallsAppended(before: seq<Call>, batches: seq<seq<TrainingSample>>, expectedBatchSize: nat, expectedLabelSize: nat)
    requires forall k :: 0 <= k < |batches| ==> |batches[k]| >= 1
    ensures TrainCallsAppended(before, before + BatchCalls(batches, expectedBatchSize, expectedLabelSize), expectedBatchSize, expectedLabelSize)
  {
    var after := before + BatchCalls(batches, expectedBatchSize, expectedLabelSize);
    assert after[..|before|] == before;
    forall i | |before| <= i < |after|
      ensures IsTrainCall(after[i], expectedBatchSize, expectedLabelSize)
    {
      PaddedTrainCallIsTrainCall(batches[i - |before|], expectedBatchSize, expectedLabelSize);
    }
  }

  /** The call of batch k follows the calls of the batches before it. */
  lemma BatchCallsExtend(calls0: seq<Call>, before: seq<Call>, after: seq<Call>, present: bool,
                         batches: seq<seq<TrainingSample>>, expectedBatchSize: nat, expectedLabelSize: nat, k: nat)
    requires forall k :: 0 <= k < |batches| ==> |batches[k]| >= 1
    requires k < |batches|
    requires before == calls0 + (if present then BatchCalls(batches, expectedBatchSize, expectedLabelSize)[..k] else [])
    requires after == before + (if present then [PaddedTrainCall(batches[k], expectedBatchSize, expectedLabelSize)] else [])
    ensures after == calls0 + (if present then BatchCalls(batches, expectedBatchSize, expectedLabelSize)[..k + 1] else [])
  {
    var all := BatchCalls(batches, expectedBatchSize, expectedLabelSize);
    if present {
      assert all[..k + 1] == all[..k] + [all[k]];
      AppendAssociates(calls0, all[..k], [all[k]]);
    } else {
      assert before == calls0 + [] && after == before + [];
    }
  }

  /** The train calls of one epoch: one per batch of b of the (shuffled) samples. */
  function EpochCalls(samples: seq<TrainingSample>, b: nat, expectedBatchSize: nat, expectedLabelSize: nat): seq<Call>
    requires 1 <= b <= |samples|
  {
    BatchCalls(Batches(samples, b, 0), expectedBatchSize, expectedLabelSize)
  }

  /** Sample j is in the batch of one of the epoch's calls. */
  ghost predicate TrainedInEpoch(samples: seq<TrainingSample>, b: nat, expectedBatchSize: nat, expectedLabelSize: nat, j: nat)
    requires 1 <= b <= |samples| && j < |samples|
  {
    exists k :: (0 <= k < |EpochCalls(samples, b, expectedBatchSize, expectedLabelSize)|
                 && EpochCalls(samples, b, expectedBatchSize, expectedLabelSize)[k]
                      == PaddedTrainCall(Batches(samples, b, 0)[k], expectedBatchSize, expectedLabelSize)
                 && samples[j] in Batches(samples, b, 0)[k])
  }

  /** One epoch's calls number NumBatches, each is a train call, and every sample is in
      the batch of one of them. */
  lemma EpochCallsTrainOnEverySample(samples: seq<TrainingSample>, b: nat, expectedBatchSize: nat, expectedLabelSize: nat)
    requires 1 <= b <= |samples|
    ensures |EpochCalls(samples, b, expectedBatchSize, expectedLabelSize)| == NumBatches(|samples|, b)
    ensures forall k :: 0 <= k < NumBatches(|samples|, b) ==>
      IsTrainCall(EpochCalls(samples, b, expectedBatchSize, expectedLabelSize)[k], expectedBatchSize, expectedLabelSize)
    ensures forall j :: 0 <= j < |samples| ==> TrainedInEpoch(samples, b, expectedBatchSize, expectedLabelSize, j)
  {
    BatchesCount(samples, b, 0);
    var batches := Batches(samples, b, 0);
    forall k | 0 <= k < NumBatches(|samples|, b)
      ensures IsTrainCall(EpochCalls(samples, b, expectedBatchSize, expectedLabelSize)[k], expectedBatchSize, expectedLabelSize)
    {
      PaddedTrainCallIsTrainCall(batches[k], expectedBatchSize, expectedLabelSize);
    }
    forall j | 0 <= j < |samples|
      ensures TrainedInEpoch(samples, b, expectedBatchSize, expectedLabelSize, j)
    {
      BatchesCover(samples, b, 0, j);
      var k :| 0 <= k < |batches| && samples[j] in batches[k];
      assert EpochCalls(samples, b, expectedBatchSize, expectedLabelSize)[k]
          == PaddedTrainCall(batches[k], expectedBatchSize, expectedLabelSize);
    }
  }

  /** The shuffles of a run, one per epoch: each a permutation of the samples. */
  predicate ShufflesOf(shuffles: seq<seq<TrainingSample>>, samples: seq<TrainingSample>)
  {
    forall e :: 0 <= e < |shuffles| ==> IsShuffleOf(shuffles[e], samples) && |shuffles[e]| == |samples|
  }

  /** Every shuffle holds at least b samples, so each can be cut into batches of b. */
  predicate BatchableBy(shuffles: seq<seq<TrainingSample>>, b: nat)
  {
    forall s :: s in shuffles ==> 1 <= b <= |s|
  }

  /** Dropping the last shuffle keeps the rest batchable. */
  lemma BatchableInit(shuffles: seq<seq<TrainingSample>>, b: nat)
    requires BatchableBy(shuffles, b) && shuffles != []
    ensures BatchableBy(shuffles[..|shuffles| - 1], b)
  {
    var init := shuffles[..|shuffles| - 1];
    forall s | s in init ensures 1 <= b <= |s| {
      assert s in shuffles;
    }
    assert forall s :: s in init ==> 1 <= b <= |s|;
    assert BatchableBy(init, b);
  }

  /** The train calls of a run of epochs: each epoch's calls on its shuffle, in order. */
  function RunCalls(shuffles: seq<seq<TrainingSample>>, b: nat, expectedBatchSize: nat, expectedLabelSize: nat): seq<Call>
    requires BatchableBy(shuffles, b)
  {
    if shuffles == [] then []
    else
      var init := shuffles[..|shuffles| - 1];
      BatchableInit(shuffles, b);
      RunCalls(init, b, expectedBatchSize, expectedLabelSize)
      + EpochCalls(shuffles[|shuffles| - 1], b, expectedBatchSize, expectedLabelSize)
  }

  /** One more epoch appends its calls. */
  lemma RunCallsAppend(shuffles: seq<seq<TrainingSample>>, s: seq<TrainingSample>, b: nat,
                       expectedBatchSize: nat, expectedLabelSize: nat)
    requires BatchableBy(shuffles, b) && 1 <= b <= |s|
    ensures BatchableBy(shuffles + [s], b)
    ensures RunCalls(shuffles + [s], b, expectedBatchSize, expectedLabelSize)
      == RunCalls(shuffles, b, expectedBatchSize, expectedLabelSize) + EpochCalls(s, b, expectedBatchSize, expectedLabelSize)
  {
    var all := shuffles + [s];
    assert forall e :: 0 <= e < |shuffles| ==> all[e] == shuffles[e];
    assert all[..|shuffles|] == shuffles;
  }

  /** One more permutation of the samples extends the shuffles of a run. */
  lemma ShufflesOfAppend(shuffles: seq<seq<TrainingSample>>, s: seq<TrainingSample>, samples: seq<TrainingSample>)
    requires ShufflesOf(shuffles, samples) && IsShuffleOf(s, samples) && |s| == |samples|
    ensures ShufflesOf(shuffles + [s], samples)
  {
    var all := shuffles + [s];
    forall e | 0 <= e < |all| ensures IsShuffleOf(all[e], samples) && |all[e]| == |samples| {
      if e < |shuffles| {
        assert all[e] == shuffles[e];
      }
    }
  }

  /** The state of a run of epochs that began with calls `calls0` and samples
      `samples0`: `shuffles` holds each epoch's permutation of `samples0`, `samples` is the
      latest one (`samples0` before the first epoch), and the calls are `calls0` followed
      by the run's train calls. */
  ghost predicate RunSoFar(calls0: seq<Call>, calls: seq<Call>, present: bool, samples0: seq<TrainingSample>,
                           samples: seq<TrainingSample>, shuffles: seq<seq<TrainingSample>>,
                           b: nat, expectedBatchSize: nat, expectedLabelSize: nat)
  {
    && IsShuffleOf(samples, samples0) && |samples| == |samples0|
    && ShufflesOf(shuffles, samples0) && BatchableBy(shuffles, b)
    && samples == (if |shuffles| == 0 then samples0 else shuffles[|shuffles| - 1])
    && calls == calls0 + (if present then RunCalls(shuffles, b, expectedBatchSize, expectedLabelSize) else [])
  }

  /** Before the first epoch the run is empty. */
  lemma RunStarts(calls0: seq<Call>, present: bool, samples0: seq<TrainingSample>,
                  b: nat, expectedBatchSize: nat, expectedLabelSize: nat)
    ensures RunSoFar(calls0, calls0, present, samples0, samples0, [], b, expectedBatchSize, expectedLabelSize)
  {
    assert calls0 + [] == calls0;
  }

  /** The bookkeeping of one turn of the epoch loop: the epoch's shuffle `s` of the
      latest samples joins the run's shuffles and its calls follow the run's calls. */
  lemma EpochRecorded(calls0: seq<Call>, before: seq<Call>, after: seq<Call>, present: bool,
                      samples0: seq<TrainingSample>, latest: seq<TrainingSample>, s: seq<TrainingSample>,
                      shuffles: seq<seq<TrainingSample>>, b: nat, expectedBatchSize: nat, expectedLabelSize: nat)
    requires RunSoFar(calls0, before, present, samples0, latest, shuffles, b, expectedBatchSize, expectedLabelSize)
    requires IsShuffleOf(s, latest) && 1 <= b <= |latest|
    requires after == before + (if present then EpochCalls(s, b, expectedBatchSize, expectedLabelSize) else [])
    ensures RunSoFar(calls0, after, present, samples0, s, shuffles + [s], b, expectedBatchSize, expectedLabelSize)
  {
    ShuffleKeepsLength(s, latest);
    ShufflesOfAppend(shuffles, s, samples0);
    RunCallsExtend(calls0, before, after, present, shuffles, s, b, expectedBatchSize, expectedLabelSize);
    var all := shuffles + [s];
    assert all[|all| - 1] == s;
  }

  /** The calls of one more epoch extend the run's calls. */
  lemma RunCallsExtend(calls0: seq<Call>, before: seq<Call>, after: seq<Call>, present: bool,
                       shuffles: seq<seq<TrainingSample>>, s: seq<TrainingSample>,
                       b: nat, expectedBatchSize: nat, expectedLabelSize: nat)
    requires BatchableBy(shuffles, b) && 1 <= b <= |s|
    requires before == calls0 + (if present then RunCalls(shuffles, b, expectedBatchSize, expectedLabelSize) else [])
    requires after == before + (if present then EpochCalls(s, b, expectedBatchSize, expectedLabelSize) else [])
    ensures BatchableBy(shuffles + [s], b)
    ensures after == calls0 + (if present then RunCalls(shuffles + [s], b, expectedBatchSize, expectedLabelSize) else [])
  {
    RunCallsAppend(shuffles, s, b, expectedBatchSize, expectedLabelSize);
    if present {
      var run := RunCalls(shuffles, b, expectedBatchSize, expectedLabelSize);
      var epoch := EpochCalls(s, b, expectedBatchSize, expectedLabelSize);
      assert after == (calls0 + run) + epoch;
      AppendAssociates(calls0, run, epoch);
    } else {
      assert before == calls0 + [] && after == before + [];
      AppendAssociates(calls0, [], []);
    }
  }

  /** Concatenation of call logs associates. */
  lemma AppendAssociates(a: seq<Call>, b: seq<Call>, c: seq<Call>)
    ensures (a + b) + c == a + (b + c)
  {
  }

  /** Appending calls that are all train calls keeps TrainCallsAppended. */
  lemma TrainCallsAppendedBy(before: seq<Call>, added: seq<Call>, batchSize: nat, labelSize: nat)
    requires forall i :: 0 <= i < |added| ==> IsTrainCall(added[i], batchSize, labelSize)
    ensures TrainCallsAppended(before, before + added, batchSize, labelSize)
  {
    var after := before + added;
    assert after[..|before|] == before;
    forall i | |before| <= i < |after| ensures IsTrainCall(after[i], batchSize, labelSize) {
      assert after[i] == added[i - |before|];
    }
  }

  /** `tail`, the calls from index `start` on, is the train calls of a run of the epochs
      the loop runs (EpochsRun, with at most `limit` epochs and the steps answered by
      `outcomes`), each epoch on its own permutation of `samples` cut into batches of b. */
  ghost predicate RunOf(tail: seq<Call>, samples: seq<TrainingSample>, outcomes: nat -> Outcome, start: nat,
                        b: nat, expectedBatchSize: nat, expectedLabelSize: nat, limit: nat)
  {
    && b >= 1
    && exists shuffles :: (|shuffles| == EpochsRun(true, outcomes, start, NumBatches(|samples|, b), 0, limit)
                        && ShufflesOf(shuffles, samples) && BatchableBy(shuffles, b)
                        && tail == RunCalls(shuffles, b, expectedBatchSize, expectedLabelSize))
  }

  /** The state after a training run over `samples0` that began with `start` calls and
      `eventsAtStart` events, with the model's batch and label sizes `batchSize` and
      `labelSize`: the later calls are the train calls of the epoch loop, the padded
      batches of b of one permutation of `samples0` per epoch, for at most
      min(cancelAfter, MaxEpochs) epochs, b being min(n, model batch size); and the later
      events are those of that loop over NumBatches(n, b) batches. */
  ghost predicate TrainedRun(calls: seq<Call>, events: seq<Event>, samples: seq<TrainingSample>, outcomes: nat -> Outcome,
                             batchSize: int, labelSize: int, samples0: seq<TrainingSample>, start: nat,
                             eventsAtStart: seq<Event>, cancelAfter: nat)
  {
    var expectedBatchSize, expectedLabelSize := MaxInt(batchSize, 1), MaxInt(labelSize, 1);
    var b := TrainBatchSize(|samples|, expectedBatchSize);
    var limit := if cancelAfter < MaxEpochs then cancelAfter else MaxEpochs;
    && start <= |calls| && |samples| == |samples0|
    && (forall i :: start <= i < |calls| ==> IsTrainCall(calls[i], expectedBatchSize, expectedLabelSize))
    && RunOf(calls[start..], samples0, outcomes, start, b, expectedBatchSize, expectedLabelSize, limit)
    && events == eventsAtStart + TrainingEvents(true, outcomes, start, NumBatches(|samples|, b), 0, limit)
  }

  /** What RunEpochs leaves, with an interpreter present, is a TrainedRun. */
  lemma EpochsMakeTrainedRun(calls0: seq<Call>, calls: seq<Call>, events0: seq<Event>, events: seq<Event>,
                             samples0: seq<TrainingSample>, samples: seq<TrainingSample>, outcomes: nat -> Outcome,
                             batchSize: int, labelSize: int, cancelAfter: nat, shuffles: seq<seq<TrainingSample>>,
                             b: nat, limit: nat, expectedBatchSize: nat, expectedLabelSize: nat)
    requires expectedBatchSize == MaxInt(batchSize, 1) && expectedLabelSize == MaxInt(labelSize, 1)
    requires b == TrainBatchSize(|samples0|, expectedBatchSize) >= 1
    requires limit == if cancelAfter < MaxEpochs then cancelAfter else MaxEpochs
    requires IsShuffleOf(samples, samples0) && |samples| == |samples0|
    requires TrainCallsAppended(calls0, calls, expectedBatchSize, expectedLabelSize)
    requires |shuffles| == EpochsRun(true, outcomes, |calls0|, NumBatches(|samples0|, b), 0, limit)
    requires ShufflesOf(shuffles, samples0) && BatchableBy(shuffles, b)
    requires calls == calls0 + RunCalls(shuffles, b, expectedBatchSize, expectedLabelSize)
    requires events == events0 + TrainingEvents(true, outcomes, |calls0|, NumBatches(|samples0|, b), 0, limit)
    ensures TrainedRun(calls, events, samples, outcomes, batchSize, labelSize, samples0, |calls0|, events0, cancelAfter)
  {
    assert calls[|calls0|..] == RunCalls(shuffles, b, expectedBatchSize, expectedLabelSize);
  }

  /** A run's calls are all train calls of the model's shape. */
  lemma {:induction false} RunCallsAreTrainCalls(shuffles: seq<seq<TrainingSample>>, b: nat,
                                                 expectedBatchSize: nat, expectedLabelSize: nat)
    requires BatchableBy(shuffles, b)
    ensures forall i :: 0 <= i < |RunCalls(shuffles, b, expectedBatchSize, expectedLabelSize)| ==>
      IsTrainCall(RunCalls(shuffles, b, expectedBatchSize, expectedLabelSize)[i], expectedBatchSize, expectedLabelSize)
  {
    if shuffles != [] {
      var init := shuffles[..|shuffles| - 1];
      var last := shuffles[|shuffles| - 1];
      BatchableInit(shuffles, b);
      RunCallsAreTrainCalls(init, b, expectedBatchSize, expectedLabelSize);
      EpochCallsTrainOnEverySample(last, b, expectedBatchSize, expectedLabelSize);
      var a := RunCalls(init, b, expectedBatchSize, expectedLabelSize);
      var c := EpochCalls(last, b, expectedBatchSize, expectedLabelSize);
      forall i | 0 <= i < |a + c|
        ensures IsTrainCall((a + c)[i], expectedBatchSize, expectedLabelSize)
      {
        if i >= |a| {
          assert (a + c)[i] == c[i - |a|];
        }
      }
    }
  }

  // ---------------------------------------------------------------------------
  // Model constraints

  /** The sizes the helper reads off the model: the image size the load signature
      expects and the batch, label and bottleneck sizes the train signature expects. */
  datatype Constraints = Constraints(targetWidth: int, targetHeight: int, batchSize: int, labelSize: int, bottleneckSize: int)

  function Coerced(c: Constraints): (r: Constraints)
    ensures r.batchSize >= 1 && r.labelSize >= 1
  {
    c.(batchSize := if c.batchSize < 1 then 1 else c.batchSize,
       labelSize := if c.labelSize < 1 then 1 else c.labelSize)
  }

  /** The load signature's input shape [_, height, width, ...] gives the image size. */
  function WithLoadShape(lookup: ShapeLookup, c: Constraints): Constraints
  {
    if lookup.Shape? && |lookup.dims| >= 3
    then c.(targetHeight := lookup.dims[1], targetWidth := lookup.dims[2]) else c
  }

  /** The train signature's bottleneck input [batch, bottleneck] gives both sizes, each
      only when positive. */
  function WithBottleneckShape(lookup: ShapeLookup, c: Constraints): Constraints
  {
    if lookup.Shape? then
      var d := lookup.dims;
      var c1 := if |d| > 0 && d[0] > 0 then c.(batchSize := d[0]) else c;
      if |d| >= 2 && d[1] > 0 then c1.(bottleneckSize := d[1]) else c1
    else c
  }

  /** The train signature's label input [batch, labels] gives both sizes, each only when
      positive, and only when the shape has two dimensions. */
  function WithLabelShape(lookup: ShapeLookup, c: Constraints): Constraints
  {
    if lookup.Shape? && |lookup.dims| >= 2 then
      var d := lookup.dims;
      var c1 := if d[0] > 0 then c.(batchSize := d[0]) else c;
      if d[1] > 0 then c1.(labelSize := d[1]) else c1
    else c
  }

  /** updateModelConstraints: read the three shapes in order (a lookup that throws ends
      the reading, keeping what was read before it), then coerce the batch and label sizes
      to at least 1. */
  function UpdatedConstraints(interpreter: Option<Runtime>, c: Constraints): (r: Constraints)
    ensures r.batchSize >= 1 && r.labelSize >= 1
    ensures interpreter.None? || interpreter.value.loadFeatureShape.LookupFails? ==> r == Coerced(c)
    ensures r.targetWidth != c.targetWidth || r.targetHeight != c.targetHeight ==>
      interpreter.Some? && interpreter.value.loadFeatureShape.Shape?
      && |interpreter.value.loadFeatureShape.dims| >= 3
      && r.targetHeight == interpreter.value.loadFeatureShape.dims[1]
      && r.targetWidth == interpreter.value.loadFeatureShape.dims[2]
    ensures r.bottleneckSize != c.bottleneckSize ==>
      interpreter.Some? && interpreter.value.trainBottleneckShape.Shape?
      && |interpreter.value.trainBottleneckShape.dims| >= 2
      && r.bottleneckSize == interpreter.value.trainBottleneckShape.dims[1] > 0
    ensures (interpreter.Some? && !interpreter.value.loadFeatureShape.LookupFails?
      && !interpreter.value.trainBottleneckShape.LookupFails?
      && interpreter.value.trainLabelShape.Shape? && |interpreter.value.trainLabelShape.dims| >= 2) ==>
      var d := interpreter.value.trainLabelShape.dims;
      (d[0] > 0 ==> r.batchSize == d[0]) && (d[1] > 0 ==> r.labelSize == d[1])
  {
    if interpreter.None? then Coerced(c)
    else
      var rt := interpreter.value;
      if rt.loadFeatureShape.LookupFails? then Coerced(c)
      else
        var c1 := WithLoadShape(rt.loadFeatureShape, c);
        if rt.trainBottleneckShape.LookupFails? then Coerced(c1)
        else
          var c2 := WithBottleneckShape(rt.trainBottleneckShape, c1);
          if rt.trainLabelShape.LookupFails? then Coerced(c2)
          else Coerced(WithLabelShape(rt.trainLabelShape, c2))
  }

  /** Reading the constraints twice gives what reading them once gave. */
  lemma UpdateConstraintsIdempotent(interpreter: Option<Runtime>, c: Constraints)
    ensures UpdatedConstraints(interpreter, UpdatedConstraints(interpreter, c)) == UpdatedConstraints(interpreter, c)
  {
  }

  /** How ensureWeightsReady reached its answer. */
  datatype Route =
    | AlreadyReady
    | NoModel
    | Restored
    | Initialized(initializeStart: nat, initializeEnd: nat)
    | Unavailable(initializeStart: nat)

  /** The part of the helper's state that making the weights ready changes. */
  datatype WeightsState = WeightsState(calls: seq<Call>, events: seq<Event>, checkpoint: CheckpointFile,
                                       weightsInitialized: bool, initializationPersisted: bool)

  /** persistInitializationIfNeeded() on the weights state w with interpreter rt: once
      persisted, nothing; otherwise `save` unless a checkpoint already exists, and when the
      checkpoint is then there, `restore` it. Only a successful restore counts the weights
      as persisted; a failed one leaves them uninitialized. */
  function Persisted(w: WeightsState, rt: Runtime, outcomes: nat -> Outcome): WeightsState
  {
    if w.initializationPersisted then w
    else
      var save := RunSignature(SaveKey, CheckpointInputs(Some(rt), SaveKey));
      var restore := RunSignature(RestoreKey, CheckpointInputs(Some(rt), RestoreKey));
      var hadSavedModel := w.checkpoint == Written;
      var saved := hadSavedModel || Succeeded(outcomes, |w.calls|);
      var calls1 := w.calls + (if hadSavedModel then [] else [save]);
      var events1 := w.events + (if hadSavedModel then [] else [if saved then ModelSaved else Error(SaveFailed)]);
      if !saved then w.(calls := calls1, events := events1)
      else
        var reloaded := Succeeded(outcomes, |calls1|);
        WeightsState(calls1 + [restore], events1 + [if reloaded then ModelLoaded else Error(LoadFailed)],
                     Written, reloaded, reloaded)
  }

  /** Persisting freshly initialized weights only appends calls and events; the weights
      count as persisted exactly when they were already or a checkpoint now holds them;
      they stay initialized unless the restore failed, which is then the last event. */
  lemma PersistedMeaning(w: WeightsState, rt: Runtime, outcomes: nat -> Outcome)
    requires w.weightsInitialized
    ensures var r := Persisted(w, rt, outcomes);
      && |w.calls| <= |r.calls| && r.calls[..|w.calls|] == w.calls
      && |w.events| <= |r.events| && r.events[..|w.events|] == w.events
      && (r.initializationPersisted <==> w.initializationPersisted || (r.checkpoint == Written && r.weightsInitialized))
      && (!r.weightsInitialized <==> |r.events| > |w.events| && r.events[|r.events| - 1] == Error(LoadFailed))
      && (r.checkpoint != w.checkpoint ==> r.checkpoint == Written)
  {
    var r := Persisted(w, rt, outcomes);
    if !w.initializationPersisted {
      var hadSavedModel := w.checkpoint == Written;
      var events1 := w.events + (if hadSavedModel then [] else [if hadSavedModel || Succeeded(outcomes, |w.calls|) then ModelSaved else Error(SaveFailed)]);
      assert events1[..|w.events|] == w.events;
      assert (events1 + [r.events[|r.events| - 1]])[..|w.events|] == w.events;
    }
  }

  /** The call list of an `interpreter?.runSignature(...)`: the call when there is an
      interpreter, nothing otherwise. */
  function Attempted(interpreter: Option<Runtime>, c: Call): seq<Call>
  {
    if interpreter.Some? then [c] else []
  }

  /** The save half of persistInitializationIfNeeded, from w0 to w1: `save` runs unless a
      checkpoint exists; saved tells whether one now does (or the save ran without an
      interpreter). */
  predicate SaveStep(w0: WeightsState, w1: WeightsState, interpreter: Option<Runtime>, outcomes: nat -> Outcome,
                     saved: bool)
  {
    var hadSavedModel := w0.checkpoint == Written;
    && (saved <==> hadSavedModel || interpreter.None? || Succeeded(outcomes, |w0.calls|))
    && w1.checkpoint == (if !hadSavedModel && interpreter.Some? && saved then Written else w0.checkpoint)
    && w1.calls == w0.calls
      + (if hadSavedModel then [] else Attempted(interpreter, RunSignature(SaveKey, CheckpointInputs(interpreter, SaveKey))))
    && w1.events == w0.events + (if hadSavedModel then [] else [if saved then ModelSaved else Error(SaveFailed)])
    && w1.weightsInitialized == w0.weightsInitialized
    && w1.initializationPersisted == w0.initializationPersisted
  }

  /** The reload half, from w1 to w2: when saved, loadModelWeights runs (restoring only
      when a checkpoint exists), and the weights count as persisted exactly when both
      halves succeeded. */
  predicate ReloadStep(w1: WeightsState, w2: WeightsState, interpreter: Option<Runtime>, outcomes: nat -> Outcome,
                       saved: bool, reloaded: bool)
  {
    var restoring := saved && w1.checkpoint == Written;
    && w2.checkpoint == w1.checkpoint
    && w2.calls == w1.calls
      + (if restoring then Attempted(interpreter, RunSignature(RestoreKey, CheckpointInputs(interpreter, RestoreKey))) else [])
    && (reloaded <==> restoring && (interpreter.None? || Succeeded(outcomes, |w1.calls|)))
    && w2.events == w1.events + (if restoring then [if reloaded then ModelLoaded else Error(LoadFailed)] else [])
    && w2.weightsInitialized == (if saved then reloaded else w1.weightsInitialized)
    && (w2.initializationPersisted <==> saved && reloaded)
  }

  /** Both halves of persistInitializationIfNeeded from w0 to w2, stated as one. */
  predicate SavedAndReloaded(w0: WeightsState, w2: WeightsState, interpreter: Option<Runtime>, outcomes: nat -> Outcome,
                             saved: bool, reloaded: bool)
  {
    var hadSavedModel := w0.checkpoint == Written;
    var restoring := saved && w2.checkpoint == Written;
    && (saved <==> hadSavedModel || interpreter.None? || Succeeded(outcomes, |w0.calls|))
    && w2.checkpoint == (if !hadSavedModel && interpreter.Some? && saved then Written else w0.checkpoint)
    && w2.calls == w0.calls
      + (if hadSavedModel then [] else Attempted(interpreter, RunSignature(SaveKey, CheckpointInputs(interpreter, SaveKey))))
      + (if restoring then Attempted(interpreter, RunSignature(RestoreKey, CheckpointInputs(interpreter, RestoreKey))) else [])
    && w2.events == w0.events
      + (if hadSavedModel then [] else [if saved then ModelSaved else Error(SaveFailed)])
      + (if restoring then [if reloaded then ModelLoaded else Error(LoadFailed)] else [])
    && (reloaded <==> restoring && (interpreter.None? || Succeeded(outcomes, |w2.calls| - 1)))
    && w2.weightsInitialized == (if saved then reloaded else w0.weightsInitialized)
    && (w2.initializationPersisted <==> saved && reloaded)
    && (w2.initializationPersisted <==> w2.checkpoint == Written && w2.weightsInitialized)
  }

  /** Saving and then reloading, from a state not yet persisted, is the combined step;
      with an interpreter it makes exactly Persisted. */
  lemma SaveThenReload(w0: WeightsState, w1: WeightsState, w2: WeightsState, interpreter: Option<Runtime>,
                       outcomes: nat -> Outcome, saved: bool, reloaded: bool)
    requires !w0.initializationPersisted
    requires SaveStep(w0, w1, interpreter, outcomes, saved)
    requires ReloadStep(w1, w2, interpreter, outcomes, saved, reloaded)
    ensures SavedAndReloaded(w0, w2, interpreter, outcomes, saved, reloaded)
    ensures interpreter.Some? ==> w2 == Persisted(w0, interpreter.value, outcomes)
  {
    if saved && w1.checkpoint == Written && interpreter.Some? {
      assert |w2.calls| - 1 == |w1.calls|;
    }
  }

  /** The initialization chain from `start` reached a success at `end`, from a state whose
      events were events0, whose checkpoint was checkpoint0 and whose persisted flag was
      persisted0; the chain posted nothing and left the weights initialized, and then
      persisting them (Persisted) made the state s. */
  predicate InitializedFrom(s: WeightsState, rt: Runtime, outcomes: nat -> Outcome, start: nat, end: nat,
                            events0: seq<Event>, checkpoint0: CheckpointFile, persisted0: bool)
  {
    && start < end <= |s.calls|
    && TriedUntilSuccess(s.calls[start..end], InitializeChain(rt), outcomes, start)
    && Succeeded(outcomes, end - 1)
    && s == Persisted(WeightsState(s.calls[..end], events0, checkpoint0, true, persisted0), rt, outcomes)
  }

  /** Every attempt of the initialization chain from `start` failed; the failure was
      reported after events0 unless this is the attempt made at construction. */
  predicate UnavailableFrom(s: WeightsState, rt: Runtime, outcomes: nat -> Outcome, start: nat,
                            events0: seq<Event>, initialAttempt: bool)
  {
    && start < |s.calls|
    && !s.weightsInitialized
    && TriedUntilSuccess(s.calls[start..], InitializeChain(rt), outcomes, start)
    && !Succeeded(outcomes, |s.calls| - 1)
    && s.events == events0 + InitializeFailureEvents(rt) + (if initialAttempt then [] else [Error(WeightsUnavailable)])
  }

  /** What ensureWeightsReady leaves behind when the interpreter is present and the
      weights were not initialized, given the checkpoint, the calls and events before,
      and whether the initialization was already persisted. */
  predicate Recovered(s: WeightsState, rt: Runtime, outcomes: nat -> Outcome, route: Route, initialAttempt: bool,
                      checkpoint0: CheckpointFile, calls0: seq<Call>, events0: seq<Event>, persisted0: bool)
  {
    var restore := RunSignature(RestoreKey, CheckpointInputs(Some(rt), RestoreKey));
    var hadSavedModel := checkpoint0 == Written;
    && (route.Restored? || route.Initialized? || route.Unavailable?)
    && |s.calls| > |calls0| && s.calls[..|calls0|] == calls0
    && (hadSavedModel ==> s.calls[|calls0|] == restore)
    && (route.Restored? ==>
          hadSavedModel && s.weightsInitialized && s.checkpoint == Written
          && s.calls == calls0 + [restore] && Succeeded(outcomes, |calls0|)
          && s.events == events0 + [ModelLoaded] && s.initializationPersisted == persisted0)
    && (!route.Restored? ==>
          route.initializeStart == |calls0| + (if hadSavedModel then 1 else 0)
          && (hadSavedModel ==> !Succeeded(outcomes, |calls0|)))
    && (route.Initialized? ==>
          InitializedFrom(s, rt, outcomes, route.initializeStart, route.initializeEnd,
                          events0 + (if hadSavedModel then [Error(LoadFailed)] else []), checkpoint0, persisted0))
    && (route.Unavailable? ==>
          UnavailableFrom(s, rt, outcomes, route.initializeStart,
                          events0 + (if hadSavedModel then [Error(LoadFailed)] else []), initialAttempt)
          && s.checkpoint == checkpoint0 && s.initializationPersisted == persisted0)
  }

  /** The first, silent attempt at ready weights, made on a helper that had called and
      posted nothing, with the checkpoint checkpoint0 on disk, recovered by some route. */
  ghost predicate StartedUp(s: WeightsState, rt: Runtime, outcomes: nat -> Outcome, checkpoint0: CheckpointFile)
  {
    exists route :: Recovered(s, rt, outcomes, route, true, checkpoint0, [], [], false)
  }

  /** What ensureWeightsReady does to a helper whose interpreter was interpreter0 and whose
      weights state was w0, leaving interpreter1 and w1 and answering `ready` by `route`:
      a model that cannot be set up is reported; initialized weights are used as they
      are; otherwise the weights are Recovered. */
  ghost predicate EnsuredWeights(modelAsset: Option<Runtime>, outcomes: nat -> Outcome, initialAttempt: bool,
                                 interpreter0: Option<Runtime>, w0: WeightsState,
                                 interpreter1: Option<Runtime>, w1: WeightsState, ready: bool, route: Route)
  {
    && (ready <==> route.AlreadyReady? || route.Restored? || route.Initialized?)
    && (route.NoModel? <==> interpreter0.None? && modelAsset.None?)
    && (route.NoModel? ==> interpreter1.None? && w1 == w0.(events := w0.events + [Error(SetupFailed)]))
    && (!route.NoModel? ==> interpreter1 == if interpreter0.Some? then interpreter0 else modelAsset)
    && (route.AlreadyReady? <==> interpreter0.Some? && w0.weightsInitialized)
    && (route.AlreadyReady? ==> w1 == w0)
    && (!route.NoModel? && !route.AlreadyReady? ==>
          interpreter1.Some? && Recovered(w1, interpreter1.value, outcomes, route, initialAttempt, w0.checkpoint,
                                          w0.calls, w0.events, interpreter0.Some? && w0.initializationPersisted))
  }

  /** At construction the interpreter is the loaded model and nothing has been called,
      posted or initialized yet, so ensureWeightsReady(initialAttempt = true) recovers. */
  lemma FirstAttemptRecovers(modelAsset: Option<Runtime>, outcomes: nat -> Outcome, w0: WeightsState,
                             interpreter1: Option<Runtime>, w1: WeightsState, ready: bool, route: Route)
    requires modelAsset.Some? && w0.calls == [] && w0.events == []
    requires !w0.weightsInitialized && !w0.initializationPersisted
    requires EnsuredWeights(modelAsset, outcomes, true, modelAsset, w0, interpreter1, w1, ready, route)
    ensures interpreter1 == modelAsset
    ensures Recovered(w1, modelAsset.value, outcomes, route, true, w0.checkpoint, [], [], false)
  {
  }

  /** With an interpreter and uninitialized weights, ensureWeightsReady keeps the
      interpreter, only appends calls, and when it fails its last call failed. */
  /** Weights made ready leave an interpreter behind. */
  lemma ReadyHasInterpreter(modelAsset: Option<Runtime>, outcomes: nat -> Outcome, initialAttempt: bool,
                             interpreter0: Option<Runtime>, w0: WeightsState,
                             interpreter1: Option<Runtime>, w1: WeightsState, route: Route)
    requires EnsuredWeights(modelAsset, outcomes, initialAttempt, interpreter0, w0, interpreter1, w1, true, route)
    ensures interpreter1.Some?
  {
  }

  lemma RecoveryAfterReset(modelAsset: Option<Runtime>, outcomes: nat -> Outcome, rt: Runtime, w0: WeightsState,
                           interpreter1: Option<Runtime>, w1: WeightsState, ready: bool, route: Route)
    requires !w0.weightsInitialized
    requires EnsuredWeights(modelAsset, outcomes, false, Some(rt), w0, interpreter1, w1, ready, route)
    ensures interpreter1 == Some(rt)
    ensures |w1.calls| > |w0.calls| && w1.calls[..|w0.calls|] == w0.calls
    ensures !ready ==> !Succeeded(outcomes, |w1.calls| - 1)
  {
  }

  /** Every initialization attempt from `start` failed and the failure events, with the
      report when one is due, follow events0: the weights are unavailable. */
  lemma ReportedUnavailable(s: WeightsState, rt: Runtime, outcomes: nat -> Outcome, start: nat,
                            events0: seq<Event>, initialAttempt: bool)
    requires start < |s.calls| && !s.weightsInitialized
    requires TriedUntilSuccess(s.calls[start..], InitializeChain(rt), outcomes, start)
    requires !Succeeded(outcomes, |s.calls| - 1)
    requires s.events == events0 + InitializeFailureEvents(rt) + if initialAttempt then [] else [Error(WeightsUnavailable)]
    ensures UnavailableFrom(s, rt, outcomes, start, events0, initialAttempt)
  {
  }

  /** A successful restore of a saved checkpoint is a recovery by the Restored route. */
  lemma RecoveredByRestore(s: WeightsState, rt: Runtime, outcomes: nat -> Outcome, initialAttempt: bool,
                           calls0: seq<Call>, events0: seq<Event>, persisted0: bool)
    requires s.weightsInitialized && s.checkpoint == Written && Succeeded(outcomes, |calls0|)
    requires s.calls == calls0 + [RunSignature(RestoreKey, CheckpointInputs(Some(rt), RestoreKey))]
    requires s.events == events0 + [ModelLoaded] && s.initializationPersisted == persisted0
    ensures Recovered(s, rt, outcomes, Restored, initialAttempt, Written, calls0, events0, persisted0)
  {
  }

  /** After the restore was skipped or failed, an initialization from calls1 that
      succeeded or was reported unavailable is a recovery by that route. */
  lemma RecoveredByInitialize(s: WeightsState, rt: Runtime, outcomes: nat -> Outcome, route: Route,
                              initialAttempt: bool, checkpoint0: CheckpointFile, calls0: seq<Call>, events0: seq<Event>,
                              persisted0: bool, calls1: seq<Call>)
    requires var hadSavedModel := checkpoint0 == Written;
      calls1 == calls0 + if hadSavedModel then [RunSignature(RestoreKey, CheckpointInputs(Some(rt), RestoreKey))] else []
    requires checkpoint0 == Written ==> !Succeeded(outcomes, |calls0|)
    requires route.Initialized? || route.Unavailable?
    requires route.initializeStart == |calls1| < |s.calls| && s.calls[..|calls1|] == calls1
    requires route.Initialized? ==>
      InitializedFrom(s, rt, outcomes, route.initializeStart, route.initializeEnd,
                      events0 + (if checkpoint0 == Written then [Error(LoadFailed)] else []), checkpoint0, persisted0)
    requires route.Unavailable? ==>
      UnavailableFrom(s, rt, outcomes, route.initializeStart,
                      events0 + (if checkpoint0 == Written then [Error(LoadFailed)] else []), initialAttempt)
      && s.checkpoint == checkpoint0 && s.initializationPersisted == persisted0
    ensures Recovered(s, rt, outcomes, route, initialAttempt, checkpoint0, calls0, events0, persisted0)
  {
    assert s.calls[..|calls0|] == calls1[..|calls0|];
    if checkpoint0 == Written {
      assert s.calls[|calls0|] == calls1[|calls0|];
    }
  }

  /** What addSample did. */
  datatype AddResult = Added | NotReady | Raised(error: Throwable) | UnknownClass

  /** What loadBottleneck returned or threw. */
  datatype BottleneckResult = Bottleneck(values: seq<real>) | Thrown(error: Throwable)

  /** What startTraining did. */
  datatype TrainingStart = WeightsNotReady | Refused(reason: ValidationError) | Trained

  class Helper {
    /** The model file's contents; None when neither the primary nor the legacy asset
        loads. */
    const modelAsset: Option<Runtime>
    /** The outcome of the k-th interpreter call. */
    const outcomes: nat -> Outcome

    var interpreter: Option<Runtime>
    var trainingSamples: seq<TrainingSample>
    /** An executor exists and has not been shut down. */
    var executorRunning: bool
    var targetWidth: int
    var targetHeight: int
    var requiredBatchSize: int
    var requiredLabelSize: int
    var bottleneckSize: int
    var weightsInitialized: bool
    var initializationPersisted: bool
    var checkpoint: CheckpointFile
    /** Every interpreter call made so far, in order. */
    var calls: seq<Call>
    /** Every listener notification so far, in order. */
    var events: seq<Event>

    /** hasSavedModel(): the checkpoint exists and is not empty. */
    predicate HasSavedModel()
      reads this
    {
      checkpoint == Written
    }

    /** The call list of an `interpreter?.runSignature(...)`: the call when there is an
        interpreter, nothing otherwise. */
    function Attempt(c: Call): seq<Call>
      reads this
    {
      Attempted(interpreter, c)
    }

    /** One call into the interpreter, answered by the oracle. */
    method Invoke(c: Call) returns (outcome: Outcome)
      modifies this`calls
      ensures calls == old(calls) + [c]
      ensures outcome == outcomes(|old(calls)|)
    {
      outcome := outcomes(|calls|);
      calls := calls + [c];
    }

    /** interpreter?.runSignature(inputs, outputs, signature): None when there is no
        interpreter and nothing ran. */
    method Run(signature: string, inputs: map<string, InputValue>) returns (outcome: Option<Outcome>)
      modifies this`calls
      ensures calls == old(calls) + Attempt(RunSignature(signature, inputs))
      ensures outcome == if interpreter.Some? then Some(outcomes(|old(calls)|)) else None
    {
      if interpreter.Some? {
        var o := Invoke(RunSignature(signature, inputs));
        outcome := Some(o);
      } else {
        outcome := None;
      }
    }

    /** saveModelWeights(): run `save` with the checkpoint input; a run that throws reports
        the failure and returns false. */
    method SaveModelWeights() returns (saved: bool)
      modifies this`calls, this`events, this`checkpoint
      ensures saved <==> interpreter.None? || Succeeded(outcomes, |old(calls)|)
      ensures calls == old(calls) + Attempt(RunSignature(SaveKey, CheckpointInputs(interpreter, SaveKey)))
      ensures checkpoint == if interpreter.Some? && saved then Written else old(checkpoint)
      ensures events == old(events) + [if saved then ModelSaved else Error(SaveFailed)]
    {
      var inputs := CheckpointInputs(interpreter, SaveKey);
      var outcome := Run(SaveKey, inputs);
      if outcome.Some? && outcome.value.Fails? {
        events := events + [Error(SaveFailed)];
        return false;
      }
      if outcome.Some? {
        checkpoint := Written;
      }
      events := events + [ModelSaved];
      return true;
    }

    /** loadModelWeights(): without a non-empty checkpoint, nothing runs and the weights
        count as uninitialized; otherwise run `restore`, and the weights are initialized
        exactly when it does not throw. */
    method LoadModelWeights() returns (loaded: bool)
      modifies this`calls, this`events, this`weightsInitialized
      ensures weightsInitialized == loaded
      ensures !old(HasSavedModel()) ==> !loaded && calls == old(calls) && events == old(events)
      ensures old(HasSavedModel()) ==>
        calls == old(calls) + Attempt(RunSignature(RestoreKey, CheckpointInputs(interpreter, RestoreKey)))
        && (loaded <==> interpreter.None? || Succeeded(outcomes, |old(calls)|))
        && events == old(events) + [if loaded then ModelLoaded else Error(LoadFailed)]
    {
      if !HasSavedModel() {
        weightsInitialized := false;
        return false;
      }
      var inputs := CheckpointInputs(interpreter, RestoreKey);
      var outcome := Run(RestoreKey, inputs);
      if outcome.Some? && outcome.value.Fails? {
        weightsInitialized := false;
        events := events + [Error(LoadFailed)];
        return false;
      }
      weightsInitialized := true;
      events := events + [ModelLoaded];
      return true;
    }

    /** initializeUsingZeroInputSignature: the reflective run, then resetVariableTensors;
        the weights are initialized by the first that succeeds, and an error is reported
        when both fail. */
    method InitializeUsingZeroInputSignature(rt: Runtime) returns (ok: bool)
      modifies this`calls, this`events, this`weightsInitialized
      ensures ChainTried(old(calls), calls, ZeroInputChain(rt), outcomes)
      ensures ok <==> Succeeded(outcomes, |calls| - 1)
      ensures weightsInitialized == ok
      ensures events == old(events) + if ok then [] else [Error(InitializeWeightsFailed)]
    {
      var start := |calls|;
      var reflectionSucceeded := false;
      if InputsOf(Some(rt), InitializeKey) == [] {
        var outcome := Invoke(ReflectiveRun(InitializeKey));
        reflectionSucceeded := outcome.Succeeds?;
      }
      if reflectionSucceeded {
        weightsInitialized := true;
        assert calls[start..] == ZeroInputChain(rt)[..1];
        return true;
      }
      var outcome := Invoke(ResetVariableTensors);
      assert calls[start..] == ZeroInputChain(rt);
      if outcome.Succeeds? {
        weightsInitialized := true;
        return true;
      }
      weightsInitialized := false;
      events := events + [Error(InitializeWeightsFailed)];
      return false;
    }

    /** initializeUsingEmptyInputSignature: run `initialize` with no inputs. */
    method InitializeUsingEmptyInputSignature(rt: Runtime) returns (ok: bool)
      modifies this`calls, this`weightsInitialized
      ensures calls == old(calls) + [RunSignature(InitializeKey, map[])]
      ensures ok <==> Succeeded(outcomes, |old(calls)|)
      ensures ok ==> weightsInitialized
      ensures !ok ==> weightsInitialized == old(weightsInitialized)
    {
      var outcome := Invoke(RunSignature(InitializeKey, map[]));
      if outcome.Succeeds? {
        weightsInitialized := true;
        return true;
      }
      return false;
    }

    /** initializeUsingSignatureInputs: run `initialize` with the resolved checkpoint
        input, falling back to the zero-input path when nothing was resolved or the run
        throws. */
    method InitializeUsingSignatureInputs(rt: Runtime) returns (ok: bool)
      requires InputsOf(Some(rt), InitializeKey) != []
      modifies this`calls, this`events, this`weightsInitialized
      ensures ChainTried(old(calls), calls, InitializeChain(rt), outcomes)
      ensures ok <==> Succeeded(outcomes, |calls| - 1)
      ensures weightsInitialized == ok
      ensures events == old(events) + if ok then [] else InitializeFailureEvents(rt)
    {
      DeclaredInitializeChain(rt);
      var start := |calls|;
      var inputs := CheckpointInputs(Some(rt), InitializeKey);
      if inputs == map[] {
        // The source swaps to the zero-input path here; with declared inputs the
        // resolution always yields a key (DeclaredInitializeChain), so this is dead.
        assert false;
      }
      var outcome := Invoke(RunSignature(InitializeKey, inputs));
      assert |calls| - 1 == start && outcome == outcomes(start);
      if outcome.Succeeds? {
        weightsInitialized := true;
        FirstAttemptSucceeded(old(calls), calls, InitializeChain(rt), outcomes);
        return true;
      }
      assert calls[..start] == old(calls);
      ok := FallBackToZeroInput(rt, start);
    }

    /** The rest of initializeUsingSignatureInputs once the declared-input run at `start`
        has thrown: the zero-input path, and one more error when that fails too. */
    method FallBackToZeroInput(rt: Runtime, ghost start: nat) returns (ok: bool)
      requires InputsOf(Some(rt), InitializeKey) != []
      requires start + 1 == |calls| && !Succeeded(outcomes, start)
      requires calls[start] == RunSignature(InitializeKey, CheckpointInputs(Some(rt), InitializeKey))
      modifies this`calls, this`events, this`weightsInitialized
      ensures ChainTried(old(calls)[..start], calls, InitializeChain(rt), outcomes)
      ensures ok <==> Succeeded(outcomes, |calls| - 1)
      ensures weightsInitialized == ok
      ensures events == old(events) + if ok then [] else InitializeFailureEvents(rt)
    {
      DeclaredInitializeChain(rt);
      var first := calls[start..];
      ok := InitializeUsingZeroInputSignature(rt);
      SliceAcrossExtension(old(calls), calls, start);
      TriedAfterExhausted(first, calls[start + 1..], ZeroInputChain(rt), outcomes, start);
      assert calls[..start] == old(calls)[..start];
      if !ok {
        weightsInitialized := false;
        events := events + [Error(InitializeWeightsFailed)];
      }
    }

    /** initializeModelWeights(): nothing without an interpreter; otherwise the fallback
        chain, tried in order until one attempt succeeds. The weights are initialized
        exactly when the result is true. */
    method InitializeModelWeights() returns (ok: bool)
      modifies this`calls, this`events, this`weightsInitialized
      ensures interpreter.None? ==> !ok && calls == old(calls) && events == old(events)
      ensures interpreter.Some? ==>
        ChainTried(old(calls), calls, InitializeChain(interpreter.value), outcomes)
        && (ok <==> Succeeded(outcomes, |calls| - 1))
        && events == old(events) + if ok then [] else InitializeFailureEvents(interpreter.value)
      ensures weightsInitialized == ok
    {
      if interpreter.None? {
        weightsInitialized := false;
        return false;
      }
      if InputsOf(interpreter, InitializeKey) != [] {
        ok := InitializeUsingSignatureInputs(interpreter.value);
      } else {
        ok := InitializeWithoutDeclaredInputs(interpreter.value);
      }
    }

    /** The branch of initializeModelWeights for a signature without declared inputs:
        the empty-input run, falling back to the zero-input path when it throws. */
    method InitializeWithoutDeclaredInputs(rt: Runtime) returns (ok: bool)
      requires InputsOf(Some(rt), InitializeKey) == []
      modifies this`calls, this`events, this`weightsInitialized
      ensures ChainTried(old(calls), calls, InitializeChain(rt), outcomes)
      ensures ok <==> Succeeded(outcomes, |calls| - 1)
      ensures weightsInitialized == ok
      ensures events == old(events) + if ok then [] else InitializeFailureEvents(rt)
    {
      var start := |calls|;
      UndeclaredInitializeChain(rt);
      var emptyInputSucceeded := InitializeUsingEmptyInputSignature(rt);
      if emptyInputSucceeded {
        assert calls[start..] == InitializeChain(rt)[..1];
        return true;
      }
      var first := calls[start..];
      ghost var mid := calls;
      ok := InitializeUsingZeroInputSignature(rt);
      SliceAcrossExtension(mid, calls, start);
      TriedAfterExhausted(first, calls[start + 1..], ZeroInputChain(rt), outcomes, start);
    }
  

    /** The constraint fields, read together. */
    function Snapshot(): Constraints
      reads this
    {
      Constraints(targetWidth, targetHeight, requiredBatchSize, requiredLabelSize, bottleneckSize)
    }

    /** updateModelConstraints(). */
    method UpdateModelConstraints()
      modifies this`targetWidth, this`targetHeight, this`requiredBatchSize, this`requiredLabelSize, this`bottleneckSize
      ensures Snapshot() == UpdatedConstraints(interpreter, old(Snapshot()))
    {
      ghost var read := Snapshot();
      if interpreter.Some? {
        var rt := interpreter.value;
        if !rt.loadFeatureShape.LookupFails? {
          if rt.loadFeatureShape.Shape? && |rt.loadFeatureShape.dims| >= 3 {
            targetHeight := rt.loadFeatureShape.dims[1];
            targetWidth := rt.loadFeatureShape.dims[2];
          }
          read := WithLoadShape(rt.loadFeatureShape, read);
          assert Snapshot() == read;
          if !rt.trainBottleneckShape.LookupFails? {
            ReadBottleneckShape(rt.trainBottleneckShape);
            read := WithBottleneckShape(rt.trainBottleneckShape, read);
            if !rt.trainLabelShape.LookupFails? {
              ReadLabelShape(rt.trainLabelShape);
              read := WithLabelShape(rt.trainLabelShape, read);
            }
          }
        }
      }
      assert Snapshot() == read;
      if requiredBatchSize < 1 {
        requiredBatchSize := 1;
      }
      if requiredLabelSize < 1 {
        requiredLabelSize := 1;
      }
    }

    /** The bottleneck-shape step of updateModelConstraints. */
    method ReadBottleneckShape(lookup: ShapeLookup)
      modifies this`requiredBatchSize, this`bottleneckSize
      ensures Snapshot() == WithBottleneckShape(lookup, old(Snapshot()))
    {
      if lookup.Shape? {
        var shape := lookup.dims;
        if |shape| > 0 && shape[0] > 0 {
          requiredBatchSize := shape[0];
        }
        if |shape| >= 2 && shape[1] > 0 {
          bottleneckSize := shape[1];
        }
      }
    }

    /** The label-shape step of updateModelConstraints. */
    method ReadLabelShape(lookup: ShapeLookup)
      modifies this`requiredBatchSize, this`requiredLabelSize
      ensures Snapshot() == WithLabelShape(lookup, old(Snapshot()))
    {
      if lookup.Shape? && |lookup.dims| >= 2 {
        var shape := lookup.dims;
        if shape[0] > 0 {
          requiredBatchSize := shape[0];
        }
        if shape[1] > 0 {
          requiredLabelSize := shape[1];
        }
      }
    }

    /** setupModelPersonalization(): load the model; a fresh interpreter starts with
        uninitialized, unpersisted weights and re-reads the constraints. A model that does
        not load is reported and leaves everything as it was. */
    method SetupModelPersonalization() returns (ok: bool)
      modifies this`interpreter, this`weightsInitialized, this`initializationPersisted, this`events
      modifies this`targetWidth, this`targetHeight, this`requiredBatchSize, this`requiredLabelSize, this`bottleneckSize
      ensures ok <==> modelAsset.Some?
      ensures ok ==>
        interpreter == modelAsset && !weightsInitialized && !initializationPersisted
        && events == old(events) && Snapshot() == UpdatedConstraints(modelAsset, old(Snapshot()))
      ensures !ok ==>
        interpreter == old(interpreter) && weightsInitialized == old(weightsInitialized)
        && initializationPersisted == old(initializationPersisted)
        && events == old(events) + [Error(SetupFailed)] && Snapshot() == old(Snapshot())
    {
      if modelAsset.None? {
        events := events + [Error(SetupFailed)];
        return false;
      }
      interpreter := modelAsset;
      weightsInitialized := false;
      initializationPersisted := false;
      UpdateModelConstraints();
      return true;
    }

    /** persistInitializationIfNeeded(): once persisted, nothing; otherwise save (unless a
        checkpoint already exists) and reload, and count the weights persisted only when
        both succeeded. */
    method PersistInitializationIfNeeded() returns (ghost saved: bool, ghost reloaded: bool)
      modifies this`calls, this`events, this`checkpoint, this`weightsInitialized, this`initializationPersisted
      ensures |calls| >= |old(calls)| && calls[..|old(calls)|] == old(calls)
      ensures initializationPersisted <==> old(initializationPersisted) || (HasSavedModel() && weightsInitialized)
      ensures interpreter.Some? ==> Weights() == Persisted(old(Weights()), interpreter.value, outcomes)
      ensures old(initializationPersisted) ==>
        calls == old(calls) && events == old(events) && checkpoint == old(checkpoint)
        && weightsInitialized == old(weightsInitialized) && initializationPersisted
      ensures !old(initializationPersisted) ==> SavedAndReloaded(old(Weights()), Weights(), interpreter, outcomes, saved, reloaded)
    {
      if initializationPersisted {
        return true, true;
      }
      saved, reloaded := SaveAndReload();
    }

    /** The unpersisted branch of persistInitializationIfNeeded. */
    method SaveAndReload() returns (ghost saved: bool, ghost reloaded: bool)
      requires !initializationPersisted
      modifies this`calls, this`events, this`checkpoint, this`weightsInitialized, this`initializationPersisted
      ensures SavedAndReloaded(old(Weights()), Weights(), interpreter, outcomes, saved, reloaded)
      ensures interpreter.Some? ==> Weights() == Persisted(old(Weights()), interpreter.value, outcomes)
    {
      ghost var w0 := Weights();
      var isSaved: bool;
      if HasSavedModel() {
        isSaved := true;
      } else {
        isSaved := SaveModelWeights();
      }
      ghost var w1 := Weights();
      var loadSucceeded := false;
      if isSaved {
        loadSucceeded := LoadModelWeights();
      }
      if isSaved && loadSucceeded {
        initializationPersisted := true;
      }
      saved, reloaded := isSaved, loadSucceeded;
      SaveThenReload(w0, w1, Weights(), interpreter, outcomes, saved, reloaded);
    }

    /** ensureWeightsReady(initialAttempt): make sure there is an interpreter, then use
        initialized weights as they are, else go on to RecoverWeights. */
    method EnsureWeightsReady(initialAttempt: bool) returns (ready: bool, ghost route: Route)
      modifies this`interpreter, this`weightsInitialized, this`initializationPersisted, this`checkpoint, this`calls, this`events
      modifies this`targetWidth, this`targetHeight, this`requiredBatchSize, this`requiredLabelSize, this`bottleneckSize
      ensures EnsuredWeights(modelAsset, outcomes, initialAttempt, old(interpreter), old(Weights()), interpreter, Weights(), ready, route)
      ensures Snapshot() == if old(interpreter).None? && modelAsset.Some? then UpdatedConstraints(modelAsset, old(Snapshot())) else old(Snapshot())
    {
      if interpreter.None? {
        var setUp := SetupModelPersonalization();
        if !setUp {
          return false, NoModel;
        }
      }
      if weightsInitialized {
        return true, AlreadyReady;
      }
      ready, route := RecoverWeights(initialAttempt);
    }

    /** The second half of ensureWeightsReady, the interpreter being present and the
        weights not initialized: restore a saved checkpoint, else initialize and persist
        (InitializeOrReport). */
    method RecoverWeights(initialAttempt: bool) returns (ready: bool, ghost route: Route)
      requires interpreter.Some? && !weightsInitialized
      modifies this`weightsInitialized, this`initializationPersisted, this`checkpoint, this`calls, this`events
      ensures ready <==> route.Restored? || route.Initialized?
      ensures Recovered(Weights(), interpreter.value, outcomes, route, initialAttempt,
                        old(checkpoint), old(calls), old(events), old(initializationPersisted))
    {
      var restored := false;
      if HasSavedModel() {
        restored := LoadModelWeights();
      }
      if restored || weightsInitialized {
        RecoveredByRestore(Weights(), interpreter.value, outcomes, initialAttempt,
                           old(calls), old(events), old(initializationPersisted));
        return true, Restored;
      }
      ghost var calls1 := calls;
      assert events == old(events) + (if old(HasSavedModel()) then [Error(LoadFailed)] else []);
      ready, route := InitializeOrReport(initialAttempt);
      RecoveredByInitialize(Weights(), interpreter.value, outcomes, route, initialAttempt, old(checkpoint),
                            old(calls), old(events), old(initializationPersisted), calls1);
    }

    /** The last steps of ensureWeightsReady: initialize and persist, else report the
        failure unless this is the attempt made at construction. */
    method InitializeOrReport(initialAttempt: bool) returns (ready: bool, ghost route: Route)
      requires interpreter.Some?
      modifies this`weightsInitialized, this`initializationPersisted, this`checkpoint, this`calls, this`events
      ensures ready <==> route.Initialized?
      ensures route.Initialized? || route.Unavailable?
      ensures route.initializeStart == |old(calls)| < |calls| && calls[..|old(calls)|] == old(calls)
      ensures route.Initialized? ==>
        InitializedFrom(Weights(), interpreter.value, outcomes, route.initializeStart, route.initializeEnd,
                        old(events), old(checkpoint), old(initializationPersisted))
      ensures route.Unavailable? ==>
        UnavailableFrom(Weights(), interpreter.value, outcomes, route.initializeStart, old(events), initialAttempt)
        && checkpoint == old(checkpoint) && initializationPersisted == old(initializationPersisted)
    {
      var start := |calls|;
      var initialized := InitializeModelWeights();
      if initialized {
        var end := |calls|;
        PersistInitialization(start, old(events), old(checkpoint));
        return true, Initialized(start, end);
      }
      ReportUnavailable(start, old(events), initialAttempt);
      return false, Unavailable(start);
    }

    /** The failure branch of ensureWeightsReady's initialization: every attempt from
        `start` failed, and the failure is reported unless the helper is being built. */
    method ReportUnavailable(ghost start: nat, ghost events0: seq<Event>, initialAttempt: bool)
      requires interpreter.Some? && start < |calls| && !weightsInitialized
      requires TriedUntilSuccess(calls[start..], InitializeChain(interpreter.value), outcomes, start)
      requires !Succeeded(outcomes, |calls| - 1)
      requires events == events0 + InitializeFailureEvents(interpreter.value)
      modifies this`events
      ensures UnavailableFrom(Weights(), interpreter.value, outcomes, start, events0, initialAttempt)
    {
      if !initialAttempt {
        events := events + [Error(WeightsUnavailable)];
      }
      ReportedUnavailable(Weights(), interpreter.value, outcomes, start, events0, initialAttempt);
    }

    /** The success branch of ensureWeightsReady's initialization: persist the new
        weights, the calls made so far being a successful run of the initialization
        chain from `start`. */
    method PersistInitialization(ghost start: nat, ghost events0: seq<Event>, ghost checkpoint0: CheckpointFile)
      requires interpreter.Some? && start < |calls| && weightsInitialized
      requires events == events0 && checkpoint == checkpoint0
      requires TriedUntilSuccess(calls[start..], InitializeChain(interpreter.value), outcomes, start)
      requires Succeeded(outcomes, |calls| - 1)
      modifies this`weightsInitialized, this`initializationPersisted, this`checkpoint, this`calls, this`events
      ensures |old(calls)| <= |calls| && calls[..|old(calls)|] == old(calls)
      ensures InitializedFrom(Weights(), interpreter.value, outcomes, start, |old(calls)|, events0, checkpoint0,
                              old(initializationPersisted))
    {
      ghost var triedCalls := calls;
      ghost var saved, reloaded := PersistInitializationIfNeeded();
      SliceOfExtension(triedCalls, calls, start, |triedCalls|);
      assert calls[start..|triedCalls|] == triedCalls[start..];
    }

    /** The part of the state that making the weights ready changes. */
    ghost function Weights(): WeightsState
      reads this
    {
      WeightsState(calls, events, checkpoint, weightsInitialized, initializationPersisted)
    }

    /** The sizes a new helper starts from. */
    static function InitialConstraints(): Constraints
    {
      Constraints(0, 0, DefaultBatchSize, NumClasses, DefaultBottleneckSize)
    }

    /** The image size read off input tensor 0 when it has at least three dimensions. */
    static function WithInputTensorShape(shape: seq<int>, c: Constraints): (r: Constraints)
      ensures |shape| >= 3 ==> r.targetWidth == shape[2] && r.targetHeight == shape[1]
      ensures |shape| < 3 ==> r == c
      ensures r.batchSize == c.batchSize && r.labelSize == c.labelSize && r.bottleneckSize == c.bottleneckSize
    {
      if |shape| >= 3 then c.(targetWidth := shape[2], targetHeight := shape[1]) else c
    }

    /** The helper's init block: load the model, read the image size from input tensor 0,
        re-read the constraints and make a first, silent attempt at ready weights; a model
        that does not load is reported once more. The checkpoint is whatever an earlier
        run left on disk. */
    constructor (modelAsset: Option<Runtime>, outcomes: nat -> Outcome, checkpoint: CheckpointFile)
      ensures this.modelAsset == modelAsset && this.outcomes == outcomes
      ensures trainingSamples == [] && !executorRunning
      ensures interpreter == modelAsset
      ensures modelAsset.None? ==>
        calls == [] && events == [Error(SetupFailed), Error(TfliteInitFailed)] && this.checkpoint == checkpoint
        && Snapshot() == InitialConstraints() && !weightsInitialized && !initializationPersisted
      ensures modelAsset.Some? ==>
        Snapshot() == UpdatedConstraints(modelAsset, WithInputTensorShape(modelAsset.value.inputTensorShape,
                                         UpdatedConstraints(modelAsset, InitialConstraints())))
      ensures modelAsset.Some? ==> StartedUp(Weights(), modelAsset.value, outcomes, checkpoint)
    {
      this.modelAsset := modelAsset;
      this.outcomes := outcomes;
      interpreter := None;
      trainingSamples := [];
      executorRunning := false;
      targetWidth, targetHeight := 0, 0;
      requiredBatchSize := DefaultBatchSize;
      requiredLabelSize := NumClasses;
      bottleneckSize := DefaultBottleneckSize;
      weightsInitialized := false;
      initializationPersisted := false;
      this.checkpoint := checkpoint;
      calls := [];
      events := [];
      new;
      assert Snapshot() == InitialConstraints();
      Init(checkpoint);
    }

    /** The init block run on a helper that has no interpreter yet and has called and
        posted nothing: load the model and start up, or report the failure once more. */
    method Init(ghost checkpoint0: CheckpointFile)
      requires interpreter.None? && calls == [] && events == [] && !weightsInitialized && !initializationPersisted
      requires checkpoint0 == checkpoint
      modifies this`interpreter, this`weightsInitialized, this`initializationPersisted, this`checkpoint, this`calls, this`events
      modifies this`targetWidth, this`targetHeight, this`requiredBatchSize, this`requiredLabelSize, this`bottleneckSize
      ensures interpreter == modelAsset
      ensures modelAsset.None? ==>
        calls == [] && events == [Error(SetupFailed), Error(TfliteInitFailed)] && checkpoint == old(checkpoint)
        && Snapshot() == old(Snapshot()) && !weightsInitialized && !initializationPersisted
      ensures modelAsset.Some? ==>
        Snapshot() == UpdatedConstraints(modelAsset, WithInputTensorShape(modelAsset.value.inputTensorShape,
                                         UpdatedConstraints(modelAsset, old(Snapshot()))))
      ensures modelAsset.Some? ==> StartedUp(Weights(), modelAsset.value, outcomes, checkpoint0)
    {
      var setUp := SetupModelPersonalization();
      if setUp {
        ghost var route := StartUp(checkpoint0);
        assert Recovered(Weights(), modelAsset.value, outcomes, route, true, checkpoint0, [], [], false);
      } else {
        events := events + [Error(TfliteInitFailed)];
      }
    }

    /** The image size read off input tensor 0, when it has at least three dimensions. */
    method ReadImageSize()
      requires interpreter.Some?
      modifies this`targetWidth, this`targetHeight
      ensures Snapshot() == WithInputTensorShape(interpreter.value.inputTensorShape, old(Snapshot()))
    {
      var shape := interpreter.value.inputTensorShape;
      if |shape| >= 3 {
        targetWidth := shape[2];
        targetHeight := shape[1];
      }
    }

    /** The init block once the model has loaded: read the image size from input tensor
        0, re-read the constraints, then make the first, silent attempt at ready weights
        from a helper that has called and posted nothing. */
    method StartUp(ghost checkpoint0: CheckpointFile) returns (ghost route: Route)
      requires interpreter == modelAsset && modelAsset.Some? && checkpoint0 == checkpoint
      requires calls == [] && events == [] && !weightsInitialized && !initializationPersisted
      modifies this`interpreter, this`weightsInitialized, this`initializationPersisted, this`checkpoint, this`calls, this`events
      modifies this`targetWidth, this`targetHeight, this`requiredBatchSize, this`requiredLabelSize, this`bottleneckSize
      ensures interpreter == modelAsset
      ensures Snapshot() == UpdatedConstraints(modelAsset, WithInputTensorShape(modelAsset.value.inputTensorShape, old(Snapshot())))
      ensures Recovered(Weights(), modelAsset.value, outcomes, route, true, checkpoint0, [], [], false)
    {
      ReadImageSize();
      UpdateModelConstraints();
      ghost var loaded := Weights();
      var ready;
      ready, route := EnsureWeightsReady(true);
      FirstAttemptRecovers(modelAsset, outcomes, loaded, interpreter, Weights(), ready, route);
    }

    /** close(): shut the executor down and drop the interpreter; the weights then count
        as neither initialized nor persisted. The samples stay. */
    method Close()
      modifies this`executorRunning, this`interpreter, this`weightsInitialized, this`initializationPersisted
      ensures !executorRunning && interpreter.None? && !weightsInitialized && !initializationPersisted
    {
      executorRunning := false;
      interpreter := None;
      weightsInitialized := false;
      initializationPersisted := false;
    }

    /** pauseTraining(): shut the executor down, then save the weights. */
    method PauseTraining() returns (saved: bool)
      modifies this`executorRunning, this`calls, this`events, this`checkpoint
      ensures !executorRunning
      ensures saved <==> interpreter.None? || Succeeded(outcomes, |old(calls)|)
      ensures calls == old(calls) + Attempt(RunSignature(SaveKey, CheckpointInputs(interpreter, SaveKey)))
      ensures checkpoint == if interpreter.Some? && saved then Written else old(checkpoint)
      ensures events == old(events) + [if saved then ModelSaved else Error(SaveFailed)]
    {
      executorRunning := false;
      saved := SaveModelWeights();
    }

    /** clearTrainingSamples(). */
    method ClearTrainingSamples()
      modifies this`trainingSamples
      ensures trainingSamples == []
    {
      trainingSamples := [];
    }

    /** The load run loadBottleneck makes for one camera image. */
    static function LoadCall(): Call
    {
      RunSignature(LoadKey, map[LoadBottleneckInputKey := Image])
    }

    /** What a run of the load signature returns: the bottleneck it wrote, or what it
        threw. */
    static function AsBottleneck(o: Outcome): BottleneckResult
    {
      match o
      case Succeeds(output) => Bottleneck(output)
      case Fails(e) => Thrown(e)
    }

    /** loadBottleneck(image): run `load`; when it throws an error the classifier marks
        as an uninitialized variable, reset both flags, make the weights ready and retry
        once; any other error, or a failure to get ready, rethrows the original error.
        Without an interpreter nothing runs and the zero-filled holder comes back. */
    method LoadBottleneck() returns (result: BottleneckResult, ghost retried: bool)
      modifies this`interpreter, this`weightsInitialized, this`initializationPersisted, this`checkpoint, this`calls, this`events
      modifies this`targetWidth, this`targetHeight, this`requiredBatchSize, this`requiredLabelSize, this`bottleneckSize
      ensures old(interpreter).None? ==>
        result == Bottleneck(Zeros(if bottleneckSize < 1 then 1 else bottleneckSize))
        && calls == old(calls) && events == old(events) && !retried
      ensures old(interpreter).Some? ==>
        interpreter == old(interpreter) && |calls| > |old(calls)| && calls[|old(calls)|] == LoadCall()
      ensures old(interpreter).Some? && Succeeded(outcomes, |old(calls)|) ==>
        result == AsBottleneck(outcomes(|old(calls)|)) && calls == old(calls) + [LoadCall()]
        && events == old(events) && !retried
      ensures retried ==>
        old(interpreter).Some? && !Succeeded(outcomes, |old(calls)|)
        && IsUninitializedReadVariableError(Some(outcomes(|old(calls)|).error))
        && calls[|calls| - 1] == LoadCall() && result == AsBottleneck(outcomes(|calls| - 1))
      ensures old(interpreter).Some? && !Succeeded(outcomes, |old(calls)|) && !retried ==>
        result == Thrown(outcomes(|old(calls)|).error)
      ensures (old(interpreter).Some? && !Succeeded(outcomes, |old(calls)|)
               && !IsUninitializedReadVariableError(Some(outcomes(|old(calls)|).error))) ==>
        !retried && calls == old(calls) + [LoadCall()] && events == old(events)
      ensures old(interpreter).Some? ==>
        calls[..|old(calls)|] == old(calls) && (result.Bottleneck? <==> LastLoadSucceeded(|old(calls)|))
    {
      if interpreter.None? {
        return Bottleneck(Zeros(if bottleneckSize < 1 then 1 else bottleneckSize)), false;
      }
      var first := Invoke(LoadCall());
      if first.Succeeds? {
        return Bottleneck(first.output), false;
      }
      if !IsUninitializedReadVariableError(Some(first.error)) {
        return Thrown(first.error), false;
      }
      ghost var afterFirst := calls;
      var ready, second := RecoverAndRetryLoad();
      assert calls[|old(calls)|] == afterFirst[|old(calls)|];
      assert calls[..|old(calls)|] == afterFirst[..|old(calls)|];
      if !ready {
        return Thrown(first.error), false;
      }
      return second, true;
    }

    /** The recovery branch of loadBottleneck: both flags reset, then ensureWeightsReady;
        when the weights are ready, the load run once more. */
    method RecoverAndRetryLoad() returns (ready: bool, result: BottleneckResult)
      requires interpreter.Some?
      modifies this`interpreter, this`weightsInitialized, this`initializationPersisted, this`checkpoint, this`calls, this`events
      modifies this`targetWidth, this`targetHeight, this`requiredBatchSize, this`requiredLabelSize, this`bottleneckSize
      ensures interpreter == old(interpreter)
      ensures |calls| > |old(calls)| && calls[..|old(calls)|] == old(calls)
      ensures ready ==> calls[|calls| - 1] == LoadCall() && result == AsBottleneck(outcomes(|calls| - 1))
      ensures !ready ==> !Succeeded(outcomes, |calls| - 1)
    {
      ready := ResetWeights();
      if !ready {
        return false, Thrown(Throwable(None, None));
      }
      ghost var before := calls;
      var second := Invoke(LoadCall());
      assert calls[..|old(calls)|] == before[..|old(calls)|];
      result := AsBottleneck(second);
    }

    /** Forget that the weights were initialized and run ensureWeightsReady(false) again:
        the interpreter stays, calls are only appended, and on failure the last one failed. */
    method ResetWeights() returns (ready: bool)
      requires interpreter.Some?
      modifies this`interpreter, this`weightsInitialized, this`initializationPersisted, this`checkpoint, this`calls, this`events
      modifies this`targetWidth, this`targetHeight, this`requiredBatchSize, this`requiredLabelSize, this`bottleneckSize
      ensures interpreter == old(interpreter)
      ensures |calls| > |old(calls)| && calls[..|old(calls)|] == old(calls)
      ensures !ready ==> !Succeeded(outcomes, |calls| - 1)
    {
      weightsInitialized := false;
      initializationPersisted := false;
      ghost var reset := Weights();
      ghost var route;
      ready, route := EnsureWeightsReady(false);
      RecoveryAfterReset(modelAsset, outcomes, old(interpreter).value, reset, interpreter, Weights(), ready, route);
    }

    /** The last call made after the first `from` ones is a run of `load` that succeeded. */
    predicate LastLoadSucceeded(from: nat)
      reads this
    {
      |calls| > from && calls[|calls| - 1] == LoadCall() && Succeeded(outcomes, |calls| - 1)
    }

    /** addSample(image, className): set up if needed, make the weights ready, compute
        the bottleneck and store it with the one-hot encoding of the class. Nothing is
        stored when the weights cannot be made ready, when loadBottleneck throws (the
        error is then what a load run threw), or when the class name is not one of the
        five ids. */
    method AddSample(className: string)
      returns (r: AddResult, ghost route: Route, ghost preparedInterpreter: Option<Runtime>, ghost prepared: WeightsState)
      modifies this`interpreter, this`weightsInitialized, this`initializationPersisted, this`checkpoint, this`calls, this`events
      modifies this`targetWidth, this`targetHeight, this`requiredBatchSize, this`requiredLabelSize, this`bottleneckSize
      modifies this`trainingSamples
      ensures EnsuredWeights(modelAsset, outcomes, false, old(interpreter), old(AfterSetup()), preparedInterpreter, prepared,
                             !r.NotReady?, route)
      ensures interpreter == preparedInterpreter
      ensures r.NotReady? ==> Weights() == prepared
      ensures !r.NotReady? ==> interpreter.Some? && |calls| > |prepared.calls| && calls[..|prepared.calls|] == prepared.calls
      ensures r.Raised? <==> !r.NotReady? && !LastLoadSucceeded(|prepared.calls|)
      ensures r.UnknownClass? <==> !r.NotReady? && LastLoadSucceeded(|prepared.calls|) && ClassIndexOf(className).None?
      ensures r.Added? <==> |trainingSamples| == |old(trainingSamples)| + 1
      ensures !r.Added? ==> trainingSamples == old(trainingSamples)
      ensures r.Added? ==>
        ClassIndexOf(className).Some? && LastLoadSucceeded(|prepared.calls|)
        && trainingSamples == old(trainingSamples)
             + [TrainingSample(outcomes(|calls| - 1).output, Encoding(ClassIndexOf(className).value))]
      ensures r.Raised? ==>
        exists i :: |prepared.calls| <= i < |calls| && calls[i] == LoadCall() && outcomes(i) == Fails(r.error)
    {
      var ready;
      ready, route := PrepareWeights();
      preparedInterpreter, prepared := interpreter, Weights();
      if !ready {
        return NotReady, route, preparedInterpreter, prepared;
      }
      ReadyHasInterpreter(modelAsset, outcomes, false, old(interpreter), old(AfterSetup()), interpreter, prepared, route);
      r := StoreSample(className);
    }

    /** The opening of addSample and startTraining: set up when there is no interpreter
        yet, then ensureWeightsReady(). Seen from the state before, this is
        ensureWeightsReady with one more SetupFailed when no model loads. */
    method PrepareWeights() returns (ready: bool, ghost route: Route)
      modifies this`interpreter, this`weightsInitialized, this`initializationPersisted, this`checkpoint, this`calls, this`events
      modifies this`targetWidth, this`targetHeight, this`requiredBatchSize, this`requiredLabelSize, this`bottleneckSize
      ensures EnsuredWeights(modelAsset, outcomes, false, old(interpreter), old(AfterSetup()), interpreter, Weights(), ready, route)
    {
      if interpreter.None? {
        var setUp := SetupModelPersonalization();
      }
      ready, route := EnsureWeightsReady(false);
    }

    /** The weights state ensureWeightsReady starts from after a caller has set up a
        missing interpreter: one more SetupFailed when no model loads. */
    ghost function AfterSetup(): WeightsState
      reads this
    {
      if interpreter.None? && modelAsset.None? then Weights().(events := events + [Error(SetupFailed)]) else Weights()
    }

    /** The rest of addSample once the weights are ready: run loadBottleneck and append
        the sample, or report what the load threw or that the class name is unknown. */
    method StoreSample(className: string) returns (r: AddResult)
      requires interpreter.Some?
      modifies this`interpreter, this`weightsInitialized, this`initializationPersisted, this`checkpoint, this`calls, this`events
      modifies this`targetWidth, this`targetHeight, this`requiredBatchSize, this`requiredLabelSize, this`bottleneckSize
      modifies this`trainingSamples
      ensures interpreter == old(interpreter)
      ensures |calls| > |old(calls)| && calls[..|old(calls)|] == old(calls)
      ensures r.Added? || r.Raised? || r.UnknownClass?
      ensures r.Raised? <==> !LastLoadSucceeded(|old(calls)|)
      ensures r.UnknownClass? <==> LastLoadSucceeded(|old(calls)|) && ClassIndexOf(className).None?
      ensures !r.Added? ==> trainingSamples == old(trainingSamples)
      ensures r.Added? ==>
        ClassIndexOf(className).Some? && LastLoadSucceeded(|old(calls)|)
        && trainingSamples == old(trainingSamples)
             + [TrainingSample(outcomes(|calls| - 1).output, Encoding(ClassIndexOf(className).value))]
      ensures r.Raised? ==>
        exists i :: |old(calls)| <= i < |calls| && calls[i] == LoadCall() && outcomes(i) == Fails(r.error)
    {
      ghost var before := |calls|;
      var bottleneck, retried := LoadBottleneck();
      if bottleneck.Thrown? {
        if retried {
          assert calls[|calls| - 1] == LoadCall() && outcomes(|calls| - 1) == Fails(bottleneck.error);
        } else {
          assert calls[before] == LoadCall() && outcomes(before) == Fails(bottleneck.error);
        }
        return Raised(bottleneck.error);
      }
      var id := ClassIndexOf(className);
      if id.None? {
        return UnknownClass;
      }
      trainingSamples := trainingSamples + [TrainingSample(bottleneck.values, Encoding(id.value))];
      return Added;
    }

    /** One iteration of the epoch loop, epoch number `epoch` + 1: train on every batch
        and, when no step failed, post the loss and the progress. */
    method Epoch(b: nat, expectedBatchSize: nat, expectedLabelSize: nat, epoch: nat)
      returns (failed: bool, processed: nat)
      requires 1 <= b <= |trainingSamples| && b <= expectedBatchSize
      modifies this`trainingSamples, this`calls, this`events
      ensures IsShuffleOf(trainingSamples, old(trainingSamples)) && |trainingSamples| == |old(trainingSamples)|
      ensures |calls| == |old(calls)| + (if interpreter.Some? then NumBatches(|trainingSamples|, b) else 0)
      ensures TrainCallsAppended(old(calls), calls, expectedBatchSize, expectedLabelSize)
      ensures calls == old(calls) + (if interpreter.Some? then EpochCalls(trainingSamples, b, expectedBatchSize, expectedLabelSize) else [])
      ensures failed <==> StepFailures(interpreter.Some?, outcomes, |old(calls)|, NumBatches(|trainingSamples|, b)) != []
      ensures !failed ==> processed == NumBatches(|trainingSamples|, b) && processed != 0
      ensures events == old(events) + StepFailures(interpreter.Some?, outcomes, |old(calls)|, NumBatches(|trainingSamples|, b))
        + (if failed then [] else [LossResults, EpochUpdate(epoch + 1, Progress(epoch + 1))])
    {
      failed, processed := TrainEpoch(b, expectedBatchSize, expectedLabelSize);
      if !failed && processed != 0 {
        events := events + [LossResults, EpochUpdate(epoch + 1, Progress(epoch + 1))];
      }
    }

    /** The body of one epoch: shuffle the samples, cut them into batches of b and train
        on each batch. */
    method TrainEpoch(b: nat, expectedBatchSize: nat, expectedLabelSize: nat) returns (failed: bool, processed: nat)
      requires 1 <= b <= |trainingSamples| && b <= expectedBatchSize
      modifies this`trainingSamples, this`calls, this`events
      ensures IsShuffleOf(trainingSamples, old(trainingSamples)) && |trainingSamples| == |old(trainingSamples)|
      ensures |calls| == |old(calls)| + (if interpreter.Some? then NumBatches(|trainingSamples|, b) else 0)
      ensures TrainCallsAppended(old(calls), calls, expectedBatchSize, expectedLabelSize)
      ensures calls == old(calls) + (if interpreter.Some? then EpochCalls(trainingSamples, b, expectedBatchSize, expectedLabelSize) else [])
      ensures events == old(events) + StepFailures(interpreter.Some?, outcomes, |old(calls)|, NumBatches(|trainingSamples|, b))
      ensures failed <==> StepFailures(interpreter.Some?, outcomes, |old(calls)|, NumBatches(|trainingSamples|, b)) != []
      ensures !failed ==> processed == NumBatches(|trainingSamples|, b)
    {
      var shuffled: seq<TrainingSample> :| multiset(shuffled) == multiset(trainingSamples);
      trainingSamples := shuffled;
      ShuffleKeepsLength(trainingSamples, old(trainingSamples));
      var batches := TrainingBatches(trainingSamples, b);
      failed, processed := RunEpoch(batches, expectedBatchSize, expectedLabelSize);
    }

    /** One epoch's pass over its batches: pad each batch to the model's batch size, run
        `train` on it and, when the run throws, post a training error and carry on with
        the next batch. */
    method RunEpoch(batches: seq<seq<TrainingSample>>, expectedBatchSize: nat, expectedLabelSize: nat)
      returns (failed: bool, processed: nat)
      requires forall k :: 0 <= k < |batches| ==> 1 <= |batches[k]| <= expectedBatchSize
      modifies this`calls, this`events
      ensures |calls| == |old(calls)| + (if interpreter.Some? then |batches| else 0)
      ensures TrainCallsAppended(old(calls), calls, expectedBatchSize, expectedLabelSize)
      ensures calls == old(calls) + (if interpreter.Some? then BatchCalls(batches, expectedBatchSize, expectedLabelSize) else [])
      ensures events == old(events) + StepFailures(interpreter.Some?, outcomes, |old(calls)|, |batches|)
      ensures failed <==> StepFailures(interpreter.Some?, outcomes, |old(calls)|, |batches|) != []
      ensures !failed ==> processed == |batches|
    {
      failed, processed := false, 0;
      for k := 0 to |batches|
        invariant calls == old(calls) + (if interpreter.Some? then BatchCalls(batches, expectedBatchSize, expectedLabelSize)[..k] else [])
        invariant events == old(events) + StepFailures(interpreter.Some?, outcomes, |old(calls)|, k)
        invariant failed <==> StepFailures(interpreter.Some?, outcomes, |old(calls)|, k) != []
        invariant !failed ==> processed == k
      {
        failed, processed := EpochStep(batches, expectedBatchSize, expectedLabelSize, k, old(calls), old(events), failed, processed);
      }
      assert BatchCalls(batches, expectedBatchSize, expectedLabelSize)[..|batches|] == BatchCalls(batches, expectedBatchSize, expectedLabelSize);
      BatchCallsAppended(old(calls), batches, expectedBatchSize, expectedLabelSize);
    }

    /** One turn of RunEpoch's loop: train on batch k (TrainStep) and count it as failed
        or processed; `calls0` and `events0` are the state before the epoch's first step. */
    method EpochStep(batches: seq<seq<TrainingSample>>, expectedBatchSize: nat, expectedLabelSize: nat, k: nat,
                     ghost calls0: seq<Call>, ghost events0: seq<Event>, failedBefore: bool, processedBefore: nat)
      returns (failed: bool, processed: nat)
      requires forall k :: 0 <= k < |batches| ==> 1 <= |batches[k]| <= expectedBatchSize
      requires k < |batches|
      requires calls == calls0 + (if interpreter.Some? then BatchCalls(batches, expectedBatchSize, expectedLabelSize)[..k] else [])
      requires events == events0 + StepFailures(interpreter.Some?, outcomes, |calls0|, k)
      requires failedBefore <==> StepFailures(interpreter.Some?, outcomes, |calls0|, k) != []
      requires !failedBefore ==> processedBefore == k
      modifies this`calls, this`events
      ensures calls == calls0 + (if interpreter.Some? then BatchCalls(batches, expectedBatchSize, expectedLabelSize)[..k + 1] else [])
      ensures events == events0 + StepFailures(interpreter.Some?, outcomes, |calls0|, k + 1)
      ensures failed <==> StepFailures(interpreter.Some?, outcomes, |calls0|, k + 1) != []
      ensures !failed ==> processed == k + 1
    {
      ghost var before := calls;
      assert |calls| == |calls0| + (if interpreter.Some? then k else 0);
      var stepFailed := TrainStep(batches[k], expectedBatchSize, expectedLabelSize);
      BatchCallsExtend(calls0, before, calls, interpreter.Some?, batches, expectedBatchSize, expectedLabelSize, k);
      failed, processed := failedBefore, processedBefore;
      if stepFailed {
        failed := true;
      } else {
        processed := processed + 1;
      }
    }

    /** One train step of the epoch loop: pad the batch, run `train`, and post a training
        error when the run throws. */
    method TrainStep(batch: seq<TrainingSample>, expectedBatchSize: nat, expectedLabelSize: nat) returns (failed: bool)
      requires 1 <= |batch| <= expectedBatchSize
      modifies this`calls, this`events
      ensures |calls| == |old(calls)| + (if interpreter.Some? then 1 else 0)
      ensures TrainCallsAppended(old(calls), calls, expectedBatchSize, expectedLabelSize)
      ensures calls == old(calls) + (if interpreter.Some? then [PaddedTrainCall(batch, expectedBatchSize, expectedLabelSize)] else [])
      ensures failed <==> !StepSucceeds(interpreter.Some?, outcomes, |old(calls)|)
      ensures events == old(events) + if failed then [Error(TrainingFailed)] else []
    {
      var bottlenecks, labels := BuildTrainingBatch(batch, expectedBatchSize, expectedLabelSize,
                                                    if bottleneckSize < 0 then 0 else bottleneckSize);
      PaddedTrainCallIsTrainCall(batch, expectedBatchSize, expectedLabelSize);
      var outcome := Run(TrainKey, map[TrainingInputBottleneckKey := Rows(bottlenecks), TrainingInputLabelsKey := Rows(labels)]);
      failed := outcome.Some? && outcome.value.Fails?;
      if failed {
        events := events + [Error(TrainingFailed)];
      }
    }

    /** The epoch loop of startTraining: while the executor runs (for at most `limit`
        epochs, the point at which a pause or close would be observed) and no step has
        failed, shuffle the samples, train on every batch, and post the loss and the
        progress of each clean epoch; completion is posted when no step failed. */
    method RunEpochs(b: nat, expectedBatchSize: nat, expectedLabelSize: nat, limit: nat)
      returns (ghost shuffles: seq<seq<TrainingSample>>)
      requires 1 <= b <= |trainingSamples| && b <= expectedBatchSize
      requires limit <= MaxEpochs
      modifies this`trainingSamples, this`calls, this`events
      ensures IsShuffleOf(trainingSamples, old(trainingSamples))
      ensures TrainCallsAppended(old(calls), calls, expectedBatchSize, expectedLabelSize)
      ensures |shuffles| == EpochsRun(interpreter.Some?, outcomes, |old(calls)|, NumBatches(|old(trainingSamples)|, b), 0, limit)
      ensures ShufflesOf(shuffles, old(trainingSamples)) && BatchableBy(shuffles, b)
      ensures trainingSamples == if |shuffles| == 0 then old(trainingSamples) else shuffles[|shuffles| - 1]
      ensures calls == old(calls) + (if interpreter.Some? then RunCalls(shuffles, b, expectedBatchSize, expectedLabelSize) else [])
      ensures events == old(events)
        + TrainingEvents(interpreter.Some?, outcomes, |old(calls)|, NumBatches(|old(trainingSamples)|, b), 0, limit)
    {
      ghost var nb := NumBatches(|trainingSamples|, b);
      ghost var total := events + TrainingEvents(interpreter.Some?, outcomes, |calls|, nb, 0, limit);
      var failed;
      failed, shuffles := EpochLoop(b, expectedBatchSize, expectedLabelSize, limit, nb, total);
      if !failed {
        events := events + [TrainingComplete];
      }
      RunCallsAreTrainCalls(shuffles, b, expectedBatchSize, expectedLabelSize);
      TrainCallsAppendedBy(old(calls), if interpreter.Some? then RunCalls(shuffles, b, expectedBatchSize, expectedLabelSize) else [],
                           expectedBatchSize, expectedLabelSize);
    }

    /** The while loop of RunEpochs: one EpochOfRun per turn until `limit` epochs have run
        or an epoch failed (or processed nothing). When no epoch failed, all of `total`
        but the final TrainingComplete has been posted. */
    method EpochLoop(b: nat, expectedBatchSize: nat, expectedLabelSize: nat, limit: nat, ghost nb: nat, ghost total: seq<Event>)
      returns (failed: bool, ghost shuffles: seq<seq<TrainingSample>>)
      requires 1 <= b <= |trainingSamples| && b <= expectedBatchSize
      requires nb == NumBatches(|trainingSamples|, b)
      requires events + TrainingEvents(interpreter.Some?, outcomes, |calls|, nb, 0, limit) == total
      modifies this`trainingSamples, this`calls, this`events
      ensures |shuffles| == EpochsRun(interpreter.Some?, outcomes, |old(calls)|, nb, 0, limit) <= limit
      ensures RunSoFar(old(calls), calls, interpreter.Some?, old(trainingSamples), trainingSamples, shuffles,
                       b, expectedBatchSize, expectedLabelSize)
      ensures events + (if failed then [] else [TrainingComplete]) == total
    {
      ghost var runs := EpochsRun(interpreter.Some?, outcomes, |calls|, nb, 0, limit);
      var n := |trainingSamples|;
      var epochCount := 0;
      failed := false;
      shuffles := [];
      RunStarts(calls, interpreter.Some?, trainingSamples, b, expectedBatchSize, expectedLabelSize);
      while epochCount < limit && !failed
        invariant epochCount <= limit && |shuffles| == epochCount && |trainingSamples| == n
        invariant RunSoFar(old(calls), calls, interpreter.Some?, old(trainingSamples), trainingSamples, shuffles,
                           b, expectedBatchSize, expectedLabelSize)
        invariant events + (if failed then [] else TrainingEvents(interpreter.Some?, outcomes, |calls|, nb, epochCount, limit)) == total
        invariant failed ==> epochCount == runs
        invariant !failed ==> epochCount + EpochsRun(interpreter.Some?, outcomes, |calls|, nb, epochCount, limit) == runs
        decreases limit - epochCount
      {
        var processed;
        failed, processed, shuffles := EpochTurn(b, expectedBatchSize, expectedLabelSize, epochCount, limit, nb, total,
                                                 old(calls), old(trainingSamples), shuffles, runs);
        epochCount := epochCount + 1;
        if failed || processed == 0 {
          break;
        }
      }
      if !failed {
        LoopEndCompletes(interpreter.Some?, outcomes, |calls|, nb, epochCount, limit);
      }
    }

    /** One turn of EpochLoop: EpochOfRun, then the epoch's shuffle joins `shuffles`, the
        shuffles of the run that began with calls `calls0` and samples `samples0`. */
    method EpochTurn(b: nat, expectedBatchSize: nat, expectedLabelSize: nat, epoch: nat, limit: nat,
                     ghost nb: nat, ghost total: seq<Event>, ghost calls0: seq<Call>, ghost samples0: seq<TrainingSample>,
                     ghost shuffles: seq<seq<TrainingSample>>, ghost runs: nat)
      returns (failed: bool, processed: nat, ghost shuffles': seq<seq<TrainingSample>>)
      requires 1 <= b <= |trainingSamples| && b <= expectedBatchSize
      requires epoch < limit && nb == NumBatches(|trainingSamples|, b)
      requires events + TrainingEvents(interpreter.Some?, outcomes, |calls|, nb, epoch, limit) == total
      requires epoch + EpochsRun(interpreter.Some?, outcomes, |calls|, nb, epoch, limit) == runs
      requires RunSoFar(calls0, calls, interpreter.Some?, samples0, trainingSamples, shuffles,
                        b, expectedBatchSize, expectedLabelSize)
      modifies this`trainingSamples, this`calls, this`events
      ensures |trainingSamples| == |old(trainingSamples)| && shuffles' == shuffles + [trainingSamples]
      ensures RunSoFar(calls0, calls, interpreter.Some?, samples0, trainingSamples, shuffles',
                       b, expectedBatchSize, expectedLabelSize)
      ensures !failed ==> processed == nb != 0
      ensures events + (if failed then [] else TrainingEvents(interpreter.Some?, outcomes, |calls|, nb, epoch + 1, limit)) == total
      ensures failed ==> epoch + 1 == runs
      ensures !failed ==> epoch + 1 + EpochsRun(interpreter.Some?, outcomes, |calls|, nb, epoch + 1, limit) == runs
    {
      ghost var latest, before := trainingSamples, calls;
      failed, processed := EpochOfRun(b, expectedBatchSize, expectedLabelSize, epoch, limit, nb, total, runs);
      EpochRecorded(calls0, before, calls, interpreter.Some?, samples0, latest, trainingSamples, shuffles,
                    b, expectedBatchSize, expectedLabelSize);
      shuffles' := shuffles + [trainingSamples];
    }

    /** One turn of the epoch loop: run epoch `epoch`, account for what it posted against
        `total`, the events of the whole run, and record its shuffle after `shuffles`, the
        shuffles of the run's earlier epochs, which began with `calls0` and `samples0`. */
    method EpochOfRun(b: nat, expectedBatchSize: nat, expectedLabelSize: nat, epoch: nat, limit: nat,
                      ghost nb: nat, ghost total: seq<Event>, ghost runs: nat)
      returns (failed: bool, processed: nat)
      requires 1 <= b <= |trainingSamples| && b <= expectedBatchSize
      requires epoch < limit && nb == NumBatches(|trainingSamples|, b)
      requires events + TrainingEvents(interpreter.Some?, outcomes, |calls|, nb, epoch, limit) == total
      requires epoch + EpochsRun(interpreter.Some?, outcomes, |calls|, nb, epoch, limit) == runs
      modifies this`trainingSamples, this`calls, this`events
      ensures IsShuffleOf(trainingSamples, old(trainingSamples)) && |trainingSamples| == |old(trainingSamples)|
      ensures calls == old(calls) + (if interpreter.Some? then EpochCalls(trainingSamples, b, expectedBatchSize, expectedLabelSize) else [])
      ensures !failed ==> processed == nb != 0
      ensures events + (if failed then [] else TrainingEvents(interpreter.Some?, outcomes, |calls|, nb, epoch + 1, limit)) == total
      ensures failed ==> epoch + 1 == runs
      ensures !failed ==> epoch + 1 + EpochsRun(interpreter.Some?, outcomes, |calls|, nb, epoch + 1, limit) == runs
    {
      ghost var events0, before := events, calls;
      failed, processed := Epoch(b, expectedBatchSize, expectedLabelSize, epoch);
      if failed {
        FailingEpochEnds(interpreter.Some?, outcomes, |before|, nb, epoch, limit, events0, total);
      } else {
        CleanEpochContinues(interpreter.Some?, outcomes, |before|, nb, epoch, limit, |calls|, events0, total);
      }
    }

    /** startTraining(): set up if needed and make the weights ready (PrepareWeights);
        with ready weights, ValidateAndTrain from the state that left, `prepared`. */
    method StartTraining(cancelAfter: nat) returns (r: TrainingStart, ghost route: Route, ghost prepared: WeightsState)
      modifies this`interpreter, this`weightsInitialized, this`initializationPersisted, this`checkpoint, this`calls, this`events
      modifies this`targetWidth, this`targetHeight, this`requiredBatchSize, this`requiredLabelSize, this`bottleneckSize
      modifies this`trainingSamples, this`executorRunning
      ensures EnsuredWeights(modelAsset, outcomes, false, old(interpreter), old(AfterSetup()), interpreter, prepared,
                             !r.WeightsNotReady?, route)
      ensures r.WeightsNotReady? ==> Weights() == prepared
      ensures !r.Trained? ==> trainingSamples == old(trainingSamples) && executorRunning == old(executorRunning)
      ensures !r.WeightsNotReady? ==>
        (r.Refused? <==> Validate(old(trainingSamples)).Some?)
        && |prepared.calls| <= |calls| && calls[..|prepared.calls|] == prepared.calls
      ensures r.Refused? ==>
        r.reason == Validate(old(trainingSamples)).value && calls == prepared.calls
        && events == prepared.events + [Error(Rejected(r.reason))]
      ensures r.Trained? ==>
        interpreter.Some? && IsShuffleOf(trainingSamples, old(trainingSamples))
        && TrainedFrom(old(trainingSamples), |prepared.calls|, prepared.events, cancelAfter)
    {
      var ready;
      ready, route := PrepareWeights();
      prepared := Weights();
      if !ready {
        return WeightsNotReady, route, prepared;
      }
      ghost var start, eventsAtStart;
      r, start, eventsAtStart := ValidateAndTrain(cancelAfter);
    }

    /** The rest of startTraining: validate the samples (a rejection is reported and
        nothing else happens), then start the executor and run the epoch loop with the
        batch size min(n, model batch size), at least 1. The loop stops at MaxEpochs or
        after `cancelAfter` epochs, whichever comes first. */
    method ValidateAndTrain(cancelAfter: nat) returns (r: TrainingStart, ghost start: nat, ghost eventsAtStart: seq<Event>)
      requires interpreter.Some?
      modifies this`calls, this`events, this`trainingSamples, this`executorRunning
      ensures start == |old(calls)| && eventsAtStart == old(events)
      ensures |old(calls)| <= |calls| && calls[..|old(calls)|] == old(calls)
      ensures !r.WeightsNotReady?
      ensures r.Refused? <==> Validate(old(trainingSamples)).Some?
      ensures r.Refused? ==>
        r.reason == Validate(old(trainingSamples)).value && events == old(events) + [Error(Rejected(r.reason))]
        && trainingSamples == old(trainingSamples) && executorRunning == old(executorRunning) && calls == old(calls)
      ensures r.Trained? ==> IsShuffleOf(trainingSamples, old(trainingSamples)) && TrainedFrom(old(trainingSamples), start, eventsAtStart, cancelAfter)
    {
      start, eventsAtStart := |calls|, events;
      var rejection := Validate(trainingSamples);
      if rejection.Some? {
        events := events + [Error(Rejected(rejection.value))];
        return Refused(rejection.value), start, eventsAtStart;
      }
      executorRunning := true;
      Train(cancelAfter);
      r := Trained;
    }

    /** The executor's task: run the epoch loop with the batch size min(n, model batch
        size), at least 1, for at most min(cancelAfter, MaxEpochs) epochs. */
    method Train(cancelAfter: nat)
      requires interpreter.Some? && executorRunning && Validate(trainingSamples).None?
      modifies this`calls, this`events, this`trainingSamples
      ensures IsShuffleOf(trainingSamples, old(trainingSamples))
      ensures |old(calls)| <= |calls| && calls[..|old(calls)|] == old(calls)
      ensures TrainedFrom(old(trainingSamples), |old(calls)|, old(events), cancelAfter)
    {
      var expectedBatchSize := MaxInt(requiredBatchSize, 1);
      var expectedLabelSize := MaxInt(requiredLabelSize, 1);
      var trainBatchSize := TrainBatchSize(|trainingSamples|, expectedBatchSize);
      var limit := if cancelAfter < MaxEpochs then cancelAfter else MaxEpochs;
      ghost var calls0, events0, samples0 := calls, events, trainingSamples;
      ghost var shuffles := RunEpochs(trainBatchSize, expectedBatchSize, expectedLabelSize, limit);
      ghost var calls1, events1, samples1 := calls, events, trainingSamples;
      ShuffleKeepsLength(samples1, samples0);
      EpochsMakeTrainedRun(calls0, calls1, events0, events1, samples0, samples1, outcomes,
                           requiredBatchSize, requiredLabelSize, cancelAfter, shuffles,
                           trainBatchSize, limit, expectedBatchSize, expectedLabelSize);
    }

    /** After a training run over `samples0` that began with `start` calls and
        `eventsAtStart` events: the executor runs and the calls and events are a
        TrainedRun with the model's sizes. */
    ghost predicate TrainedFrom(samples0: seq<TrainingSample>, start: nat, eventsAtStart: seq<Event>, cancelAfter: nat)
      reads this
    {
      && executorRunning && interpreter.Some?
      && TrainedRun(calls, events, trainingSamples, outcomes, requiredBatchSize, requiredLabelSize,
                    samples0, start, eventsAtStart, cancelAfter)
    }
  }

  /** Kotlin's coerceAtLeast / max on two integers. */
  function MaxInt(a: int, b: int): (r: int)
    ensures r >= a && r >= b && (r == a || r == b)
  {
    if a >= b then a else b
  }
}
