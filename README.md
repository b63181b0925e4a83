# On-device model personalization, modelled in Dafny

This project models the core of the TensorFlow Lite *model personalization* Android
examples. It covers the transfer-learning engine (`TransferLearningHelper`), the
saved-model catalogue (`ModelManager`), the typed preference store
(`PreferencesHelper`), both `MainViewModel`s, the `TrainingClass` label mapping, the
prediction list built by `CameraFragment.convertToPredictionItems`, and the camera-size
rule of the posenet `CameraConnectionFragment`. It then proves what these components
promise.

## How the model is built

Stateful source objects are Dafny classes whose methods carry `modifies` clauses and
state the new value of the fields they modify. Pure Kotlin expressions are functions, with lemmas about them.

- `TransferLearning.Helper` is the engine.
  - The TFLite interpreter is abstract. The k-th interpreter call has the outcome
    `outcomes(k)` (success with an output, or a thrown error).
  - Every call is appended to a call log `calls`. Every listener notification is
    appended to an event log `events`.
  - Operation contracts are stated over these two logs. Examples: the initialize
    fallback chain is tried in order until the first success (`ChainTried`); the epoch
    loop posts exactly `TrainingEvents`.
  - A training run's calls are stated outright. Each epoch permutes the samples, cuts
    them into batches (`Batches`) and makes one `PaddedTrainCall` per batch, in order
    (`EpochCalls`). A run is the epochs' calls in sequence (`RunCalls`), and `TrainedRun`
    says the calls after the start are such a run over permutations of the samples
    present when training began.
  - The weight lifecycle is the pair `weightsInitialized` / `initializationPersisted`
    plus the checkpoint file. Its routes (already ready, restored, initialized,
    unavailable) are ghost `Route` values.
- `ModelCatalogue.ModelManager` holds the app's files directory as a map from relative
  path to contents. The info sidecar is written through the raw-string template and
  `trimIndent`, then parsed back line by line. Both `trimIndent` and `readLines` break
  lines at "\r\n", "\n" and "\r", as Kotlin's `lines()` does. `deleteRecursively`
  leaves the files that `File.delete()` refuses (the `canDelete` oracle).
- `Preferences.PreferencesHelper` holds the five typed SharedPreferences stores as maps.
- `PersonalizationViewModel.MainViewModel` and `ClassListViewModel.MainViewModel` hold
  their LiveData values as fields. `TrainingClasses.TrainingClass` is a class because the
  view model mutates its `name` and `isSelected` in place.
- `Predictions` and `CameraSizes` are functions and loop methods.
  - Java's 32-bit `int` arithmetic in `chooseOptimalSize` is written out as
    wrap-around and truncating division.
  - The comparator's `long` arithmetic is shown not to overflow.

Where a comment in the source and its code differ, the model follows the code:

- A failed training step does not end the epoch's batch loop. The remaining batches of
  that epoch still run. The epoch then ends the training loop without posting loss or
  progress.
- `initializeUsingSignatureInputs` has a branch for an empty input map that can never
  run. For the `initialize` signature the checkpoint input always resolves, falling back
  to the default name `checkpoint_path` (`Signatures.CheckpointInputsFromEmpty`).

`startTraining` validates the samples inline (TransferLearningHelper.kt:696-734). In
order, it rejects an empty list, fewer than 5 samples, fewer than 2 classes, and a
class with fewer than 3 samples, each with its own error. `Validate` checks them in
the same order, so an empty list is its own rejection and not a case of "too few
samples".

## Model

| member | source | states |
|---|---|---|
| Common.Lower | lite/examples/model_personalization/android/app/src/main/java/org/tensorflow/lite/examples/modelpersonalization/TransferLearningHelper.kt:951 | `lowercase()` keeps the length and maps each character through LowerChar: A–Z move to a–z, everything else is unchanged |
| Common.Take | lite/examples/model_personalization/android/app/src/main/java/org/tensorflow/lite/examples/modelpersonalization/ModelManager.kt:209 | `take(n)` is the prefix of length min(n, length) |
| Common.RemoveSpaces | lite/examples/model_personalization/android/app/src/main/java/org/tensorflow/lite/examples/modelpersonalization/ModelManager.kt:209 | `replace(" ", "")` leaves no space, and removes exactly the spaces (same multiset of the other characters) |
| Common.SplitAtFirst | lite/examples/model_personalization/android/app/src/main/java/org/tensorflow/lite/examples/modelpersonalization/ModelManager.kt:226 | `split("=", limit = 2)` yields two parts exactly when the line has an '='; the key holds no '=' and key + "=" + value is the line |
| Common.UntilChar | lite/examples/model_personalization/android/app/src/main/java/org/tensorflow/lite/examples/modelpersonalization/ModelManager.kt:226 | the prefix before the first occurrence of the delimiter: holds no delimiter and is followed by it or the end |
| Common.Split | lite/examples/model_personalization/android/app/src/main/java/org/tensorflow/lite/examples/modelpersonalization/ModelManager.kt:144 | `split(d)` gives at least one piece and no piece holds the delimiter |
| Common.Lines | lite/examples/model_personalization/android/app/src/main/java/org/tensorflow/lite/examples/modelpersonalization/ModelManager.kt:94 | `lines()`: at least one piece, no piece holds '\n' or '\r', and "\r\n", "\n" and "\r" each end one line |
| Common.ReadLines | lite/examples/model_personalization/android/app/src/main/java/org/tensorflow/lite/examples/modelpersonalization/ModelManager.kt:225 | `readLines()`: the lines of `lines()` without the empty piece after a final line break; no lines for empty text |
| Common.LinesWithoutReturn | lite/examples/model_personalization/android/app/src/main/java/org/tensorflow/lite/examples/modelpersonalization/ModelManager.kt:223-232 | on text without '\r' the lines are the pieces of `split('\n')` |
| Common.SplitJoin | lite/examples/model_personalization/android/app/src/main/java/org/tensorflow/lite/examples/modelpersonalization/ModelManager.kt:144 | splitting `joinToString(",")` at ',' gives back the parts when no part holds a ',' |
| Common.SplitEmpty | lite/examples/model_personalization/android/app/src/main/java/org/tensorflow/lite/examples/modelpersonalization/ModelManager.kt:144 | splitting the empty string gives one empty string |
| Common.JoinFreeOf | lite/examples/model_personalization/android/app/src/main/java/org/tensorflow/lite/examples/modelpersonalization/ModelManager.kt:91 | joining parts free of a character other than the separator gives a string free of it |
| Common.TrimStart | lite/examples/model_personalization/android/app/src/main/java/org/tensorflow/lite/examples/modelpersonalization/ModelManager.kt:144 | the result is a suffix of the input, starts with a non-whitespace character, and only whitespace was removed |
| Common.TrimEnd | lite/examples/model_personalization/android/app/src/main/java/org/tensorflow/lite/examples/modelpersonalization/ModelManager.kt:144 | the result is a prefix of the input, ends with a non-whitespace character, and only whitespace was removed |
| Common.TrimUntouched | lite/examples/model_personalization/android/app/src/main/java/org/tensorflow/lite/examples/modelpersonalization/ModelManager.kt:144 | `trim()` leaves a string with no surrounding whitespace unchanged |
| Common.TrimRemovesLeadingSpace | lite/examples/model_personalization/android/app/src/main/java/org/tensorflow/lite/examples/modelpersonalization/ModelManager.kt:144 | `trim()` changes a string that starts with whitespace |
| Common.NatToString | lite/examples/model_personalization/android/app/src/main/java/org/tensorflow/lite/examples/modelpersonalization/ModelManager.kt:92-93 | the decimal text of a number is non-empty and made of digits |
| Common.IntToString | lite/examples/model_personalization/android/app/src/main/java/org/tensorflow/lite/examples/modelpersonalization/ModelManager.kt:89-93 | `toString()` of an integer: its digits, preceded by "-" exactly when negative |
| Common.ParseInteger | lite/examples/model_personalization/android/app/src/main/java/org/tensorflow/lite/examples/modelpersonalization/ModelManager.kt:145-146 | a number parses exactly when the text is an optional sign followed by at least one digit |
| Common.ToIntOrNull | lite/examples/model_personalization/android/app/src/main/java/org/tensorflow/lite/examples/modelpersonalization/ModelManager.kt:145 | `toIntOrNull()` only yields values in the 32-bit range |
| Common.ToLongOrNull | lite/examples/model_personalization/android/app/src/main/java/org/tensorflow/lite/examples/modelpersonalization/ModelManager.kt:146 | `toLongOrNull()` only yields values in the 64-bit range |
| Common.ParseIntegerRoundTrip | lite/examples/model_personalization/android/app/src/main/java/org/tensorflow/lite/examples/modelpersonalization/ModelManager.kt:92-93 | the decimal text of any integer parses back to it |
| Common.IntRoundTrip | lite/examples/model_personalization/android/app/src/main/java/org/tensorflow/lite/examples/modelpersonalization/ModelManager.kt:145 | `toIntOrNull()` of the text of a 32-bit number gives the number back |
| Common.LongRoundTrip | lite/examples/model_personalization/android/app/src/main/java/org/tensorflow/lite/examples/modelpersonalization/ModelManager.kt:146 | `toLongOrNull()` of the text of a 64-bit number gives the number back |
| Common.IntToStringChars | lite/examples/model_personalization/android/app/src/main/java/org/tensorflow/lite/examples/modelpersonalization/ModelManager.kt:89-93 | the text of a number holds no character other than '-' and digits (so no '=', ',' or line break) |
| Common.IncrementedCounts | lite/examples/model_personalization_default/android/app/src/main/java/org/tensorflow/lite/examples/modelpersonalization/MainViewModel.kt:50-52 | `map[k] = (map[k] ?: 0) + 1` adds one to k's count (absent counts as 0), leaves every other count, and adds only k as a key |
| TrainingData.ClassIndexOf | lite/examples/model_personalization/android/app/src/main/java/org/tensorflow/lite/examples/modelpersonalization/TransferLearningHelper.kt:1048-1054 | the `classes` table: defined exactly for "1".."5", and the index it gives names that id in CLASS_IDS |
| TrainingData.Encoding | lite/examples/model_personalization/android/app/src/main/java/org/tensorflow/lite/examples/modelpersonalization/TransferLearningHelper.kt:988-992 | `encoding(id)`: NUM_CLASSES entries, 1 at position id and 0 at every other position |
| TrainingData.ClassIndex | lite/examples/model_personalization/android/app/src/main/java/org/tensorflow/lite/examples/modelpersonalization/TransferLearningHelper.kt:713-715 | `indexOfFirst { it == 1f }`: the first index holding 1.0 (none before it), or -1 when no entry is 1.0 |
| TrainingData.EncodingClassIndex | lite/examples/model_personalization/android/app/src/main/java/org/tensorflow/lite/examples/modelpersonalization/TransferLearningHelper.kt:988-992 | the one-hot encoding of id has NUM_CLASSES entries and its class index is id |
| TrainingData.PrepareLabel | lite/examples/model_personalization/android/app/src/main/java/org/tensorflow/lite/examples/modelpersonalization/TransferLearningHelper.kt:1022-1028 | the label has exactly the expected length; entry j is the original one when j is inside it, 0 otherwise (`copyOf` truncates or zero-extends) |
| TrainingData.PrepareLabelKeepsClass | lite/examples/model_personalization/android/app/src/main/java/org/tensorflow/lite/examples/modelpersonalization/TransferLearningHelper.kt:1022-1028 | coercing a one-hot label keeps its class when the class fits the new length and loses it (-1) otherwise |
| TrainingData.CountPositive | lite/examples/model_personalization/android/app/src/main/java/org/tensorflow/lite/examples/modelpersonalization/TransferLearningHelper.kt:713-715 | every sample's class has a positive count |
| TrainingData.CountAbsent | lite/examples/model_personalization/android/app/src/main/java/org/tensorflow/lite/examples/modelpersonalization/TransferLearningHelper.kt:713-715 | a class no sample has counts zero |
| TrainingData.Distribution | lite/examples/model_personalization/android/app/src/main/java/org/tensorflow/lite/examples/modelpersonalization/TransferLearningHelper.kt:713-715 | `groupBy` of the class index: its keys are exactly the classes present and each group size is that class's count (at least 1) |
| TrainingData.Validate | lite/examples/model_personalization/android/app/src/main/java/org/tensorflow/lite/examples/modelpersonalization/TransferLearningHelper.kt:696-734 | the four checks in order: NoSamples iff empty; TooFewSamples iff 1–4 samples; TooFewClasses iff ≥ 5 samples in fewer than 2 classes; ClassesTooSmall iff ≥ 5 samples in ≥ 2 classes and some class under 3, naming exactly those classes |
| TrainingData.ValidatedHasSixSamples | lite/examples/model_personalization/android/app/src/main/java/org/tensorflow/lite/examples/modelpersonalization/TransferLearningHelper.kt:717-734 | samples that pass validation number at least 6 (two classes of at least 3) |
| TrainingData.ThreeAndTwo | lite/examples/model_personalization/android/app/src/main/java/org/tensorflow/lite/examples/modelpersonalization/TransferLearningHelper.kt:713-715 | three samples of class 0 and two of class 1 group to {0: 3, 1: 2} |
| TrainingData.RejectsUnderpopulatedClass | lite/examples/model_personalization/android/app/src/main/java/org/tensorflow/lite/examples/modelpersonalization/TransferLearningHelper.kt:725-734 | five samples split 3/2 pass the count checks and are rejected naming class 1 |
| TrainingData.TrainBatchSize | lite/examples/model_personalization/android/app/src/main/java/org/tensorflow/lite/examples/modelpersonalization/TransferLearningHelper.kt:740 | `max(1, min(n, expected))` is at least 1, at most n and the model batch size, and equals one of them |
| TrainingData.NumBatches | lite/examples/model_personalization/android/app/src/main/java/org/tensorflow/lite/examples/modelpersonalization/TransferLearningHelper.kt:1000-1002 | there are no batches exactly when there are no samples |
| TrainingData.NumBatchesIsCeiling | lite/examples/model_personalization/android/app/src/main/java/org/tensorflow/lite/examples/modelpersonalization/TransferLearningHelper.kt:996-1020 | the iterator yields ceil(n / b) batches |
| TrainingData.Batches | lite/examples/model_personalization/android/app/src/main/java/org/tensorflow/lite/examples/modelpersonalization/TransferLearningHelper.kt:996-1020 | every batch the iterator yields holds exactly b samples (the last one is the final b, overlapping the one before) |
| TrainingData.BatchesCount | lite/examples/model_personalization/android/app/src/main/java/org/tensorflow/lite/examples/modelpersonalization/TransferLearningHelper.kt:1000-1007 | the batches from index `from` number ceil((n - from) / b), none once `from` reaches n |
| TrainingData.BatchesAreSlices | lite/examples/model_personalization/android/app/src/main/java/org/tensorflow/lite/examples/modelpersonalization/TransferLearningHelper.kt:1004-1018 | batch k (not the last) is the slice [k·b, k·b + b); the last batch is [n - b, n) |
| TrainingData.TrainingBatches | lite/examples/model_personalization/android/app/src/main/java/org/tensorflow/lite/examples/modelpersonalization/TransferLearningHelper.kt:996-1020 | the loop over `nextIndex` yields exactly the batches Batches describes, ceil(n / b) of them, each of length b |
| TrainingData.BatchesCover | lite/examples/model_personalization/android/app/src/main/java/org/tensorflow/lite/examples/modelpersonalization/TransferLearningHelper.kt:996-1020 | every sample lies in one of the batches the iterator yields |
| TrainingData.BuildTrainingBatch | lite/examples/model_personalization/android/app/src/main/java/org/tensorflow/lite/examples/modelpersonalization/TransferLearningHelper.kt:773-804 | the inputs are exactly PaddedBottlenecks and PaddedLabels: expectedBatchSize rows, row i being batch member i mod |batch| with its label coerced to expectedLabelSize |
| Signatures.NamesCheckpointIsContains | lite/examples/model_personalization/android/app/src/main/java/org/tensorflow/lite/examples/modelpersonalization/TransferLearningHelper.kt:268-271 | the name test is `contains("checkpoint", ignoreCase = true)` (the equality with "checkpoint_path" adds nothing) |
| Signatures.FirstCheckpointInputIsFirst | lite/examples/model_personalization/android/app/src/main/java/org/tensorflow/lite/examples/modelpersonalization/TransferLearningHelper.kt:268-271 | the first input whose name names a checkpoint, none before it; none exactly when no input does |
| Signatures.FirstStringInputIsFirst | lite/examples/model_personalization/android/app/src/main/java/org/tensorflow/lite/examples/modelpersonalization/TransferLearningHelper.kt:276-280 | the first STRING-typed input, none before it; none exactly when no input is STRING-typed |
| Signatures.ResolveCheckpointInput | lite/examples/model_personalization/android/app/src/main/java/org/tensorflow/lite/examples/modelpersonalization/TransferLearningHelper.kt:265-287 | nothing is resolved iff the signature is not `initialize` and no input names a checkpoint or is STRING-typed; a resolved name is such an input's name or, for `initialize`, "checkpoint_path" |
| Signatures.ResolvePrefersCheckpointName | lite/examples/model_personalization/android/app/src/main/java/org/tensorflow/lite/examples/modelpersonalization/TransferLearningHelper.kt:268-274 | when some input names a checkpoint, the first such input is chosen, whatever the types |
| Signatures.ResolveFallsBackToString | lite/examples/model_personalization/android/app/src/main/java/org/tensorflow/lite/examples/modelpersonalization/TransferLearningHelper.kt:273-281 | when no input names a checkpoint, the first STRING-typed input is chosen |
| Signatures.ResolveDefaultsForInitialize | lite/examples/model_personalization/android/app/src/main/java/org/tensorflow/lite/examples/modelpersonalization/TransferLearningHelper.kt:283-287 | with neither, "checkpoint_path" is chosen for `initialize` and nothing for any other signature |
| Signatures.AddCheckpointInputKeepsGiven | lite/examples/model_personalization/android/app/src/main/java/org/tensorflow/lite/examples/modelpersonalization/TransferLearningHelper.kt:289-294 | every given input keeps its value; the only added entry is the resolved key holding the checkpoint path; nothing is added when nothing resolves |
| Signatures.AddCheckpointInputIfRequired | lite/examples/model_personalization/android/app/src/main/java/org/tensorflow/lite/examples/modelpersonalization/TransferLearningHelper.kt:289-294 | every given entry survives with its value; an entry not given is the resolved name holding the checkpoint path |
| Signatures.CheckpointInputsFromEmpty | lite/examples/model_personalization/android/app/src/main/java/org/tensorflow/lite/examples/modelpersonalization/TransferLearningHelper.kt:309-312 | from an empty map the inputs hold at most one entry, the checkpoint path, and exactly one for `initialize` (so the `inputs.isEmpty()` branch never runs) |
| Signatures.NameBeatsType | lite/examples/model_personalization/android/app/src/main/java/org/tensorflow/lite/examples/modelpersonalization/TransferLearningHelper.kt:268-281 | a checkpoint name later in the list beats an earlier STRING input |
| ErrorClassifier.CauseChain | lite/examples/model_personalization/android/app/src/main/java/org/tensorflow/lite/examples/modelpersonalization/TransferLearningHelper.kt:949-957 | the chain starts at the error and follows `cause` to its end |
| ErrorClassifier.IsUninitializedReadVariableError | lite/examples/model_personalization/android/app/src/main/java/org/tensorflow/lite/examples/modelpersonalization/TransferLearningHelper.kt:948-960 | null is not such an error; an error whose own lowercased message contains a marker is |
| ErrorClassifier.ClassifierMatchesChain | lite/examples/model_personalization/android/app/src/main/java/org/tensorflow/lite/examples/modelpersonalization/TransferLearningHelper.kt:948-960 | true iff some error in the cause chain has a message whose lowercase contains "read_variable" or "uninitialized" |
| ErrorClassifier.ClassifierFindsWitness | lite/examples/model_personalization/android/app/src/main/java/org/tensorflow/lite/examples/modelpersonalization/TransferLearningHelper.kt:950-955 | a positive answer comes with the index in the chain of a marked message |
| ErrorClassifier.ClassifierSeesWitness | lite/examples/model_personalization/android/app/src/main/java/org/tensorflow/lite/examples/modelpersonalization/TransferLearningHelper.kt:950-957 | any marked message in the chain makes the answer positive |
| ErrorClassifier.WrappingKeepsClassification | lite/examples/model_personalization/android/app/src/main/java/org/tensorflow/lite/examples/modelpersonalization/TransferLearningHelper.kt:950-957 | wrapping an error in one without a marked message does not change the answer |
| ErrorClassifier.RecognisesWrappedUpperCase | lite/examples/model_personalization/android/app/src/main/java/org/tensorflow/lite/examples/modelpersonalization/TransferLearningHelper.kt:951-953 | a cause with message "UNINITIALIZED" under a message-less wrapper is recognised (case is ignored) |
| TrainingClasses.ClassLabelTable | lite/examples/model_personalization_default/android/app/src/main/java/org/tensorflow/lite/examples/modelpersonalization/TrainingClass.kt:16-25 | ids 0..4 map to "1".."5" (class index id), any other id maps to "1"; the label is always a class id |
| TrainingClasses.ClassLabelInjective | lite/examples/model_personalization_default/android/app/src/main/java/org/tensorflow/lite/examples/modelpersonalization/TrainingClass.kt:17-22 | on 0..4 two ids have the same label iff they are equal |
| TrainingClasses.TrainingClass.constructor | lite/examples/model_personalization_default/android/app/src/main/java/org/tensorflow/lite/examples/modelpersonalization/TrainingClass.kt:9-14 | the four fields take the given values |
| TrainingClasses.TrainingClass.GetClassLabel | lite/examples/model_personalization_default/android/app/src/main/java/org/tensorflow/lite/examples/modelpersonalization/TrainingClass.kt:16-25 | the label is always one of the five class ids the helper accepts, and for ids 0..4 it reads back as the id |
| TrainingClasses.NewTrainingClassDefaults | lite/examples/model_personalization_default/android/app/src/main/java/org/tensorflow/lite/examples/modelpersonalization/TrainingClass.kt:12-13 | a new class starts with sampleCount 0 and not selected |
| TransferLearning.InputsOf | lite/examples/model_personalization/android/app/src/main/java/org/tensorflow/lite/examples/modelpersonalization/TransferLearningHelper.kt:305-307 | without an interpreter a signature has no inputs |
| TransferLearning.ZeroInputChain | lite/examples/model_personalization/android/app/src/main/java/org/tensorflow/lite/examples/modelpersonalization/TransferLearningHelper.kt:381-403 | the zero-input path is one or two attempts and always ends with resetVariableTensors |
| TransferLearning.DeclaredInitializeChain | lite/examples/model_personalization/android/app/src/main/java/org/tensorflow/lite/examples/modelpersonalization/TransferLearningHelper.kt:309-338 | with declared inputs: the run with the one resolved checkpoint input, then resetVariableTensors (the reflective run always aborts on declared inputs) |
| TransferLearning.UndeclaredInitializeChain | lite/examples/model_personalization/android/app/src/main/java/org/tensorflow/lite/examples/modelpersonalization/TransferLearningHelper.kt:165-178 | without declared inputs: the empty-input run, the reflective run, then resetVariableTensors |
| TransferLearning.TriedAfterExhausted | lite/examples/model_personalization/android/app/src/main/java/org/tensorflow/lite/examples/modelpersonalization/TransferLearningHelper.kt:326-336 | failed attempts followed by a fallback chain make one chain tried in order until the first success |
| TransferLearning.FirstAttemptSucceeded | lite/examples/model_personalization/android/app/src/main/java/org/tensorflow/lite/examples/modelpersonalization/TransferLearningHelper.kt:320-324 | a first attempt that succeeds is the chain tried until success |
| TransferLearning.StepFailures | lite/examples/model_personalization/android/app/src/main/java/org/tensorflow/lite/examples/modelpersonalization/TransferLearningHelper.kt:811-819 | an epoch posts at most one error per step, each a training failure |
| TransferLearning.Progress | lite/examples/model_personalization/android/app/src/main/java/org/tensorflow/lite/examples/modelpersonalization/TransferLearningHelper.kt:833 | `((epoch.toFloat() / maxEpochs) * 100).toInt()`: never above the exact percentage and at most one below it; exact except at epochs 53 and 59, where Float arithmetic falls short |
| TransferLearning.ProgressTracksEpochs | lite/examples/model_personalization/android/app/src/main/java/org/tensorflow/lite/examples/modelpersonalization/TransferLearningHelper.kt:833 | progress is e or e − 1 at epoch e, exactly e away from 53 and 59, 100 at the last epoch, and never decreases |
| TransferLearning.TrainingEvents | lite/examples/model_personalization/android/app/src/main/java/org/tensorflow/lite/examples/modelpersonalization/TransferLearningHelper.kt:757-846 | the loop's notifications end with onTrainingComplete or with a training error |
| TransferLearning.StepFailuresNone | lite/examples/model_personalization/android/app/src/main/java/org/tensorflow/lite/examples/modelpersonalization/TransferLearningHelper.kt:806-822 | an epoch posts no error iff every train step of it succeeds |
| TransferLearning.FailingEpochEnds | lite/examples/model_personalization/android/app/src/main/java/org/tensorflow/lite/examples/modelpersonalization/TransferLearningHelper.kt:826-828 | an epoch with a failed step ends the loop: its errors are the last events, and it is the last epoch run |
| TransferLearning.LoopEndCompletes | lite/examples/model_personalization/android/app/src/main/java/org/tensorflow/lite/examples/modelpersonalization/TransferLearningHelper.kt:842-846 | once the epochs are used up, or an epoch has no batch, the loop posts TrainingComplete and nothing else |
| TransferLearning.CleanEpochContinues | lite/examples/model_personalization/android/app/src/main/java/org/tensorflow/lite/examples/modelpersonalization/TransferLearningHelper.kt:830-838 | a clean epoch posts its loss and EpochUpdate(e + 1, progress), then the loop goes on, running one epoch more than from the next |
| TransferLearning.EpochFails | lite/examples/model_personalization/android/app/src/main/java/org/tensorflow/lite/examples/modelpersonalization/TransferLearningHelper.kt:811-828 | the loop's events from a failing epoch are exactly that epoch's errors: no loss, no epoch update, no completion |
| TransferLearning.EpochClean | lite/examples/model_personalization/android/app/src/main/java/org/tensorflow/lite/examples/modelpersonalization/TransferLearningHelper.kt:821-838 | the loop's events from a clean epoch are loss, epoch update, then the next epochs' |
| TransferLearning.CompleteIffNoFailure | lite/examples/model_personalization/android/app/src/main/java/org/tensorflow/lite/examples/modelpersonalization/TransferLearningHelper.kt:841-846 | `onTrainingComplete` is posted iff no training error is posted |
| TransferLearning.EpochUpdatesBounded | lite/examples/model_personalization/android/app/src/main/java/org/tensorflow/lite/examples/modelpersonalization/TransferLearningHelper.kt:753-838 | every epoch update names an epoch e in 1..100 with progress e, or e − 1 at epochs 53 and 59 |
| TransferLearning.ReportBeforeRest | lite/examples/model_personalization/android/app/src/main/java/org/tensorflow/lite/examples/modelpersonalization/TransferLearningHelper.kt:836-837 | one clean epoch's loss and progress reports, put before events that keep the epoch and progress bounds from the next epoch on, keep them from this epoch on |
| TransferLearning.NoUpdatesAtLoopEnd | lite/examples/model_personalization/android/app/src/main/java/org/tensorflow/lite/examples/modelpersonalization/TransferLearningHelper.kt:757-846 | an epoch at which the loop ends, out of epochs, without batches or with a failed step, posts no progress update |
| TransferLearning.CleanRunReportsEveryEpoch | lite/examples/model_personalization/android/app/src/main/java/org/tensorflow/lite/examples/modelpersonalization/TransferLearningHelper.kt:757-846 | when every step succeeds, each epoch up to the limit posts loss and update, then completion |
| TransferLearning.EpochsRun | lite/examples/model_personalization/android/app/src/main/java/org/tensorflow/lite/examples/modelpersonalization/TransferLearningHelper.kt:757-839 | the loop runs no epoch at the limit, else between 1 and the epochs left |
| TransferLearning.CleanRunRunsEveryEpoch | lite/examples/model_personalization/android/app/src/main/java/org/tensorflow/lite/examples/modelpersonalization/TransferLearningHelper.kt:757-839 | when every step succeeds and every epoch has a batch, the loop runs all `limit` epochs |
| TransferLearning.EarlyStopIsFailure | lite/examples/model_personalization/android/app/src/main/java/org/tensorflow/lite/examples/modelpersonalization/TransferLearningHelper.kt:757-846 | a loop that stops before the limit has posted a training error, and one that posts completion ran every epoch |
| TransferLearning.ShuffleKeepsLength | lite/examples/model_personalization/android/app/src/main/java/org/tensorflow/lite/examples/modelpersonalization/TransferLearningHelper.kt:764 | the shuffle keeps the number of samples |
| TransferLearning.Coerced | lite/examples/model_personalization/android/app/src/main/java/org/tensorflow/lite/examples/modelpersonalization/TransferLearningHelper.kt:660-661 | batch and label sizes end at least 1 |
| TransferLearning.UpdatedConstraints | lite/examples/model_personalization/android/app/src/main/java/org/tensorflow/lite/examples/modelpersonalization/TransferLearningHelper.kt:614-662 | sizes ≥ 1; without an interpreter or when the lookup throws only the coercion applies; the target size changes only from a load shape of rank ≥ 3; the bottleneck size only from a positive train dimension; a rank-2 label shape sets each positive dimension |
| TransferLearning.UpdateConstraintsIdempotent | lite/examples/model_personalization/android/app/src/main/java/org/tensorflow/lite/examples/modelpersonalization/TransferLearningHelper.kt:614-662 | updating the constraints twice is the same as once |
| TransferLearning.ReportedUnavailable | lite/examples/model_personalization/android/app/src/main/java/org/tensorflow/lite/examples/modelpersonalization/TransferLearningHelper.kt:245-250 | after an exhausted chain the failure is reported to the listener unless it is the startup attempt |
| TransferLearning.RecoveredByRestore | lite/examples/model_personalization/android/app/src/main/java/org/tensorflow/lite/examples/modelpersonalization/TransferLearningHelper.kt:235-238 | a successful restore of an existing checkpoint makes the weights ready with the restore as the only call, ModelLoaded as the only event and the persisted flag unchanged |
| TransferLearning.RecoveredByInitialize | lite/examples/model_personalization/android/app/src/main/java/org/tensorflow/lite/examples/modelpersonalization/TransferLearningHelper.kt:240-250 | after a skipped or failed restore (a failed one leaves LoadFailed), the initialize chain decides the route: Initialized leaves exactly Persisted applied to the chain's result, with the checkpoint, events and persisted flag from before; Unavailable leaves the checkpoint and persisted flag unchanged |
| TransferLearning.FirstAttemptRecovers | lite/examples/model_personalization/android/app/src/main/java/org/tensorflow/lite/examples/modelpersonalization/TransferLearningHelper.kt:72-81 | the init block's ensureWeightsReady(initialAttempt = true), on a fresh interpreter with nothing called or posted, keeps the interpreter and ends Recovered from the checkpoint on disk: the whole weights state is fixed by the route (restored; initialized then Persisted; or unavailable with no report and the checkpoint unchanged) |
| TransferLearning.PersistedMeaning | lite/examples/model_personalization/android/app/src/main/java/org/tensorflow/lite/examples/modelpersonalization/TransferLearningHelper.kt:353-379 | persisting initialized weights only appends calls and events; the weights count as persisted iff they already were or the checkpoint now holds them and they are initialized; they end uninitialized iff the last event is LoadFailed; the checkpoint only ever becomes Written |
| TransferLearning.SaveThenReload | lite/examples/model_personalization/android/app/src/main/java/org/tensorflow/lite/examples/modelpersonalization/TransferLearningHelper.kt:353-379 | the save step followed by the reload step (save unless a checkpoint exists; restore when one does) is the combined persist step, and with an interpreter exactly Persisted |
| TransferLearning.RecoveryAfterReset | lite/examples/model_personalization/android/app/src/main/java/org/tensorflow/lite/examples/modelpersonalization/TransferLearningHelper.kt:934-940 | after the weights are marked uninitialized, ensureWeightsReady keeps the interpreter, only appends calls, and on failure its last call failed |
| TransferLearning.Helper.Run | lite/examples/model_personalization/android/app/src/main/java/org/tensorflow/lite/examples/modelpersonalization/TransferLearningHelper.kt:110 | `interpreter?.runSignature(...)`: one call and its outcome with an interpreter, no call without |
| TransferLearning.Helper.Invoke | lite/examples/model_personalization/android/app/src/main/java/org/tensorflow/lite/examples/modelpersonalization/TransferLearningHelper.kt:110 | one interpreter call is logged and its outcome is the next oracle outcome |
| TransferLearning.Helper.SaveModelWeights | lite/examples/model_personalization/android/app/src/main/java/org/tensorflow/lite/examples/modelpersonalization/TransferLearningHelper.kt:102-121 | true iff the save run succeeded (or there was no interpreter to throw); the checkpoint is written only by a real successful run; ModelSaved or a save error is posted |
| TransferLearning.Helper.LoadModelWeights | lite/examples/model_personalization/android/app/src/main/java/org/tensorflow/lite/examples/modelpersonalization/TransferLearningHelper.kt:124-153 | with no non-empty checkpoint: false, no call, no event; otherwise one restore call and `weightsInitialized` is the result, with ModelLoaded or a load error |
| TransferLearning.Helper.InitializeUsingZeroInputSignature | lite/examples/model_personalization/android/app/src/main/java/org/tensorflow/lite/examples/modelpersonalization/TransferLearningHelper.kt:381-403 | the zero-input chain is tried until a success; true iff the last attempt succeeded; `weightsInitialized` is the result; one error when all fail |
| TransferLearning.Helper.InitializeUsingEmptyInputSignature | lite/examples/model_personalization/android/app/src/main/java/org/tensorflow/lite/examples/modelpersonalization/TransferLearningHelper.kt:340-351 | one empty-input run; true iff it succeeded, and then the weights are initialized |
| TransferLearning.Helper.InitializeUsingSignatureInputs | lite/examples/model_personalization/android/app/src/main/java/org/tensorflow/lite/examples/modelpersonalization/TransferLearningHelper.kt:309-338 | the declared-input chain is tried until a success; true iff the last attempt succeeded; `weightsInitialized` is the result; InitializeFailureEvents are posted when all fail |
| TransferLearning.Helper.FallBackToZeroInput | lite/examples/model_personalization/android/app/src/main/java/org/tensorflow/lite/examples/modelpersonalization/TransferLearningHelper.kt:326-337 | after the failed checkpoint run, the zero-input path completes the declared-input chain; true iff its last attempt succeeded; InitializeFailureEvents when it fails too |
| TransferLearning.Helper.InitializeModelWeights | lite/examples/model_personalization/android/app/src/main/java/org/tensorflow/lite/examples/modelpersonalization/TransferLearningHelper.kt:156-180 | no interpreter: false and nothing else; otherwise the initialize chain for the model is tried until a success, the result says whether one succeeded and equals `weightsInitialized` |
| TransferLearning.Helper.InitializeWithoutDeclaredInputs | lite/examples/model_personalization/android/app/src/main/java/org/tensorflow/lite/examples/modelpersonalization/TransferLearningHelper.kt:168-178 | the empty-input run, then the zero-input path only if it failed |
| TransferLearning.Helper.UpdateModelConstraints | lite/examples/model_personalization/android/app/src/main/java/org/tensorflow/lite/examples/modelpersonalization/TransferLearningHelper.kt:614-662 | the new sizes are UpdatedConstraints of the old ones |
| TransferLearning.Helper.ReadBottleneckShape | lite/examples/model_personalization/android/app/src/main/java/org/tensorflow/lite/examples/modelpersonalization/TransferLearningHelper.kt:627-637 | the train bottleneck shape sets batch size and bottleneck size from its positive dimensions |
| TransferLearning.Helper.ReadLabelShape | lite/examples/model_personalization/android/app/src/main/java/org/tensorflow/lite/examples/modelpersonalization/TransferLearningHelper.kt:639-651 | a label shape of rank ≥ 2 sets batch size and label size from its positive dimensions |
| TransferLearning.Helper.SetupModelPersonalization | lite/examples/model_personalization/android/app/src/main/java/org/tensorflow/lite/examples/modelpersonalization/TransferLearningHelper.kt:205-224 | succeeds iff the model file loads; then the interpreter is set, both flags cleared and the constraints updated; otherwise nothing changes but a setup error |
| TransferLearning.Helper.PersistInitializationIfNeeded | lite/examples/model_personalization/android/app/src/main/java/org/tensorflow/lite/examples/modelpersonalization/TransferLearningHelper.kt:353-379 | a no-op once persisted; otherwise save only when there is no checkpoint, reload only when the save (or the existing checkpoint) is there, `reloaded` iff that restore succeeded, `initializationPersisted` set iff save and reload both succeeded; with an interpreter the new weights state is exactly Persisted of the old |
| TransferLearning.Helper.SaveAndReload | lite/examples/model_personalization/android/app/src/main/java/org/tensorflow/lite/examples/modelpersonalization/TransferLearningHelper.kt:358-378 | the unpersisted branch: SavedAndReloaded (save unless a checkpoint exists, reload when saved, persisted iff both succeeded) and, with an interpreter, exactly Persisted of the old state |
| TransferLearning.Helper.EnsureWeightsReady | lite/examples/model_personalization/android/app/src/main/java/org/tensorflow/lite/examples/modelpersonalization/TransferLearningHelper.kt:226-251 | ready iff already ready, restored or initialized; set up first when no interpreter; nothing changes when the weights are already initialized; otherwise the whole weights state is Recovered: restore only with a non-empty checkpoint, then the initialize chain and Persisted |
| TransferLearning.Helper.RecoverWeights | lite/examples/model_personalization/android/app/src/main/java/org/tensorflow/lite/examples/modelpersonalization/TransferLearningHelper.kt:235-250 | restore when a checkpoint exists, otherwise or on failure the initialize chain; ready iff either succeeded; the resulting calls, events, checkpoint and both flags are those Recovered fixes for the route |
| TransferLearning.Helper.InitializeOrReport | lite/examples/model_personalization/android/app/src/main/java/org/tensorflow/lite/examples/modelpersonalization/TransferLearningHelper.kt:240-250 | initialize, then on success the state is Persisted of the chain's result (InitializedFrom); on failure report unless this is the startup attempt, the checkpoint and persisted flag unchanged |
| TransferLearning.Helper.ReportUnavailable | lite/examples/model_personalization/android/app/src/main/java/org/tensorflow/lite/examples/modelpersonalization/TransferLearningHelper.kt:245-250 | posts "unable to initialize" only outside the startup attempt |
| TransferLearning.Helper.PersistInitialization | lite/examples/model_personalization/android/app/src/main/java/org/tensorflow/lite/examples/modelpersonalization/TransferLearningHelper.kt:240-242 | after a successful initialize the persist step runs: the new state is exactly Persisted of the state the chain left (InitializedFrom) |
| TransferLearning.Helper.constructor | lite/examples/model_personalization/android/app/src/main/java/org/tensorflow/lite/examples/modelpersonalization/TransferLearningHelper.kt:72-85 | no samples, executor stopped, interpreter = the model; without a model exactly the two init errors, no calls and default sizes; with a model the sizes are updateModelConstraints after the input-tensor size, and the weights state is StartedUp: Recovered by the first silent attempt from the checkpoint on disk |
| TransferLearning.Helper.Init | lite/examples/model_personalization/android/app/src/main/java/org/tensorflow/lite/examples/modelpersonalization/TransferLearningHelper.kt:72-84 | on a helper with no interpreter, calls or events: without a model exactly SetupFailed then the init error, no calls, sizes and flags unchanged; with a model the interpreter is the model, the sizes are updateModelConstraints after the input-tensor size, and the weights state is StartedUp from the checkpoint |
| TransferLearning.Helper.StartUp | lite/examples/model_personalization/android/app/src/main/java/org/tensorflow/lite/examples/modelpersonalization/TransferLearningHelper.kt:74-81 | the init block after a successful setup: sizes from input tensor 0 then updateModelConstraints, and the weights state Recovered by ensureWeightsReady(initialAttempt = true) from an empty call and event log and the checkpoint on disk |
| TransferLearning.Helper.ReadImageSize | lite/examples/model_personalization/android/app/src/main/java/org/tensorflow/lite/examples/modelpersonalization/TransferLearningHelper.kt:74-78 | width and height become shape[2] and shape[1] when input tensor 0 has at least three dimensions, and stay as they were otherwise; batch, label and bottleneck sizes are kept |
| TransferLearning.Helper.WithInputTensorShape | lite/examples/model_personalization/android/app/src/main/java/org/tensorflow/lite/examples/modelpersonalization/TransferLearningHelper.kt:74-79 | an input-tensor shape of rank ≥ 3 sets targetWidth = shape[2] and targetHeight = shape[1], a shorter shape changes nothing; the other sizes are untouched |
| TransferLearning.Helper.Close | lite/examples/model_personalization/android/app/src/main/java/org/tensorflow/lite/examples/modelpersonalization/TransferLearningHelper.kt:87-93 | executor stopped, interpreter dropped, both flags cleared |
| TransferLearning.Helper.PauseTraining | lite/examples/model_personalization/android/app/src/main/java/org/tensorflow/lite/examples/modelpersonalization/TransferLearningHelper.kt:95-99 | executor stopped, then exactly the effect of saveModelWeights |
| TransferLearning.Helper.ClearTrainingSamples | lite/examples/model_personalization/android/app/src/main/java/org/tensorflow/lite/examples/modelpersonalization/TransferLearningHelper.kt:193-197 | the sample list is empty |
| TransferLearning.Helper.LoadBottleneck | lite/examples/model_personalization/android/app/src/main/java/org/tensorflow/lite/examples/modelpersonalization/TransferLearningHelper.kt:907-946 | no interpreter: zeros of bottleneck size, nothing called; otherwise the load call runs first and calls are only appended; success returns its output; a failure that is not an uninitialized-variable error is returned as thrown after that one call; a retry happens only after such an error and returns the outcome of the final load call; the result is a bottleneck iff the last call is a successful load |
| TransferLearning.Helper.RecoverAndRetryLoad | lite/examples/model_personalization/android/app/src/main/java/org/tensorflow/lite/examples/modelpersonalization/TransferLearningHelper.kt:934-944 | the interpreter is kept and calls are only appended; when the weights become ready the last call is a load and the result is its outcome; otherwise the last call failed |
| TransferLearning.Helper.ResetWeights | lite/examples/model_personalization/android/app/src/main/java/org/tensorflow/lite/examples/modelpersonalization/TransferLearningHelper.kt:934-940 | clears both flags and runs ensureWeightsReady again: the interpreter is kept, calls are only appended, and on failure the last call failed |
| TransferLearning.Helper.AddSample | lite/examples/model_personalization/android/app/src/main/java/org/tensorflow/lite/examples/modelpersonalization/TransferLearningHelper.kt:666-684 | set up if needed, then the weights state is what ensureWeightsReady makes of it (EnsuredWeights, which fixes calls, events, checkpoint and flags per route); NotReady iff its route is not ready, changing nothing more; when ready, the error is raised iff the last load failed, the class is unknown iff the load succeeded but the name is not an id, and otherwise the list grows by exactly the load output with the one-hot label |
| TransferLearning.Helper.PrepareWeights | lite/examples/model_personalization/android/app/src/main/java/org/tensorflow/lite/examples/modelpersonalization/TransferLearningHelper.kt:668-673 | set up if there is no interpreter, then ensureWeightsReady(false): ready iff its route is AlreadyReady, Restored or Initialized, and the weights state is the one EnsuredWeights fixes for that route |
| TransferLearning.Helper.StoreSample | lite/examples/model_personalization/android/app/src/main/java/org/tensorflow/lite/examples/modelpersonalization/TransferLearningHelper.kt:674-682 | the interpreter is kept and calls are only appended; Raised iff the last load call did not succeed; UnknownClass iff it did and the name is not a class id; otherwise Added, with exactly the load output and the one-hot label appended |
| TransferLearning.Helper.Epoch | lite/examples/model_personalization/android/app/src/main/java/org/tensorflow/lite/examples/modelpersonalization/TransferLearningHelper.kt:757-839 | one loop iteration: the samples become a permutation of themselves and the new calls are exactly EpochCalls of that permutation (one padded train call per batch, in order); one error per failed step; loss and update only when no step failed |
| TransferLearning.Helper.TrainEpoch | lite/examples/model_personalization/android/app/src/main/java/org/tensorflow/lite/examples/modelpersonalization/TransferLearningHelper.kt:764-823 | shuffle, then the new calls are exactly EpochCalls of the new sample order; a failing step does not stop the remaining batches |
| TransferLearning.Helper.RunEpoch | lite/examples/model_personalization/android/app/src/main/java/org/tensorflow/lite/examples/modelpersonalization/TransferLearningHelper.kt:766-823 | the new calls are exactly BatchCalls of the batches: call k is the padded train call of batch k; failed iff some step failed; one error per failed step |
| TransferLearning.Helper.TrainStep | lite/examples/model_personalization/android/app/src/main/java/org/tensorflow/lite/examples/modelpersonalization/TransferLearningHelper.kt:773-822 | with an interpreter, exactly one new call, the padded train call of this batch; failed iff it throws, posting one error |
| TransferLearning.Helper.RunEpochs | lite/examples/model_personalization/android/app/src/main/java/org/tensorflow/lite/examples/modelpersonalization/TransferLearningHelper.kt:757-846 | exactly EpochsRun epochs (the limit, or up to and including the first failing epoch), each on its own permutation of the samples; the new calls are exactly RunCalls of those permutations (each epoch's padded batch calls in order); the samples end as the last permutation; the events are exactly TrainingEvents |
| TransferLearning.Helper.EpochOfRun | lite/examples/model_personalization/android/app/src/main/java/org/tensorflow/lite/examples/modelpersonalization/TransferLearningHelper.kt:757-839 | one iteration: the samples are permuted, the new calls are exactly EpochCalls of the new order, the events so far plus the remaining epochs' events make the whole run's, and the run stops after this epoch iff it failed (EpochsRun) |
| TransferLearning.Helper.StartTraining | lite/examples/model_personalization/android/app/src/main/java/org/tensorflow/lite/examples/modelpersonalization/TransferLearningHelper.kt:687-749 | WeightsNotReady iff ensureWeightsReady's route is not ready, changing nothing more; when ready, refused iff Validate fails, posting its reason and calling nothing; otherwise TrainedFrom: exactly EpochsRun epochs, the new calls being the padded batch calls of one permutation of the samples per epoch (RunOf), and the events TrainingEvents; without training the samples and executor are unchanged |
| TransferLearning.Helper.ValidateAndTrain | lite/examples/model_personalization/android/app/src/main/java/org/tensorflow/lite/examples/modelpersonalization/TransferLearningHelper.kt:696-749 | refused iff validation fails, changing nothing but that error event; otherwise the executor runs and TrainedFrom holds: calls are only appended, the new ones being the padded batch calls of one permutation of the samples for each of exactly EpochsRun epochs, and the events are TrainingEvents |
| TransferLearning.PaddedTrainCallIsTrainCall | lite/examples/model_personalization/android/app/src/main/java/org/tensorflow/lite/examples/modelpersonalization/TransferLearningHelper.kt:773-809 | the padded call of a batch has the train signature's shape, and its row i holds batch member i mod |batch|'s bottleneck and coerced label |
| TransferLearning.BatchCallsAppended | lite/examples/model_personalization/android/app/src/main/java/org/tensorflow/lite/examples/modelpersonalization/TransferLearningHelper.kt:766-823 | appending the calls of a list of batches appends train calls only |
| TransferLearning.BatchCallsExtend | lite/examples/model_personalization/android/app/src/main/java/org/tensorflow/lite/examples/modelpersonalization/TransferLearningHelper.kt:766-823 | the call of batch k follows the calls of the batches before it |
| TransferLearning.EpochCallsTrainOnEverySample | lite/examples/model_personalization/android/app/src/main/java/org/tensorflow/lite/examples/modelpersonalization/TransferLearningHelper.kt:764-823 | an epoch makes NumBatches train calls, and every sample is in the batch of one of them |
| TransferLearning.RunCallsAppend | lite/examples/model_personalization/android/app/src/main/java/org/tensorflow/lite/examples/modelpersonalization/TransferLearningHelper.kt:757-823 | one more epoch appends its EpochCalls to the run's calls |
| TransferLearning.RunCallsAreTrainCalls | lite/examples/model_personalization/android/app/src/main/java/org/tensorflow/lite/examples/modelpersonalization/TransferLearningHelper.kt:757-823 | every call of a run is a train call of the model's shape |
| TransferLearning.RunCallsExtend | lite/examples/model_personalization/android/app/src/main/java/org/tensorflow/lite/examples/modelpersonalization/TransferLearningHelper.kt:757-823 | the calls of one more epoch extend the calls logged so far |
| TransferLearning.ShufflesOfAppend | lite/examples/model_personalization/android/app/src/main/java/org/tensorflow/lite/examples/modelpersonalization/TransferLearningHelper.kt:764 | one more permutation of the samples extends the run's shuffles |
| TransferLearning.BatchableInit | lite/examples/model_personalization/android/app/src/main/java/org/tensorflow/lite/examples/modelpersonalization/TransferLearningHelper.kt:740 | the earlier epochs' shuffles can be cut into batches of b too |
| TransferLearning.RunStarts | lite/examples/model_personalization/android/app/src/main/java/org/tensorflow/lite/examples/modelpersonalization/TransferLearningHelper.kt:752-757 | before the first epoch the run has no shuffles and no calls |
| TransferLearning.EpochRecorded | lite/examples/model_personalization/android/app/src/main/java/org/tensorflow/lite/examples/modelpersonalization/TransferLearningHelper.kt:757-827 | after an epoch, its shuffle is the run's latest and its calls follow the run's calls |
| TransferLearning.TrainCallsAppendedBy | lite/examples/model_personalization/android/app/src/main/java/org/tensorflow/lite/examples/modelpersonalization/TransferLearningHelper.kt:806-810 | appending only train calls keeps the log's prefix and shape invariant |
| TransferLearning.EpochsMakeTrainedRun | lite/examples/model_personalization/android/app/src/main/java/org/tensorflow/lite/examples/modelpersonalization/TransferLearningHelper.kt:740-846 | what the epoch loop leaves, with an interpreter, is a TrainedRun: RunOf the new calls over exactly EpochsRun epochs, and TrainingEvents |
| TransferLearning.Helper.EpochStep | lite/examples/model_personalization/android/app/src/main/java/org/tensorflow/lite/examples/modelpersonalization/TransferLearningHelper.kt:766-823 | one batch of the epoch: the calls grow by that batch's padded call, and failed/processed follow the step |
| TransferLearning.Helper.EpochLoop | lite/examples/model_personalization/android/app/src/main/java/org/tensorflow/lite/examples/modelpersonalization/TransferLearningHelper.kt:757-839 | the while loop: exactly EpochsRun epochs, the calls are the run of the recorded permutations, and all events but the completion are posted |
| TransferLearning.Helper.EpochTurn | lite/examples/model_personalization/android/app/src/main/java/org/tensorflow/lite/examples/modelpersonalization/TransferLearningHelper.kt:757-839 | one loop turn: the epoch's permutation joins the run's shuffles, the calls and events keep the loop invariant, and the epochs left to run drop by one (none after a failure) |
| TransferLearning.Helper.Train | lite/examples/model_personalization/android/app/src/main/java/org/tensorflow/lite/examples/modelpersonalization/TransferLearningHelper.kt:740-846 | the executor task: calls are only appended, the samples end as a permutation, and TrainedFrom holds for the loop with batch size min(n, model batch size): exactly EpochsRun epochs, their padded batch calls and TrainingEvents |
| ModelCatalogue.Sanitize | lite/examples/model_personalization/android/app/src/main/java/org/tensorflow/lite/examples/modelpersonalization/ModelManager.kt:79 | same length; every character in [a-zA-Z0-9_-]; a character is kept iff it is allowed, otherwise replaced by '_' |
| ModelCatalogue.SanitizeFixesSafeNames | lite/examples/model_personalization/android/app/src/main/java/org/tensorflow/lite/examples/modelpersonalization/ModelManager.kt:79 | a name is unchanged iff all its characters are allowed; sanitising twice is sanitising once |
| ModelCatalogue.FileStem | lite/examples/model_personalization/android/app/src/main/java/org/tensorflow/lite/examples/modelpersonalization/ModelManager.kt:80 | the stem "<sanitised>_<timestamp>" has no '/' and no '.' |
| ModelCatalogue.IndentWidth | lite/examples/model_personalization/android/app/src/main/java/org/tensorflow/lite/examples/modelpersonalization/ModelManager.kt:94 | the indent is the leading whitespace, followed by a non-whitespace character or the end |
| ModelCatalogue.MinIndentNoneIffBlank | lite/examples/model_personalization/android/app/src/main/java/org/tensorflow/lite/examples/modelpersonalization/ModelManager.kt:94 | there is no minimal indent iff every line is blank |
| ModelCatalogue.MinIndentIsLeast | lite/examples/model_personalization/android/app/src/main/java/org/tensorflow/lite/examples/modelpersonalization/ModelManager.kt:94 | the minimal indent is the indent of a non-blank line and no more than any non-blank line's |
| ModelCatalogue.MinIndentOfUniform | lite/examples/model_personalization/android/app/src/main/java/org/tensorflow/lite/examples/modelpersonalization/ModelManager.kt:94 | when all non-blank lines share one indent that is the minimal indent |
| ModelCatalogue.TrimIndent | lite/examples/model_personalization/android/app/src/main/java/org/tensorflow/lite/examples/modelpersonalization/ModelManager.kt:94 | `trimIndent()` splits with `lines()` and joins with '\n', so no '\r' is left in its result |
| ModelCatalogue.Indented | lite/examples/model_personalization/android/app/src/main/java/org/tensorflow/lite/examples/modelpersonalization/ModelManager.kt:89-93 | each record line of the raw string is prefixed by the 16-space source indent |
| ModelCatalogue.InfoLinesAreFields | lite/examples/model_personalization/android/app/src/main/java/org/tensorflow/lite/examples/modelpersonalization/ModelManager.kt:89-93 | the five record lines are "key=value" lines free of '\n' and '\r' |
| ModelCatalogue.TemplateSplits | lite/examples/model_personalization/android/app/src/main/java/org/tensorflow/lite/examples/modelpersonalization/ModelManager.kt:88-94 | `lines()` of the raw string gives back its lines |
| ModelCatalogue.TemplateIndent | lite/examples/model_personalization/android/app/src/main/java/org/tensorflow/lite/examples/modelpersonalization/ModelManager.kt:88-94 | the raw string's minimal indent is 16 |
| ModelCatalogue.IndentedField | lite/examples/model_personalization/android/app/src/main/java/org/tensorflow/lite/examples/modelpersonalization/ModelManager.kt:89 | an indented record line is not blank and has indent 16 |
| ModelCatalogue.TemplateKept | lite/examples/model_personalization/android/app/src/main/java/org/tensorflow/lite/examples/modelpersonalization/ModelManager.kt:94 | `trimIndent` drops the blank first and last lines and keeps the record lines |
| ModelCatalogue.TrimIndentOfTemplate | lite/examples/model_personalization/android/app/src/main/java/org/tensorflow/lite/examples/modelpersonalization/ModelManager.kt:88-94 | `trimIndent` of the raw string is the record lines joined by '\n', for names and class names free of '\n' and '\r' |
| ModelCatalogue.InfoContentIsLines | lite/examples/model_personalization/android/app/src/main/java/org/tensorflow/lite/examples/modelpersonalization/ModelManager.kt:88-95 | the written info file is the five lines name, accuracy, classNames, numSamples, timestamp joined by '\n', for names and class names free of '\n' and '\r' |
| ModelCatalogue.InfoMapKeys | lite/examples/model_personalization/android/app/src/main/java/org/tensorflow/lite/examples/modelpersonalization/ModelManager.kt:223-232 | a key is in the parsed map iff some line sets it (has an '=' with that key before it) |
| ModelCatalogue.InfoMapHasSetKey | lite/examples/model_personalization/android/app/src/main/java/org/tensorflow/lite/examples/modelpersonalization/ModelManager.kt:225-229 | any line that sets a key puts it in the map |
| ModelCatalogue.InfoMapLastWins | lite/examples/model_personalization/android/app/src/main/java/org/tensorflow/lite/examples/modelpersonalization/ModelManager.kt:225-229 | a key's value is the value on the last line that sets it |
| ModelCatalogue.InfoMapSkipsLine | lite/examples/model_personalization/android/app/src/main/java/org/tensorflow/lite/examples/modelpersonalization/ModelManager.kt:226-227 | a line that does not set a key leaves that key's entry alone |
| ModelCatalogue.EntryOf | lite/examples/model_personalization/android/app/src/main/java/org/tensorflow/lite/examples/modelpersonalization/ModelManager.kt:226 | "key=value" with no '=' in key splits at the first '=' into key and the whole value (value may hold '=') |
| ModelCatalogue.InfoMapAddField | lite/examples/model_personalization/android/app/src/main/java/org/tensorflow/lite/examples/modelpersonalization/ModelManager.kt:228 | a final "key=value" line sets key to value |
| ModelCatalogue.InfoMapOfRecord | lite/examples/model_personalization/android/app/src/main/java/org/tensorflow/lite/examples/modelpersonalization/ModelManager.kt:223-232 | the written lines parse to exactly the five fields |
| ModelCatalogue.ModelManager.ParseInfoFile | lite/examples/model_personalization/android/app/src/main/java/org/tensorflow/lite/examples/modelpersonalization/ModelManager.kt:223-232 | the loop over `readLines()` builds exactly the map InfoMap gives for the file's lines |
| ModelCatalogue.RecordParsesBack | lite/examples/model_personalization/android/app/src/main/java/org/tensorflow/lite/examples/modelpersonalization/ModelManager.kt:223-232 | the written info file, read back with `readLines()` and parsed, is exactly the five fields when no name or class name has a '\n' or '\r' |
| ModelCatalogue.TrimAll | lite/examples/model_personalization/android/app/src/main/java/org/tensorflow/lite/examples/modelpersonalization/ModelManager.kt:144 | `map { it.trim() }` keeps the length and trims each part |
| ModelCatalogue.DecodeInfo | lite/examples/model_personalization/android/app/src/main/java/org/tensorflow/lite/examples/modelpersonalization/ModelManager.kt:140-148 | file name and path are kept; a missing name falls back to the file name; a missing accuracy, count or timestamp is 0 and missing class names are empty; a present list has one name per ','-piece; the count is a 32-bit and the timestamp a 64-bit value |
| ModelCatalogue.DecodeEmptyRecord | lite/examples/model_personalization/android/app/src/main/java/org/tensorflow/lite/examples/modelpersonalization/ModelManager.kt:140-148 | an empty info file has no lines and decodes to the defaults: name = fileName, accuracy 0, no class names, 0 samples, timestamp 0 |
| ModelCatalogue.IntFieldOf | lite/examples/model_personalization/android/app/src/main/java/org/tensorflow/lite/examples/modelpersonalization/ModelManager.kt:143 | a field written from a number decodes to it |
| ModelCatalogue.Int32FieldOf | lite/examples/model_personalization/android/app/src/main/java/org/tensorflow/lite/examples/modelpersonalization/ModelManager.kt:145 | `toIntOrNull` decodes a written 32-bit count |
| ModelCatalogue.Int64FieldOf | lite/examples/model_personalization/android/app/src/main/java/org/tensorflow/lite/examples/modelpersonalization/ModelManager.kt:146 | `toLongOrNull` decodes a written 64-bit timestamp |
| ModelCatalogue.DecodeFields | lite/examples/model_personalization/android/app/src/main/java/org/tensorflow/lite/examples/modelpersonalization/ModelManager.kt:140-148 | a map holding the five written fields decodes to the record with the class names read back |
| ModelCatalogue.ClassNamesRoundTrip | lite/examples/model_personalization/android/app/src/main/java/org/tensorflow/lite/examples/modelpersonalization/ModelManager.kt:144 | class names without ',' and without surrounding whitespace come back from split(",") + trim (an empty list comes back as [""]) |
| ModelCatalogue.InfoRoundTrip | lite/examples/model_personalization/android/app/src/main/java/org/tensorflow/lite/examples/modelpersonalization/ModelManager.kt:140-148 | writing a record and reading it back gives name, accuracy, class names, numSamples and timestamp back, for names and class names free of '\n' and '\r' |
| ModelCatalogue.ModelPathIsListed | lite/examples/model_personalization/android/app/src/main/java/org/tensorflow/lite/examples/modelpersonalization/ModelManager.kt:131-134 | the model file of a stem is listed as a `.model` file whose `nameWithoutExtension` is the stem |
| ModelCatalogue.IsModelFile | lite/examples/model_personalization/android/app/src/main/java/org/tensorflow/lite/examples/modelpersonalization/ModelManager.kt:131-132 | a file is listed iff it is `trained_models/<stem>.model` for a stem without '/' |
| ModelCatalogue.InsertByTimestamp | lite/examples/model_personalization/android/app/src/main/java/org/tensorflow/lite/examples/modelpersonalization/ModelManager.kt:155 | inserting keeps every model and adds the new one (multisets) |
| ModelCatalogue.InsertKeepsOrder | lite/examples/model_personalization/android/app/src/main/java/org/tensorflow/lite/examples/modelpersonalization/ModelManager.kt:155 | inserting into a timestamp-descending list keeps it descending |
| ModelCatalogue.SortByTimestampDesc | lite/examples/model_personalization/android/app/src/main/java/org/tensorflow/lite/examples/modelpersonalization/ModelManager.kt:155 | `sortedByDescending { timestamp }` is descending and a permutation |
| ModelCatalogue.ModelNamePieces | lite/examples/model_personalization/android/app/src/main/java/org/tensorflow/lite/examples/modelpersonalization/ModelManager.kt:209 | one piece per class name: exactly the first min(8, length) characters of the name with its spaces removed |
| ModelCatalogue.GenerateModelName | lite/examples/model_personalization/android/app/src/main/java/org/tensorflow/lite/examples/modelpersonalization/ModelManager.kt:207-213 | "model_" + exactly the first min(30, length) characters of the pieces joined by "_" + "_" + accuracy + "pct", with no space anywhere |
| ModelCatalogue.SavedModelIsListed | lite/examples/model_personalization/android/app/src/main/java/org/tensorflow/lite/examples/modelpersonalization/ModelManager.kt:70-103 | a saved model is afterwards in the catalogue with its own name, accuracy, class names, samples and timestamp, for names and class names free of '\n' and '\r' |
| ModelCatalogue.ModelManager.constructor | lite/examples/model_personalization/android/app/src/main/java/org/tensorflow/lite/examples/modelpersonalization/ModelManager.kt:29-34 | the file map and the delete oracle take the given values |
| ModelCatalogue.ModelManager.SaveModel | lite/examples/model_personalization/android/app/src/main/java/org/tensorflow/lite/examples/modelpersonalization/ModelManager.kt:70-103 | saved iff the source file exists; then exactly the model copy and the info file are written; otherwise nothing changes |
| ModelCatalogue.ModelManager.LoadModel | lite/examples/model_personalization/android/app/src/main/java/org/tensorflow/lite/examples/modelpersonalization/ModelManager.kt:108-123 | loaded iff `<stem>.model` exists; then the target holds its contents; otherwise nothing changes |
| ModelCatalogue.ModelManager.DeleteModel | lite/examples/model_personalization/android/app/src/main/java/org/tensorflow/lite/examples/modelpersonalization/ModelManager.kt:161-176 | true iff every existing file of the pair was deleted; absent files do not count; only deleted files leave the map |
| ModelCatalogue.ModelManager.ClearAllModels | lite/examples/model_personalization/android/app/src/main/java/org/tensorflow/lite/examples/modelpersonalization/ModelManager.kt:192-202 | returns true; the files are exactly Cleared: every file under trained_models/ that File.delete() accepts is removed and nothing else changes |
| ModelCatalogue.Cleared | lite/examples/model_personalization/android/app/src/main/java/org/tensorflow/lite/examples/modelpersonalization/ModelManager.kt:193 | `deleteRecursively`: a file stays iff it is outside trained_models/ or cannot be deleted, and keeps its contents |
| ModelCatalogue.ModelManager.GetAllModels | lite/examples/model_personalization/android/app/src/main/java/org/tensorflow/lite/examples/modelpersonalization/ModelManager.kt:128-156 | exactly the catalogue entries (a `.model` with its `.info`), each once, sorted by timestamp descending |
| ModelCatalogue.ModelManager.CollectModels | lite/examples/model_personalization/android/app/src/main/java/org/tensorflow/lite/examples/modelpersonalization/ModelManager.kt:131-153 | the loop collects exactly the entries of stems with both files, with distinct paths |
| ModelCatalogue.VisitKeepsCollected | lite/examples/model_personalization/android/app/src/main/java/org/tensorflow/lite/examples/modelpersonalization/ModelManager.kt:133-152 | visiting one model file adds its entry iff its info file exists, keeping the loop invariant |
| ModelCatalogue.CollectedAllEntries | lite/examples/model_personalization/android/app/src/main/java/org/tensorflow/lite/examples/modelpersonalization/ModelManager.kt:131-153 | after every model file is visited the list holds exactly the catalogue entries |
| ModelCatalogue.DistinctOnce | lite/examples/model_personalization/android/app/src/main/java/org/tensorflow/lite/examples/modelpersonalization/ModelManager.kt:131-155 | entries with distinct paths each occur once |
| ModelCatalogue.ClearedCatalogueIsEmpty | lite/examples/model_personalization/android/app/src/main/java/org/tensorflow/lite/examples/modelpersonalization/ModelManager.kt:192-196 | after clearing, every model still listed is one File.delete() refused; when every file under trained_models/ can be deleted the catalogue is empty; a deletable checkpoint under trained_models/ is gone |
| ModelCatalogue.ModelFileInDir | lite/examples/model_personalization/android/app/src/main/java/org/tensorflow/lite/examples/modelpersonalization/ModelManager.kt:131-132 | every listed model file lies under trained_models/ |
| Preferences.AllClassesAreClassIds | lite/examples/model_personalization/android/app/src/main/java/org/tensorflow/lite/examples/modelpersonalization/PreferencesHelper.kt:112-116 | the default active set is the five class ids |
| Preferences.ClassNameKey | lite/examples/model_personalization/android/app/src/main/java/org/tensorflow/lite/examples/modelpersonalization/PreferencesHelper.kt:72-82 | a name key exists exactly for the ids "1".."5" |
| Preferences.ClassNamedKey | lite/examples/model_personalization/android/app/src/main/java/org/tensorflow/lite/examples/modelpersonalization/PreferencesHelper.kt:211-221 | a named-flag key exists exactly for the ids "1".."5" |
| Preferences.KeysAreDistinct | lite/examples/model_personalization/android/app/src/main/java/org/tensorflow/lite/examples/modelpersonalization/PreferencesHelper.kt:42-52 | different ids use different name keys and different flag keys |
| Preferences.ClassNameIn | lite/examples/model_personalization/android/app/src/main/java/org/tensorflow/lite/examples/modelpersonalization/PreferencesHelper.kt:84-94 | unknown id: the id itself; known id: the stored name, or "Class N" when none is stored |
| Preferences.ClassNamedIn | lite/examples/model_personalization/android/app/src/main/java/org/tensorflow/lite/examples/modelpersonalization/PreferencesHelper.kt:182-209 | false for unknown ids; true when the flag is stored; otherwise true iff the current name is non-blank and not the default |
| Preferences.WithClassName | lite/examples/model_personalization/android/app/src/main/java/org/tensorflow/lite/examples/modelpersonalization/PreferencesHelper.kt:72-82 | saving a name for an unknown id writes nothing |
| Preferences.WithNamedFlag | lite/examples/model_personalization/android/app/src/main/java/org/tensorflow/lite/examples/modelpersonalization/PreferencesHelper.kt:211-221 | setting the flag of an unknown id writes nothing |
| Preferences.ClassNameAfterSave | lite/examples/model_personalization/android/app/src/main/java/org/tensorflow/lite/examples/modelpersonalization/PreferencesHelper.kt:72-94 | after saving, the id reads the new name and every other id reads as before |
| Preferences.NamedFlagAfterSet | lite/examples/model_personalization/android/app/src/main/java/org/tensorflow/lite/examples/modelpersonalization/PreferencesHelper.kt:211-221 | after setting, the id's flag is the new value and every other flag is as before |
| Preferences.ActiveAfterSet | lite/examples/model_personalization/android/app/src/main/java/org/tensorflow/lite/examples/modelpersonalization/PreferencesHelper.kt:122-130 | after setClassActive(id, b) the id is active iff b, every other id as before |
| Preferences.NamedWriteBackIsStable | lite/examples/model_personalization/android/app/src/main/java/org/tensorflow/lite/examples/modelpersonalization/PreferencesHelper.kt:203-208 | the write-back does not change the answer, stores the flag when the answer is true, and a second write-back changes nothing |
| Preferences.NamedAfterRename | lite/examples/model_personalization/android/app/src/main/java/org/tensorflow/lite/examples/modelpersonalization/PreferencesHelper.kt:194-208 | a class renamed to a non-blank, non-default name counts as named; a stored flag stays named |
| Preferences.EmptyStoreDefaults | lite/examples/model_personalization/android/app/src/main/java/org/tensorflow/lite/examples/modelpersonalization/PreferencesHelper.kt:84-116 | an empty store gives default names, all five ids active and no class named |
| Preferences.ActiveInOrder | lite/examples/model_personalization/android/app/src/main/java/org/tensorflow/lite/examples/modelpersonalization/PreferencesHelper.kt:162 | the filtered list is no longer than CLASS_IDS |
| Preferences.ActiveInOrderIsFilter | lite/examples/model_personalization/android/app/src/main/java/org/tensorflow/lite/examples/modelpersonalization/PreferencesHelper.kt:162 | `CLASS_IDS.filter { it in active }`: holds exactly the active ids, in CLASS_IDS order |
| Preferences.TruncateToInt | lite/examples/model_personalization/android/app/src/main/java/org/tensorflow/lite/examples/modelpersonalization/PreferencesHelper.kt:166 | Float.toInt(): in the 32-bit range, and the floor for values in [0, MAX_INT) |
| Preferences.ModelNameShape | lite/examples/model_personalization/android/app/src/main/java/org/tensorflow/lite/examples/modelpersonalization/PreferencesHelper.kt:160-170 | "model_" + the active classes' names in CLASS_IDS order, each exactly the first min(8, length) characters of the name without spaces, joined by "_", + "_" + (accuracy·100).toInt() + "pct_" + timestamp, with no space in the names part |
| Preferences.PreferencesHelper.constructor | lite/examples/model_personalization/android/app/src/main/java/org/tensorflow/lite/examples/modelpersonalization/PreferencesHelper.kt:31-36 | the five typed stores take the given values |
| Preferences.PreferencesHelper.SaveClassName | lite/examples/model_personalization/android/app/src/main/java/org/tensorflow/lite/examples/modelpersonalization/PreferencesHelper.kt:72-82 | only the id's name key changes, and only for a known id; it then reads back the new name |
| Preferences.PreferencesHelper.GetClassName | lite/examples/model_personalization/android/app/src/main/java/org/tensorflow/lite/examples/modelpersonalization/PreferencesHelper.kt:84-94 | an unknown id reads as itself; a known id as its stored name, or "Class N" when none is stored |
| Preferences.PreferencesHelper.GetAllClassNames | lite/examples/model_personalization/android/app/src/main/java/org/tensorflow/lite/examples/modelpersonalization/PreferencesHelper.kt:96-104 | a map over exactly the five ids, each to its getClassName |
| Preferences.PreferencesHelper.SaveActiveClasses | lite/examples/model_personalization/android/app/src/main/java/org/tensorflow/lite/examples/modelpersonalization/PreferencesHelper.kt:108-110 | the active set is stored and read back |
| Preferences.PreferencesHelper.GetActiveClasses | lite/examples/model_personalization/android/app/src/main/java/org/tensorflow/lite/examples/modelpersonalization/PreferencesHelper.kt:112-116 | the stored set, or all five ids before one is stored |
| Preferences.PreferencesHelper.IsClassActive | lite/examples/model_personalization/android/app/src/main/java/org/tensorflow/lite/examples/modelpersonalization/PreferencesHelper.kt:118-120 | membership in the active set; before one is stored, exactly the five ids are active |
| Preferences.PreferencesHelper.SetClassActive | lite/examples/model_personalization/android/app/src/main/java/org/tensorflow/lite/examples/modelpersonalization/PreferencesHelper.kt:122-130 | read-modify-write of the active set; the id's membership becomes the given value |
| Preferences.PreferencesHelper.SaveCurrentModelName | lite/examples/model_personalization/android/app/src/main/java/org/tensorflow/lite/examples/modelpersonalization/PreferencesHelper.kt:134-136 | the current model name is stored |
| Preferences.PreferencesHelper.GetCurrentModelName | lite/examples/model_personalization/android/app/src/main/java/org/tensorflow/lite/examples/modelpersonalization/PreferencesHelper.kt:138-140 | null iff no name is stored, otherwise the stored name |
| Preferences.PreferencesHelper.SaveModelAccuracy | lite/examples/model_personalization/android/app/src/main/java/org/tensorflow/lite/examples/modelpersonalization/PreferencesHelper.kt:142-144 | the accuracy is stored |
| Preferences.PreferencesHelper.GetModelAccuracy | lite/examples/model_personalization/android/app/src/main/java/org/tensorflow/lite/examples/modelpersonalization/PreferencesHelper.kt:146-148 | the stored accuracy, 0 before one is stored |
| Preferences.PreferencesHelper.SaveLastTrainedTime | lite/examples/model_personalization/android/app/src/main/java/org/tensorflow/lite/examples/modelpersonalization/PreferencesHelper.kt:150-152 | the time is stored |
| Preferences.PreferencesHelper.GetLastTrainedTime | lite/examples/model_personalization/android/app/src/main/java/org/tensorflow/lite/examples/modelpersonalization/PreferencesHelper.kt:154-156 | the stored time, 0 before one is stored |
| Preferences.PreferencesHelper.GenerateModelName | lite/examples/model_personalization/android/app/src/main/java/org/tensorflow/lite/examples/modelpersonalization/PreferencesHelper.kt:160-170 | "model_" + the active classes' name pieces joined by "_", free of spaces, + "_" + the accuracy percent + "pct_" + the timestamp |
| Preferences.PreferencesHelper.ClearAll | lite/examples/model_personalization/android/app/src/main/java/org/tensorflow/lite/examples/modelpersonalization/PreferencesHelper.kt:174-176 | every store is empty and each getter returns its default |
| Preferences.PreferencesHelper.GetNumberOfActiveClasses | lite/examples/model_personalization/android/app/src/main/java/org/tensorflow/lite/examples/modelpersonalization/PreferencesHelper.kt:178-180 | the size of the active set, five before one is stored |
| Preferences.PreferencesHelper.IsClassNamed | lite/examples/model_personalization/android/app/src/main/java/org/tensorflow/lite/examples/modelpersonalization/PreferencesHelper.kt:182-209 | returns ClassNamedIn of the old flags and writes the flag back exactly when it inferred true |
| Preferences.PreferencesHelper.SetClassNamed | lite/examples/model_personalization/android/app/src/main/java/org/tensorflow/lite/examples/modelpersonalization/PreferencesHelper.kt:211-221 | only the id's flag changes, and only for a known id |
| PersonalizationViewModel.MainViewModel.constructor | lite/examples/model_personalization/android/app/src/main/java/org/tensorflow/lite/examples/modelpersonalization/MainViewModel.kt:24-54 | PREPARE, capture mode on, no samples, progress and epoch 0, and class names loaded from the preferences |
| PersonalizationViewModel.MainViewModel.ConfigModel | lite/examples/model_personalization/android/app/src/main/java/org/tensorflow/lite/examples/modelpersonalization/MainViewModel.kt:56-58 | the thread count is set |
| PersonalizationViewModel.MainViewModel.SetTrainingState | lite/examples/model_personalization/android/app/src/main/java/org/tensorflow/lite/examples/modelpersonalization/MainViewModel.kt:62-64 | the training state is set |
| PersonalizationViewModel.MainViewModel.SetCaptureMode | lite/examples/model_personalization/android/app/src/main/java/org/tensorflow/lite/examples/modelpersonalization/MainViewModel.kt:68-70 | the capture mode is set |
| PersonalizationViewModel.MainViewModel.IncreaseNumberOfSample | lite/examples/model_personalization/android/app/src/main/java/org/tensorflow/lite/examples/modelpersonalization/MainViewModel.kt:74-83 | count[k] becomes old + 1 (absent as 0), every other key unchanged |
| PersonalizationViewModel.MainViewModel.SetClassName | lite/examples/model_personalization/android/app/src/main/java/org/tensorflow/lite/examples/modelpersonalization/MainViewModel.kt:88-99 | the name is saved (known ids), the flag set when asked, classNames[id] = name with other entries unchanged, and the view stays in step with the store |
| PersonalizationViewModel.MainViewModel.GetClassName | lite/examples/model_personalization/android/app/src/main/java/org/tensorflow/lite/examples/modelpersonalization/MainViewModel.kt:101-103 | the preferences' class name: the id itself when unknown, else the stored name or "Class N" |
| PersonalizationViewModel.MainViewModel.IsClassNamed | lite/examples/model_personalization/android/app/src/main/java/org/tensorflow/lite/examples/modelpersonalization/MainViewModel.kt:105 | delegates to the preferences' isClassNamed, with its write-back |
| PersonalizationViewModel.MainViewModel.MarkClassNamed | lite/examples/model_personalization/android/app/src/main/java/org/tensorflow/lite/examples/modelpersonalization/MainViewModel.kt:107-109 | delegates to setClassNamed |
| PersonalizationViewModel.MainViewModel.ResetSamples | lite/examples/model_personalization/android/app/src/main/java/org/tensorflow/lite/examples/modelpersonalization/MainViewModel.kt:111-113 | the sample map is empty and every count reads 0 |
| PersonalizationViewModel.MainViewModel.SaveCurrentModelName | lite/examples/model_personalization/android/app/src/main/java/org/tensorflow/lite/examples/modelpersonalization/MainViewModel.kt:115-117 | the name is stored and read back |
| PersonalizationViewModel.MainViewModel.SaveModelAccuracy | lite/examples/model_personalization/android/app/src/main/java/org/tensorflow/lite/examples/modelpersonalization/MainViewModel.kt:121-123 | the accuracy is stored and read back |
| PersonalizationViewModel.MainViewModel.SetClassActive | lite/examples/model_personalization/android/app/src/main/java/org/tensorflow/lite/examples/modelpersonalization/MainViewModel.kt:133-135 | the id's membership in the active set becomes the given value |
| PersonalizationViewModel.MainViewModel.SetTrainingProgress | lite/examples/model_personalization/android/app/src/main/java/org/tensorflow/lite/examples/modelpersonalization/MainViewModel.kt:138-140 | progress is set |
| PersonalizationViewModel.MainViewModel.SetTrainingEpoch | lite/examples/model_personalization/android/app/src/main/java/org/tensorflow/lite/examples/modelpersonalization/MainViewModel.kt:142-144 | the epoch is set |
| ClassListViewModel.MainViewModel.constructor | lite/examples/model_personalization_default/android/app/src/main/java/org/tensorflow/lite/examples/modelpersonalization/MainViewModel.kt:7-28 | PREPARE, capture mode on, no samples, no classes, no selection, next id 0 |
| ClassListViewModel.MainViewModel.ConfigModel | lite/examples/model_personalization_default/android/app/src/main/java/org/tensorflow/lite/examples/modelpersonalization/MainViewModel.kt:30-32 | the thread count is set |
| ClassListViewModel.MainViewModel.SetTrainingState | lite/examples/model_personalization_default/android/app/src/main/java/org/tensorflow/lite/examples/modelpersonalization/MainViewModel.kt:36-38 | the training state is set |
| ClassListViewModel.MainViewModel.SetCaptureMode | lite/examples/model_personalization_default/android/app/src/main/java/org/tensorflow/lite/examples/modelpersonalization/MainViewModel.kt:42-44 | the capture mode is set |
| ClassListViewModel.MainViewModel.AddClass | lite/examples/model_personalization_default/android/app/src/main/java/org/tensorflow/lite/examples/modelpersonalization/MainViewModel.kt:70-95 | added iff fewer than 5 classes and no name equal ignoring case; a rejection changes nothing; the new class is appended with the next id, 0 samples, selected (and the selection) iff the list was empty; the next id increments |
| ClassListViewModel.MainViewModel.DeleteClass | lite/examples/model_personalization_default/android/app/src/main/java/org/tensorflow/lite/examples/modelpersonalization/MainViewModel.kt:97-121 | deleted iff an equal class is in the list; the first equal one is removed with its label's count; a deleted selection passes to the first remaining class (marked selected) or to none |
| ClassListViewModel.MainViewModel.RemoveClassAt | lite/examples/model_personalization_default/android/app/src/main/java/org/tensorflow/lite/examples/modelpersonalization/MainViewModel.kt:99-119 | removing one index, dropping the label's count and reselecting when the selection went |
| ClassListViewModel.MainViewModel.RemoveAt | lite/examples/model_personalization_default/android/app/src/main/java/org/tensorflow/lite/examples/modelpersonalization/MainViewModel.kt:101-106 | the class at the index and its label's count are removed |
| ClassListViewModel.MainViewModel.ReselectAfterDelete | lite/examples/model_personalization_default/android/app/src/main/java/org/tensorflow/lite/examples/modelpersonalization/MainViewModel.kt:108-118 | when the selected class had the deleted id, the first remaining class is marked selected and becomes the selection (none when the list is empty); otherwise the selection stays |
| ClassListViewModel.MainViewModel.SelectFirst | lite/examples/model_personalization_default/android/app/src/main/java/org/tensorflow/lite/examples/modelpersonalization/MainViewModel.kt:109-117 | the first class, if any, is marked selected and becomes the selection |
| ClassListViewModel.MainViewModel.RenameClass | lite/examples/model_personalization_default/android/app/src/main/java/org/tensorflow/lite/examples/modelpersonalization/MainViewModel.kt:123-142 | renamed iff no other id has the name ignoring case; only that class's name changes, and the selection follows it |
| ClassListViewModel.MainViewModel.SelectClass | lite/examples/model_personalization_default/android/app/src/main/java/org/tensorflow/lite/examples/modelpersonalization/MainViewModel.kt:144-151 | every class is copied with isSelected iff its id is the argument's; the selection is a selected copy, or none when no class is selected |
| ClassListViewModel.MainViewModel.GetSelectedClassName | lite/examples/model_personalization_default/android/app/src/main/java/org/tensorflow/lite/examples/modelpersonalization/MainViewModel.kt:153-155 | null iff no class is selected, otherwise the selected class's name |
| ClassListViewModel.MainViewModel.IncreaseNumberOfSample | lite/examples/model_personalization_default/android/app/src/main/java/org/tensorflow/lite/examples/modelpersonalization/MainViewModel.kt:48-65 | count[label] = old + 1; each class whose label matches is a copy with one more sample, the others are unchanged |
| ClassListViewModel.MainViewModel.CountSampleInClasses | lite/examples/model_personalization_default/android/app/src/main/java/org/tensorflow/lite/examples/modelpersonalization/MainViewModel.kt:56-64 | the class list's counted copy |
| ClassListViewModel.RemovalKeepsValid | lite/examples/model_personalization_default/android/app/src/main/java/org/tensorflow/lite/examples/modelpersonalization/MainViewModel.kt:101 | removing a class keeps ids below the next id, ids distinct and names distinct ignoring case |
| ClassListViewModel.AppendKeepsValid | lite/examples/model_personalization_default/android/app/src/main/java/org/tensorflow/lite/examples/modelpersonalization/MainViewModel.kt:78-88 | appending a class with the next id and a name no listed class has, ignoring case, to fewer than five classes keeps the list valid once the next id moves past it |
| ClassListViewModel.SameIdsAndNamesKeepValid | lite/examples/model_personalization_default/android/app/src/main/java/org/tensorflow/lite/examples/modelpersonalization/MainViewModel.kt:146-148 | copies with the same ids and names keep the list valid |
| ClassListViewModel.LabelsDistinctBelowFive | lite/examples/model_personalization_default/android/app/src/main/java/org/tensorflow/lite/examples/modelpersonalization/MainViewModel.kt:79-80 | while every id is below 5 the classes' labels are distinct |
| ClassListViewModel.CountedCopies | lite/examples/model_personalization_default/android/app/src/main/java/org/tensorflow/lite/examples/modelpersonalization/MainViewModel.kt:57-63 | the mapped list keeps ids and names, counts one more sample in the matching classes and keeps the rest |
| ClassListViewModel.IndexOfSame | lite/examples/model_personalization_default/android/app/src/main/java/org/tensorflow/lite/examples/modelpersonalization/MainViewModel.kt:101 | the index of the first class equal to the argument, or the length when there is none |
| Predictions.MaxOf | lite/examples/model_personalization_default/android/app/src/main/java/org/tensorflow/lite/examples/modelpersonalization/fragments/CameraFragment.kt:625 | `maxOfOrNull`: the score of some category and no less than any |
| Predictions.DisplayName | lite/examples/model_personalization_default/android/app/src/main/java/org/tensorflow/lite/examples/modelpersonalization/fragments/CameraFragment.kt:629-630 | the label itself, or the name of a class whose label it is |
| Predictions.DisplayNameWithoutMatch | lite/examples/model_personalization_default/android/app/src/main/java/org/tensorflow/lite/examples/modelpersonalization/fragments/CameraFragment.kt:629-630 | no class with the label: the label itself |
| Predictions.DisplayNameIsFirstMatch | lite/examples/model_personalization_default/android/app/src/main/java/org/tensorflow/lite/examples/modelpersonalization/fragments/CameraFragment.kt:629-630 | the name of the first class whose label matches |
| Predictions.Items | lite/examples/model_personalization_default/android/app/src/main/java/org/tensorflow/lite/examples/modelpersonalization/fragments/CameraFragment.kt:627-636 | one item per category, in order, built by ItemFor |
| Predictions.InsertByConfidence | lite/examples/model_personalization_default/android/app/src/main/java/org/tensorflow/lite/examples/modelpersonalization/fragments/CameraFragment.kt:637 | inserting keeps every item and adds the new one |
| Predictions.InsertKeepsSorted | lite/examples/model_personalization_default/android/app/src/main/java/org/tensorflow/lite/examples/modelpersonalization/fragments/CameraFragment.kt:637 | inserting into a confidence-descending list keeps it descending |
| Predictions.SortByConfidenceDesc | lite/examples/model_personalization_default/android/app/src/main/java/org/tensorflow/lite/examples/modelpersonalization/fragments/CameraFragment.kt:637 | `sortedByDescending { confidence }` is a permutation of its input and descending |
| Predictions.ConvertToPredictionItems | lite/examples/model_personalization_default/android/app/src/main/java/org/tensorflow/lite/examples/modelpersonalization/fragments/CameraFragment.kt:621-638 | same length as the categories, a permutation of the mapped items, sorted by confidence descending |
| Predictions.PredictionItemsMeaning | lite/examples/model_personalization_default/android/app/src/main/java/org/tensorflow/lite/examples/modelpersonalization/fragments/CameraFragment.kt:625-636 | each item comes from a category: its display name and score; it is the top prediction iff its confidence is the maximum score |
| Predictions.TopPredictionExists | lite/examples/model_personalization_default/android/app/src/main/java/org/tensorflow/lite/examples/modelpersonalization/fragments/CameraFragment.kt:625-637 | no categories: no items; otherwise at least one top prediction |
| CameraSizes.Wrap32 | lite/examples/posenet/android/app/src/main/java/org/tensorflow/lite/examples/posenet/CameraConnectionFragment.kt:781 | 32-bit wrap-around: congruent mod 2^32 and the identity on the 32-bit range |
| CameraSizes.TruncDiv | lite/examples/posenet/android/app/src/main/java/org/tensorflow/lite/examples/posenet/CameraConnectionFragment.kt:781 | Java's `/`: rounds toward zero (magnitude bounds and sign) |
| CameraSizes.MulDivExact | lite/examples/posenet/android/app/src/main/java/org/tensorflow/lite/examples/posenet/CameraConnectionFragment.kt:781 | without overflow, `width * h / w` is exact integer division |
| CameraSizes.DivOverflow | lite/examples/posenet/android/app/src/main/java/org/tensorflow/lite/examples/posenet/CameraConnectionFragment.kt:781 | MIN_VALUE / -1 wraps to MIN_VALUE |
| CameraSizes.AreaDifferenceFitsInLong | lite/examples/posenet/android/app/src/main/java/org/tensorflow/lite/examples/posenet/CameraConnectionFragment.kt:688-691 | the 64-bit areas and their difference never overflow |
| CameraSizes.CompareSizesByAreaIsOrder | lite/examples/posenet/android/app/src/main/java/org/tensorflow/lite/examples/posenet/CameraConnectionFragment.kt:686-693 | the comparator is the sign of the area difference: in {-1, 0, 1}, negative iff smaller, zero iff equal, antisymmetric and transitive |
| CameraSizes.CompareSizesByArea | lite/examples/posenet/android/app/src/main/java/org/tensorflow/lite/examples/posenet/CameraConnectionFragment.kt:686-693 | in {-1, 0, 1}: negative, zero or positive exactly as the first area is smaller than, equal to or larger than the second |
| CameraSizes.FirstExtremeIsUnique | lite/examples/posenet/android/app/src/main/java/org/tensorflow/lite/examples/posenet/CameraConnectionFragment.kt:794-796 | the first minimum (maximum) by area is unique |
| CameraSizes.MinByArea | lite/examples/posenet/android/app/src/main/java/org/tensorflow/lite/examples/posenet/CameraConnectionFragment.kt:794 | `Collections.min`: the first element of least area |
| CameraSizes.MaxByArea | lite/examples/posenet/android/app/src/main/java/org/tensorflow/lite/examples/posenet/CameraConnectionFragment.kt:796 | `Collections.max`: the first element of greatest area |
| CameraSizes.CandidatesAreTheFittingOptions | lite/examples/posenet/android/app/src/main/java/org/tensorflow/lite/examples/posenet/CameraConnectionFragment.kt:779-789 | bigEnough and notBigEnough hold exactly the choices within the maxima with height == width·h/w, split by covering the texture |
| CameraSizes.BigEnoughCandidates | lite/examples/posenet/android/app/src/main/java/org/tensorflow/lite/examples/posenet/CameraConnectionFragment.kt:779-787 | no more candidates than choices; each is one of the choices, fits the maxima with the aspect ratio and covers the texture view |
| CameraSizes.CollectCandidates | lite/examples/posenet/android/app/src/main/java/org/tensorflow/lite/examples/posenet/CameraConnectionFragment.kt:774-790 | the loop collects exactly BigEnoughCandidates and NotBigEnoughCandidates of the choices, in their order |
| CameraSizes.ChooseOptimalSize | lite/examples/posenet/android/app/src/main/java/org/tensorflow/lite/examples/posenet/CameraConnectionFragment.kt:764-801 | an element of the choices: the first least big-enough candidate, else the first largest other candidate, else choices[0] |
| CameraSizes.AreDimensionsSwapped | lite/examples/posenet/android/app/src/main/java/org/tensorflow/lite/examples/posenet/CameraConnectionFragment.kt:363-381 | rotation 0/180: swapped iff sensor 90/270; rotation 90/270: swapped iff sensor 0/180; any other rotation: not swapped |

## Left out

- TFLite interpreter internals are left out: signature metadata, tensor shapes and dtypes, `prepareOutputBuffers`, `logSignatureMetadata`. A run is an oracle outcome. A signature's declared inputs and the model's shapes are given as data (`Runtime`).
- The reflective zero-input run (`invokeZeroInputSignature` and its helpers) is one oracle call, `ReflectiveRun`, because it is Java reflection over a foreign library.
- `classify`, `processInputImage`, `TensorLabel`/`Category` construction and all bitmap, YUV and camera handling are left out. They are library calls and pixel work.
- Floating point is left out: loss accumulation and averaging, and the `accuracy * 100` conversion. The one Float result the model keeps is the epoch progress: `TransferLearning.Progress` reproduces the single-precision shortfall at epochs 53 and 59 for `maxEpochs` = 100.
- Scores and confidences are `real`. The accuracy stored in a model record is an integer, so the `accuracy=` line shows its integer text, not Kotlin's `Float.toString`.
- `Preferences.TruncateToInt` states Float.toInt only for values in [0, 2^31 - 1); NaN and rounding of real floats are not modelled.
- `Common.Lower`: only ASCII letters are case-folded. Kotlin's `lowercase()` also folds other Unicode letters.
- `Common.EqualsIgnoreCase`: folds case for ASCII letters only, through `Common.Lower`. Kotlin's `equals(other, ignoreCase = true)` also folds other Unicode letters. This affects the duplicate-name checks of `ClassListViewModel.MainViewModel.AddClass` and `RenameClass`: with a class "Äpfel" listed, adding "äpfel" is refused by the source but accepted by the model.
- `Common.ContainsIgnoreCase`: ASCII case folding only, as above. Kotlin's `contains(other, ignoreCase = true)` compares character by character, folding Unicode. This affects `Signatures.NamesCheckpoint`: an input named "chec\u212Apoint" (with the Kelvin sign, whose lowercase is 'k') names the checkpoint in the source but not in the model.
- `Common.Take`: counts characters as Unicode scalar values. Kotlin's `take(8)` and `take(30)` count UTF-16 code units, so for a class name outside the Basic Multilingual Plane (an emoji, say) the source keeps fewer characters and can split a surrogate pair.
- `Common.ParseInteger`: accepts only the ASCII digits '0'..'9'. Kotlin's `toIntOrNull` and `toLongOrNull` also accept other Unicode decimal digits, so a hand-edited `.info` file with such digits decodes to 0 in the model but to a number in the source.
- `System.currentTimeMillis` is a timestamp parameter. `getDisplayName` and `getSizeInKB` (date formatting and file sizes) are not part of this model.
- File-system failures are not modelled. The one exception is `File.delete()`, whose result is the `canDelete` oracle. `copyTo`, `writeText` and `mkdirs` always succeed when their source exists.
- `ModelCatalogue.ModelManager.ClearAllModels` always returns true, as the source does unless an I/O exception occurs. Files that `File.delete()` refuses stay, as with `deleteRecursively`; `mkdirs` is not modelled.
- SharedPreferences persistence and `apply()` asynchrony are not modelled. LiveData `postValue` delivery is synchronous in the model.
- The training `lock`, the single-thread executor, `shutdownNow` and `Handler.post` delivery are not modelled. A `cancelAfter` epoch bound stands in for a concurrent `pauseTraining`/`close` stopping the loop at an epoch boundary.
- `TransferLearning.Helper.StartTraining` and `TransferLearning.Helper.RunEpochs`: the cancellation point is abstract. They do not model a cancellation that lands inside an epoch.
- The shuffle is any permutation of the samples (`IsShuffleOf`). The source's random source is not modelled.
- `CameraSizes.ChooseOptimalSize` requires non-empty choices and a non-zero aspect width. With no choices the source throws (index out of range at `choices[0]`). With aspect width 0 the source divides by zero only when some option is within maxWidth and maxHeight; when none is, it returns `choices[0]`, which the model does not cover.
- `Predictions.ConvertToPredictionItems` and `ModelCatalogue.ModelManager.GetAllModels` state sorted order and permutation, but not the stability of Kotlin's sort for equal keys.
- `PersonalizationViewModel.MainViewModel.constructor` takes the `PreferencesHelper` as a parameter instead of building it from an Android `Context`.
- `ClassListViewModel.LabelsDistinctBelowFive`: class labels are distinct only while fewer than six ids have been handed out. A class with id 5 or more gets label "1" and shares its sample counter with class 0.
- `TransferLearningHelper.getCheckpointFilePath`, `ModelManager.modelExists` and `ModelManager.getTotalStorageUsed` are one-line file queries and are not modelled.
- `helper.py`, `MainActivity`, the adapters, the rest of the fragments and the posenet camera pipeline are not part of this model.
