/** The names of the model's signatures and the rule by which TransferLearningHelper picks
    the signature input that receives the checkpoint path (addCheckpointInputIfRequired). */
module Signatures {
  import opened Common

  const InitializeKey: string := "initialize"
  const SaveKey: string := "save"
  const RestoreKey: string := "restore"
  const LoadKey: string := "load"
  const TrainKey: string := "train"
  const InferKey: string := "infer"
  const DefaultCheckpointInputKey: string := "checkpoint_path"

  /** One declared input of a signature, as the interpreter reports it: its name and
      whether its tensor has the STRING data type. */
  datatype SignatureInput = SignatureInput(name: string, isString: bool)

  /** The value placed in a signature's input map: the checkpoint path encoded as a
      one-element string tensor, a preprocessed camera image, or a batch of rows. */
  datatype InputValue = CheckpointPath(path: string) | Image | Rows(rows: seq<seq<real>>)

  /** The first-choice test: the name is "checkpoint_path" or mentions "checkpoint",
      ignoring case. */
  predicate NamesCheckpoint(name: string)
  {
    EqualsIgnoreCase(name, DefaultCheckpointInputKey) || ContainsIgnoreCase(name, "checkpoint")
  }

  /** The equality test adds nothing: a name equal to "checkpoint_path" ignoring case
      already contains "checkpoint". */
  lemma NamesCheckpointIsContains(name: string)
    ensures NamesCheckpoint(name) <==> ContainsIgnoreCase(name, "checkpoint")
  {
    if EqualsIgnoreCase(name, DefaultCheckpointInputKey) {
      var l := Lower(name);
      assert Lower("checkpoint") == "checkpoint";
      assert l == "checkpoint_path";
      assert OccursAt(l, "checkpoint", 0);
    }
  }

  /** inputNames.firstOrNull { NamesCheckpoint(it) }, as an index. */
  function FirstCheckpointInput(inputs: seq<SignatureInput>): (r: Option<nat>)
    ensures r.Some? ==> r.value < |inputs|
  {
    if inputs == [] then None
    else if NamesCheckpoint(inputs[0].name) then Some(0)
    else
      match FirstCheckpointInput(inputs[1..])
      case None => None
      case Some(k) => Some(k + 1)
  }

  /** FirstCheckpointInput finds the first input naming a checkpoint, and finds none
      exactly when no input names one. */
  lemma {:induction false} FirstCheckpointInputIsFirst(inputs: seq<SignatureInput>)
    ensures var r := FirstCheckpointInput(inputs);
      (r.Some? ==>
         r.value < |inputs| && NamesCheckpoint(inputs[r.value].name)
         && forall j :: 0 <= j < r.value ==> !NamesCheckpoint(inputs[j].name))
      && (r.None? <==> forall j :: 0 <= j < |inputs| ==> !NamesCheckpoint(inputs[j].name))
  {
    if inputs != [] && !NamesCheckpoint(inputs[0].name) {
      FirstCheckpointInputIsFirst(inputs[1..]);
      assert forall j :: 1 <= j < |inputs| ==> inputs[j] == inputs[1..][j - 1];
    }
  }

  /** inputNames.firstOrNull { its tensor is STRING-typed }, as an index. */
  function FirstStringInput(inputs: seq<SignatureInput>): (r: Option<nat>)
    ensures r.Some? ==> r.value < |inputs|
  {
    if inputs == [] then None
    else if inputs[0].isString then Some(0)
    else
      match FirstStringInput(inputs[1..])
      case None => None
      case Some(k) => Some(k + 1)
  }

  /** FirstStringInput finds the first STRING input, and finds none exactly when no
      input is one. */
  lemma {:induction false} FirstStringInputIsFirst(inputs: seq<SignatureInput>)
    ensures var r := FirstStringInput(inputs);
      (r.Some? ==>
         r.value < |inputs| && inputs[r.value].isString
         && forall j :: 0 <= j < r.value ==> !inputs[j].isString)
      && (r.None? <==> forall j :: 0 <= j < |inputs| ==> !inputs[j].isString)
  {
    if inputs != [] && !inputs[0].isString {
      FirstStringInputIsFirst(inputs[1..]);
      assert forall j :: 1 <= j < |inputs| ==> inputs[j] == inputs[1..][j - 1];
    }
  }

  /** The input that receives the checkpoint path: the first input naming a checkpoint,
      else the first STRING input, else "checkpoint_path" for `initialize` only. */
  function ResolveCheckpointInput(signatureKey: string, inputs: seq<SignatureInput>): (r: Option<string>)
    ensures r.None? <==>
      signatureKey != InitializeKey
      && forall j :: 0 <= j < |inputs| ==> !NamesCheckpoint(inputs[j].name) && !inputs[j].isString
    ensures r.Some? ==>
      (exists i :: 0 <= i < |inputs| && inputs[i].name == r.value && (NamesCheckpoint(inputs[i].name) || inputs[i].isString))
      || (signatureKey == InitializeKey && r.value == DefaultCheckpointInputKey)
  {
    FirstCheckpointInputIsFirst(inputs);
    FirstStringInputIsFirst(inputs);
    match FirstCheckpointInput(inputs)
    case Some(i) => Some(inputs[i].name)
    case None =>
      match FirstStringInput(inputs)
      case Some(i) => Some(inputs[i].name)
      case None => if signatureKey == InitializeKey then Some(DefaultCheckpointInputKey) else None
  }

  /** When some input names a checkpoint, the first such input is chosen. */
  lemma ResolvePrefersCheckpointName(signatureKey: string, inputs: seq<SignatureInput>, i: nat)
    requires i < |inputs| && NamesCheckpoint(inputs[i].name)
    ensures exists k ::
              && 0 <= k <= i && NamesCheckpoint(inputs[k].name)
              && ResolveCheckpointInput(signatureKey, inputs) == Some(inputs[k].name)
              && forall j :: 0 <= j < k ==> !NamesCheckpoint(inputs[j].name)
  {
    FirstCheckpointInputIsFirst(inputs);
    var k := FirstCheckpointInput(inputs).value;
    assert k <= i;
  }

  /** When no input names a checkpoint but one is STRING-typed, the first STRING input
      is chosen. */
  lemma ResolveFallsBackToString(signatureKey: string, inputs: seq<SignatureInput>, i: nat)
    requires forall j :: 0 <= j < |inputs| ==> !NamesCheckpoint(inputs[j].name)
    requires i < |inputs| && inputs[i].isString
    ensures exists k ::
              && 0 <= k <= i && inputs[k].isString
              && ResolveCheckpointInput(signatureKey, inputs) == Some(inputs[k].name)
              && forall j :: 0 <= j < k ==> !inputs[j].isString
  {
    FirstCheckpointInputIsFirst(inputs);
    FirstStringInputIsFirst(inputs);
    var k := FirstStringInput(inputs).value;
    assert k <= i;
  }

  /** When no input names a checkpoint or is STRING-typed, only `initialize` gets an
      input, the default "checkpoint_path". */
  lemma ResolveDefaultsForInitialize(signatureKey: string, inputs: seq<SignatureInput>)
    requires forall j :: 0 <= j < |inputs| ==> !NamesCheckpoint(inputs[j].name) && !inputs[j].isString
    ensures ResolveCheckpointInput(signatureKey, inputs)
      == if signatureKey == InitializeKey then Some(DefaultCheckpointInputKey) else None
  {
    FirstCheckpointInputIsFirst(inputs);
    FirstStringInputIsFirst(inputs);
  }

  /** addCheckpointInputIfRequired: supply the checkpoint path under the resolved input
      name unless the map already has that name; nothing else in the map changes. */
  function AddCheckpointInputIfRequired(signatureKey: string, inputs: seq<SignatureInput>,
                                        given: map<string, InputValue>, checkpointPath: string): (r: map<string, InputValue>)
    ensures forall k :: k in given ==> k in r && r[k] == given[k]
    ensures forall k :: k in r && k !in given ==>
      ResolveCheckpointInput(signatureKey, inputs) == Some(k) && r[k] == CheckpointPath(checkpointPath)
  {
    match ResolveCheckpointInput(signatureKey, inputs)
    case Some(key) => if key in given then given else given[key := CheckpointPath(checkpointPath)]
    case None => given
  }

  /** The given entries survive unchanged, the only entry added is the path under the
      resolved name, and the resolved name is always present afterwards. */
  lemma AddCheckpointInputKeepsGiven(signatureKey: string, inputs: seq<SignatureInput>,
                                     given: map<string, InputValue>, checkpointPath: string)
    ensures var r := AddCheckpointInputIfRequired(signatureKey, inputs, given, checkpointPath);
      var key := ResolveCheckpointInput(signatureKey, inputs);
      (forall k :: k in given ==> k in r && r[k] == given[k])
      && (forall k :: k in r && k !in given ==> key == Some(k) && r[k] == CheckpointPath(checkpointPath))
      && (key.Some? ==> key.value in r)
      && (key.None? ==> r == given)
  {
  }

  /** Every caller starts from an empty map, so the map holds at most the checkpoint
      entry, and for `initialize` it always holds one. */
  lemma CheckpointInputsFromEmpty(signatureKey: string, inputs: seq<SignatureInput>, checkpointPath: string)
    ensures var r := AddCheckpointInputIfRequired(signatureKey, inputs, map[], checkpointPath);
      |r| <= 1
      && (signatureKey == InitializeKey ==> |r| == 1)
      && forall k :: k in r ==> r[k] == CheckpointPath(checkpointPath)
  {
    var r := AddCheckpointInputIfRequired(signatureKey, inputs, map[], checkpointPath);
    match ResolveCheckpointInput(signatureKey, inputs)
    case Some(key) => assert r == map[key := CheckpointPath(checkpointPath)];
    case None =>
      assert r == map[];
      assert signatureKey != InitializeKey;
  }

  /** A signature whose second input is "Checkpoint" and whose first is a STRING tensor
      named otherwise still receives the path under "Checkpoint": names win over types. */
  lemma NameBeatsType(signatureKey: string)
    ensures ResolveCheckpointInput(signatureKey, [SignatureInput("path", true), SignatureInput("Checkpoint", false)])
      == Some("Checkpoint")
  {
    var inputs := [SignatureInput("path", true), SignatureInput("Checkpoint", false)];
    assert Lower("Checkpoint") == "checkpoint";
    assert Lower("checkpoint") == "checkpoint";
    assert OccursAt(Lower("Checkpoint"), Lower("checkpoint"), 0);
    assert NamesCheckpoint(inputs[1].name);
    assert !NamesCheckpoint(inputs[0].name) by {
      assert |Lower("path")| < |Lower("checkpoint")|;
      assert Lower("path") != Lower(DefaultCheckpointInputKey);
    }
  }
}
