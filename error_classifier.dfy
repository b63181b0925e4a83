/** The exception test that decides whether loadBottleneck may recover: an error counts as
    "uninitialized variable" when some message along its cause chain, lowercased, mentions
    read_variable or uninitialized. */
module ErrorClassifier {
  import opened Common

  /** A thrown exception: its (nullable) message and its (nullable) cause. */
  datatype Throwable = Throwable(message: Option<string>, cause: Option<Throwable>)

  /** The exception followed by its causes, outermost first. */
  function CauseChain(e: Throwable): (r: seq<Throwable>)
    ensures |r| >= 1 && r[0] == e
    ensures e.cause.None? ==> r == [e]
    ensures e.cause.Some? ==> r == [e] + CauseChain(e.cause.value)
  {
    match e.cause
    case None => [e]
    case Some(c) => [e] + CauseChain(c)
  }

  predicate MarksUninitialized(message: string)
  {
    Contains(Lower(message), "read_variable") || Contains(Lower(message), "uninitialized")
  }

  predicate HasMarkedMessage(e: Throwable)
  {
    e.message.Some? && MarksUninitialized(e.message.value)
  }

  /** isUninitializedReadVariableError: walk the cause chain until a message matches. */
  function IsUninitializedReadVariableError(error: Option<Throwable>): (r: bool)
    ensures error.None? ==> !r
    ensures error.Some? && HasMarkedMessage(error.value) ==> r
  {
    match error
    case None => false
    case Some(e) => HasMarkedMessage(e) || IsUninitializedReadVariableError(e.cause)
  }

  /** A positive answer is witnessed by a marked message somewhere in the chain. */
  lemma {:induction false} ClassifierFindsWitness(e: Throwable) returns (i: nat)
    requires IsUninitializedReadVariableError(Some(e))
    ensures i < |CauseChain(e)| && HasMarkedMessage(CauseChain(e)[i])
  {
    if HasMarkedMessage(e) {
      i := 0;
    } else {
      var c := e.cause.value;
      var j := ClassifierFindsWitness(c);
      i := j + 1;
      assert CauseChain(e)[i] == CauseChain(c)[j];
    }
  }

  /** A marked message anywhere in the chain makes the answer positive. */
  lemma {:induction false} ClassifierSeesWitness(e: Throwable, i: nat)
    requires i < |CauseChain(e)| && HasMarkedMessage(CauseChain(e)[i])
    ensures IsUninitializedReadVariableError(Some(e))
  {
    if i > 0 {
      var c := e.cause.value;
      assert CauseChain(e)[i] == CauseChain(c)[i - 1];
      ClassifierSeesWitness(c, i - 1);
    }
  }

  /** The test holds exactly when some exception of the cause chain carries a marked
      message. */
  lemma ClassifierMatchesChain(e: Throwable)
    ensures IsUninitializedReadVariableError(Some(e)) <==>
      exists i :: 0 <= i < |CauseChain(e)| && HasMarkedMessage(CauseChain(e)[i])
  {
    if IsUninitializedReadVariableError(Some(e)) {
      var i := ClassifierFindsWitness(e);
    }
    if exists i :: 0 <= i < |CauseChain(e)| && HasMarkedMessage(CauseChain(e)[i]) {
      var i :| 0 <= i < |CauseChain(e)| && HasMarkedMessage(CauseChain(e)[i]);
      ClassifierSeesWitness(e, i);
    }
  }

  /** Wrapping an exception keeps its classification when the wrapper's own message is
      absent or unmarked. */
  lemma WrappingKeepsClassification(message: Option<string>, inner: Throwable)
    requires message.None? || !MarksUninitialized(message.value)
    ensures IsUninitializedReadVariableError(Some(Throwable(message, Some(inner))))
      == IsUninitializedReadVariableError(Some(inner))
  {
  }

  /** A wrapper without a message around an exception reporting an uninitialized
      variable in upper case is recognised: the test folds case and looks through causes. */
  lemma RecognisesWrappedUpperCase()
    ensures IsUninitializedReadVariableError(Some(Throwable(None, Some(Throwable(Some("UNINITIALIZED"), None)))))
  {
    assert Lower("UNINITIALIZED") == "uninitialized";
    assert OccursAt(Lower("UNINITIALIZED"), "uninitialized", 0);
  }
}
