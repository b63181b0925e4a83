/** The personalization app's MainViewModel: training state, capture mode, the per-class
    sample counters and the class names shown on screen, the latter kept in step with the
    preference store. LiveData values are fields, and a posted value is taken as
    delivered. */
module PersonalizationViewModel {
  import opened Common
  import opened TrainingData
  import opened Preferences

  datatype TrainingState = Prepare | Training | Pause

  class MainViewModel {
    const prefs: PreferencesHelper
    var numThreads: Option<int>
    var trainingState: TrainingState
    var captureMode: bool
    var numberOfSamples: map<string, int>
    var classNames: map<string, string>
    var trainingProgress: int
    var trainingEpoch: int

    /** The on-screen names agree with the store for every class id. */
    ghost predicate Synced()
      reads this, prefs
    {
      forall id :: id in ClassIds ==> id in classNames && classNames[id] == prefs.GetClassName(id)
    }

    /** The names are loaded from the store; no samples, no progress, capture mode on. */
    constructor (prefs: PreferencesHelper)
      ensures this.prefs == prefs
      ensures numThreads.None? && trainingState == Prepare && captureMode
      ensures numberOfSamples == map[] && trainingProgress == 0 && trainingEpoch == 0
      ensures classNames == prefs.GetAllClassNames()
      ensures Synced()
    {
      this.prefs := prefs;
      numThreads := None;
      trainingState := Prepare;
      captureMode := true;
      numberOfSamples := map[];
      classNames := prefs.GetAllClassNames();
      trainingProgress := 0;
      trainingEpoch := 0;
    }

    /** configModel: the thread count is set; getNumThreads reads the field. */
    method ConfigModel(threads: int)
      modifies this`numThreads
      ensures numThreads == Some(threads)
    {
      numThreads := Some(threads);
    }

    /** setTrainingState; getTrainingState reads the field. */
    method SetTrainingState(state: TrainingState)
      modifies this`trainingState
      ensures trainingState == state
    {
      trainingState := state;
    }

    /** setCaptureMode; getCaptureMode reads the field. */
    method SetCaptureMode(isCapture: bool)
      modifies this`captureMode
      ensures captureMode == isCapture
    {
      captureMode := isCapture;
    }

    /** increaseNumberOfSample: one more in the class's counter, which starts at zero. */
    method IncreaseNumberOfSample(className: string)
      modifies this`numberOfSamples
      ensures numberOfSamples == Incremented(old(numberOfSamples), className)
      ensures CountOf(numberOfSamples, className) == CountOf(old(numberOfSamples), className) + 1
    {
      var currentNumber := if className in numberOfSamples then numberOfSamples[className] else 0;
      numberOfSamples := numberOfSamples[className := currentNumber + 1];
      IncrementedCounts(old(numberOfSamples), className, className);
    }

    /** setClassName: the name is saved, the class is marked named unless asked not to,
        and the on-screen map gets the name under the id, known id or not. */
    method SetClassName(classId: string, newName: string, markNamed: bool := true)
      modifies prefs`strings, prefs`booleans, this`classNames
      ensures prefs.strings == WithClassName(old(prefs.strings), classId, newName)
      ensures prefs.booleans == (if markNamed then WithNamedFlag(old(prefs.booleans), classId, true) else old(prefs.booleans))
      ensures classNames == old(classNames)[classId := newName]
      ensures old(Synced()) ==> Synced()
      ensures classId in ClassIds ==> prefs.GetClassName(classId) == newName
      ensures markNamed && classId in ClassIds ==> ClassNamedIn(prefs.booleans, prefs.strings, classId)
    {
      prefs.SaveClassName(classId, newName);
      if markNamed {
        prefs.SetClassNamed(classId, true);
      }
      classNames := classNames[classId := newName];
      forall id | id in ClassIds && id != classId
        ensures prefs.GetClassName(id) == old(prefs.GetClassName(id))
      {
        ClassNameAfterSave(old(prefs.strings), classId, newName, id);
      }
      if markNamed && classId in ClassIds {
        NamedFlagAfterSet(old(prefs.booleans), classId, true, classId);
      }
    }

    function GetClassName(classId: string): (r: string)
      reads this, prefs
      ensures classId !in ClassIds ==> r == classId
      ensures classId in ClassIds ==>
        r == if ClassNameKey(classId).value in prefs.strings then prefs.strings[ClassNameKey(classId).value]
             else DefaultClassName(classId)
    {
      prefs.GetClassName(classId)
    }

    /** isClassNamed, which may store the inferred flag. */
    method IsClassNamed(classId: string) returns (named: bool)
      modifies prefs`booleans
      ensures named == ClassNamedIn(old(prefs.booleans), prefs.strings, classId)
      ensures prefs.booleans == NamedWriteBack(old(prefs.booleans), prefs.strings, classId)
    {
      named := prefs.IsClassNamed(classId);
    }

    /** markClassNamed(classId, named = true). */
    method MarkClassNamed(classId: string, named: bool := true)
      modifies prefs`booleans
      ensures prefs.booleans == WithNamedFlag(old(prefs.booleans), classId, named)
    {
      prefs.SetClassNamed(classId, named);
    }

    /** resetSamples: every counter goes. */
    method ResetSamples()
      modifies this`numberOfSamples
      ensures numberOfSamples == map[]
      ensures forall c :: CountOf(numberOfSamples, c) == 0
    {
      numberOfSamples := map[];
    }

    method SaveCurrentModelName(name: string)
      modifies prefs`strings
      ensures prefs.strings == old(prefs.strings)[CurrentModelNameKey := name]
      ensures prefs.GetCurrentModelName() == Some(name)
    {
      prefs.SaveCurrentModelName(name);
    }

    method SaveModelAccuracy(accuracy: real)
      modifies prefs`floats
      ensures prefs.floats == old(prefs.floats)[LastAccuracyKey := accuracy]
      ensures prefs.GetModelAccuracy() == accuracy
    {
      prefs.SaveModelAccuracy(accuracy);
    }

    /** setClassActive, delegated to the store. */
    method SetClassActive(classId: string, active: bool)
      modifies prefs`stringSets
      ensures prefs.stringSets == WithActive(old(prefs.stringSets), classId, active)
      ensures classId in prefs.GetActiveClasses() <==> active
    {
      prefs.SetClassActive(classId, active);
    }

    method SetTrainingProgress(progress: int)
      modifies this`trainingProgress
      ensures trainingProgress == progress
    {
      trainingProgress := progress;
    }

    method SetTrainingEpoch(epoch: int)
      modifies this`trainingEpoch
      ensures trainingEpoch == epoch
    {
      trainingEpoch := epoch;
    }
  }
}
