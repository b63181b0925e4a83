/** The default app's MainViewModel: the list of user-defined training classes (at most
    five, names unique ignoring case), the selected class, and the per-label sample
    counters. LiveData values are fields, and a posted value is taken as delivered. */
module ClassListViewModel {
  import opened Common
  import opened TrainingData
  import opened TrainingClasses

  const MaxClasses: nat := 5

  datatype TrainingState = Prepare | Training | Pause

  class MainViewModel {
    var numThreads: Option<int>
    var trainingState: TrainingState
    var captureMode: bool
    var numberOfSamples: map<string, int>
    var trainingClasses: seq<TrainingClass>
    var selectedClass: TrainingClass?
    var nextClassId: int

    /** The list invariant the operations keep: at most five classes, ids distinct,
        non-negative and below the next id, names distinct ignoring case. */
    ghost predicate Valid()
      reads this`trainingClasses, this`nextClassId, trainingClasses`name
    {
      ClassesValid(trainingClasses, nextClassId)
    }

    constructor ()
      ensures numThreads.None? && trainingState == Prepare && captureMode
      ensures numberOfSamples == map[] && trainingClasses == [] && selectedClass == null && nextClassId == 0
      ensures Valid()
    {
      numThreads := None;
      trainingState := Prepare;
      captureMode := true;
      numberOfSamples := map[];
      trainingClasses := [];
      selectedClass := null;
      nextClassId := 0;
    }

    /** configModel: the thread count is set; getNumThreads reads the field. */
    method ConfigModel(threads: int)
      modifies this`numThreads
      ensures numThreads == Some(threads)
    {
      numThreads := Some(threads);
    }

    /** setTrainingState; getTrainingState reads the field. */
    method SetTrainingState(state: TrainingState)
      modifies this`trainingState
      ensures trainingState == state
    {
      trainingState := state;
    }

    /** setCaptureMode; getCaptureMode reads the field. */
    method SetCaptureMode(isCapture: bool)
      modifies this`captureMode
      ensures captureMode == isCapture
    {
      captureMode := isCapture;
    }

    /** Some class in the list has this name, ignoring case. */
    predicate NameTaken(name: string)
      reads this, trainingClasses
    {
      exists i :: 0 <= i < |trainingClasses| && EqualsIgnoreCase(trainingClasses[i].name, name)
    }

    /** addClass: refused when five classes exist or the name is taken; otherwise a new
        class with the next id, no samples, selected when it is the first. */
    method AddClass(name: string) returns (added: bool)
      requires Valid()
      modifies this`trainingClasses, this`selectedClass, this`nextClassId
      ensures Valid()
      ensures added <==> |old(trainingClasses)| < MaxClasses && !old(NameTaken(name))
      ensures !added ==>
        (trainingClasses == old(trainingClasses) && selectedClass == old(selectedClass) && nextClassId == old(nextClassId))
      ensures added ==> |trainingClasses| == |old(trainingClasses)| + 1
      ensures added ==>
        var c := trainingClasses[|trainingClasses| - 1];
        && trainingClasses[..|old(trainingClasses)|] == old(trainingClasses)
        && fresh(c) && c.id == old(nextClassId) && c.name == name && c.sampleCount == 0
        && c.isSelected == (old(trainingClasses) == [])
        && nextClassId == old(nextClassId) + 1
        && selectedClass == (if old(trainingClasses) == [] then c else old(selectedClass))
    {
      var currentClasses := trainingClasses;
      if |currentClasses| >= MaxClasses {
        return false;
      }
      if NameTaken(name) {
        return false;
      }
      var newClass := new TrainingClass(nextClassId, name, 0, currentClasses == []);
      AppendKeepsValid(currentClasses, newClass, nextClassId);
      nextClassId := nextClassId + 1;
      trainingClasses := currentClasses + [newClass];
      if newClass.isSelected {
        selectedClass := newClass;
      }
      assert trainingClasses[..|currentClasses|] == currentClasses;
      return true;
    }

    /** deleteClass: remove the first class equal to the argument in all four
        properties; false, with nothing changed, when there is none. The removed label's
        counter goes. When the selected class had the argument's id, the first remaining
        class is marked selected and becomes the selection, or there is none. */
    method DeleteClass(classToDelete: TrainingClass) returns (deleted: bool, ghost removedAt: int)
      requires Valid()
      modifies this`trainingClasses, this`selectedClass, this`numberOfSamples, trainingClasses`isSelected
      ensures Valid()
      ensures deleted <==> old(HasSame(trainingClasses, classToDelete))
      ensures !deleted ==>
        (trainingClasses == old(trainingClasses) && selectedClass == old(selectedClass) && numberOfSamples == old(numberOfSamples))
      ensures deleted ==> old(IsFirstSame(trainingClasses, classToDelete, removedAt))
      ensures deleted ==> trainingClasses == old(trainingClasses)[..removedAt] + old(trainingClasses)[removedAt + 1..]
      ensures deleted ==> numberOfSamples == old(numberOfSamples) - {classToDelete.GetClassLabel()}
      ensures deleted && old(selectedClass) != null && old(selectedClass).id == classToDelete.id ==>
        && selectedClass == (if trainingClasses == [] then null else trainingClasses[0])
        && (trainingClasses != [] ==> trainingClasses[0].isSelected)
      ensures !(deleted && old(selectedClass) != null && old(selectedClass).id == classToDelete.id) ==>
        selectedClass == old(selectedClass)
      ensures forall x :: x in old(trainingClasses) && x != selectedClass ==> x.isSelected == old(x.isSelected)
    {
      var currentClasses := trainingClasses;
      var k := IndexOfSame(currentClasses, classToDelete);
      removedAt := k;
      if k == |currentClasses| {
        return false, removedAt;
      }
      assert IsFirstSame(currentClasses, classToDelete, k);
      RemoveClassAt(k, classToDelete);
      return true, removedAt;
    }

    /** deleteClass once the class is found at k: removal, then reselection when the
        selected class had the deleted class's id. */
    method RemoveClassAt(k: int, classToDelete: TrainingClass)
      requires Valid() && 0 <= k < |trainingClasses|
      modifies this`trainingClasses, this`selectedClass, this`numberOfSamples, trainingClasses`isSelected
      ensures Valid()
      ensures trainingClasses == old(trainingClasses)[..k] + old(trainingClasses)[k + 1..]
      ensures numberOfSamples == old(numberOfSamples) - {classToDelete.GetClassLabel()}
      ensures old(selectedClass) != null && old(selectedClass).id == classToDelete.id ==>
        && selectedClass == (if trainingClasses == [] then null else trainingClasses[0])
        && (trainingClasses != [] ==> trainingClasses[0].isSelected)
      ensures !(old(selectedClass) != null && old(selectedClass).id == classToDelete.id) ==>
        selectedClass == old(selectedClass)
      ensures forall x :: x in old(trainingClasses) && x != selectedClass ==> x.isSelected == old(x.isSelected)
    {
      RemoveAt(k, classToDelete.GetClassLabel());
      ReselectAfterDelete(classToDelete.id);
    }

    /** After a removal, the first remaining class becomes the selection when the selected
        class had the deleted id; otherwise the selection stays. */
    method ReselectAfterDelete(deletedId: int)
      requires Valid()
      modifies this`selectedClass, trainingClasses`isSelected
      ensures Valid()
      ensures old(selectedClass) != null && old(selectedClass).id == deletedId ==>
        && selectedClass == (if trainingClasses == [] then null else trainingClasses[0])
        && (trainingClasses != [] ==> trainingClasses[0].isSelected)
      ensures !(old(selectedClass) != null && old(selectedClass).id == deletedId) ==>
        selectedClass == old(selectedClass)
      ensures forall x :: x in trainingClasses && x != selectedClass ==> x.isSelected == old(x.isSelected)
    {
      if selectedClass != null && selectedClass.id == deletedId {
        SelectFirst();
      }
    }

    /** The removal step of deleteClass: the class at k leaves the list and the label's
        counter goes. */
    method RemoveAt(k: int, classLabel: string)
      requires Valid() && 0 <= k < |trainingClasses|
      modifies this`trainingClasses, this`numberOfSamples
      ensures Valid()
      ensures trainingClasses == old(trainingClasses)[..k] + old(trainingClasses)[k + 1..]
      ensures forall x :: x in trainingClasses ==> x in old(trainingClasses)
      ensures numberOfSamples == old(numberOfSamples) - {classLabel}
    {
      RemovalKeepsValid(trainingClasses, k, nextClassId);
      numberOfSamples := numberOfSamples - {classLabel};
      trainingClasses := trainingClasses[..k] + trainingClasses[k + 1..];
    }

    /** The reselection step of deleteClass: the first class, if any, is marked selected
        and becomes the selection; with no class there is no selection. */
    method SelectFirst()
      requires Valid()
      modifies this`selectedClass, trainingClasses`isSelected
      ensures Valid()
      ensures selectedClass == (if trainingClasses == [] then null else trainingClasses[0])
      ensures trainingClasses != [] ==> trainingClasses[0].isSelected
      ensures forall x :: x in trainingClasses && x != selectedClass ==> x.isSelected == old(x.isSelected)
    {
      if trainingClasses != [] {
        var newSelected := trainingClasses[0];
        newSelected.isSelected := true;
        selectedClass := newSelected;
      } else {
        selectedClass := null;
      }
    }

    /** renameClass: refused when another id already has the name, ignoring case;
        otherwise the object's name changes, and it becomes the selection when the
        selected class has its id. */
    method RenameClass(classToRename: TrainingClass, newName: string) returns (renamed: bool)
      requires Valid()
      modifies classToRename`name, this`selectedClass
      ensures Valid()
      ensures renamed <==>
        !exists i :: 0 <= i < |trainingClasses| && trainingClasses[i].id != classToRename.id && EqualsIgnoreCase(old(trainingClasses[i].name), newName)
      ensures !renamed ==> classToRename.name == old(classToRename.name) && selectedClass == old(selectedClass)
      ensures renamed ==> classToRename.name == newName
      ensures renamed ==>
        selectedClass == (if old(selectedClass) != null && old(selectedClass).id == classToRename.id then classToRename else old(selectedClass))
    {
      var currentClasses := trainingClasses;
      var i := 0;
      while i < |currentClasses|
        invariant 0 <= i <= |currentClasses|
        invariant forall j :: 0 <= j < i ==>
          !(currentClasses[j].id != classToRename.id && EqualsIgnoreCase(currentClasses[j].name, newName))
      {
        if currentClasses[i].id != classToRename.id && EqualsIgnoreCase(currentClasses[i].name, newName) {
          return false;
        }
        i := i + 1;
      }
      classToRename.name := newName;
      if selectedClass != null && selectedClass.id == classToRename.id {
        selectedClass := classToRename;
      }
      return true;
    }

    /** selectClass: every class is replaced by a copy selected exactly when its id is
        the argument's; the selection is the first selected copy, if any. */
    method SelectClass(classToSelect: TrainingClass)
      requires Valid()
      modifies this`trainingClasses, this`selectedClass
      ensures Valid()
      ensures |trainingClasses| == |old(trainingClasses)|
      ensures forall i :: 0 <= i < |trainingClasses| ==>
        var before := old(trainingClasses)[i];
        && fresh(trainingClasses[i]) && trainingClasses[i].id == before.id
        && trainingClasses[i].name == old(before.name) && trainingClasses[i].sampleCount == old(before.sampleCount)
        && trainingClasses[i].isSelected == (before.id == classToSelect.id)
      ensures selectedClass == null <==> forall i :: 0 <= i < |trainingClasses| ==> !trainingClasses[i].isSelected
      ensures selectedClass != null ==>
        exists i :: 0 <= i < |trainingClasses| && selectedClass == trainingClasses[i] && trainingClasses[i].isSelected
    {
      var currentClasses := trainingClasses;
      var updatedClasses: seq<TrainingClass> := [];
      for i := 0 to |currentClasses|
        invariant |updatedClasses| == i
        invariant forall j :: 0 <= j < i ==>
          && fresh(updatedClasses[j]) && updatedClasses[j].id == currentClasses[j].id
          && updatedClasses[j].name == currentClasses[j].name && updatedClasses[j].sampleCount == currentClasses[j].sampleCount
          && updatedClasses[j].isSelected == (currentClasses[j].id == classToSelect.id)
      {
        var it := currentClasses[i];
        var copy := new TrainingClass(it.id, it.name, it.sampleCount, it.id == classToSelect.id);
        updatedClasses := updatedClasses + [copy];
      }
      trainingClasses := updatedClasses;
      selectedClass := null;
      var k := 0;
      while k < |updatedClasses|
        invariant 0 <= k <= |updatedClasses|
        invariant forall j :: 0 <= j < k ==> !updatedClasses[j].isSelected
      {
        if updatedClasses[k].isSelected {
          selectedClass := updatedClasses[k];
          return;
        }
        k := k + 1;
      }
    }

    /** increaseNumberOfSample: one more in the label's counter, and every class with that
        label replaced by a copy with one more sample. */
    method IncreaseNumberOfSample(classLabel: string)
      requires Valid()
      modifies this`numberOfSamples, this`trainingClasses
      ensures Valid()
      ensures numberOfSamples == Incremented(old(numberOfSamples), classLabel)
      ensures |trainingClasses| == |old(trainingClasses)|
      ensures forall i :: 0 <= i < |trainingClasses| ==> IsCountedCopy(old(trainingClasses)[i], trainingClasses[i], classLabel)
      ensures forall i :: 0 <= i < |trainingClasses| && trainingClasses[i] != old(trainingClasses)[i] ==> fresh(trainingClasses[i])
    {
      numberOfSamples := Incremented(numberOfSamples, classLabel);
      CountSampleInClasses(classLabel);
    }

    /** The list half of increaseNumberOfSample: each class with the label replaced by a
        copy with one more sample, the others kept. */
    method CountSampleInClasses(classLabel: string)
      requires Valid()
      modifies this`trainingClasses
      ensures Valid()
      ensures |trainingClasses| == |old(trainingClasses)|
      ensures forall i :: 0 <= i < |trainingClasses| ==> IsCountedCopy(old(trainingClasses)[i], trainingClasses[i], classLabel)
      ensures forall i :: 0 <= i < |trainingClasses| && trainingClasses[i] != old(trainingClasses)[i] ==> fresh(trainingClasses[i])
    {
      ghost var before := trainingClasses;
      var updatedClasses := CountedCopies(trainingClasses, classLabel);
      assert ClassesValid(before, nextClassId);
      SameIdsAndNamesKeepValid(before, updatedClasses, nextClassId);
      trainingClasses := updatedClasses;
    }

    /** getSelectedClassName. */
    function GetSelectedClassName(): (r: Option<string>)
      reads this, selectedClass
      ensures r.Some? <==> selectedClass != null
      ensures r.Some? ==> r.value == selectedClass.name
    {
      if selectedClass == null then None else Some(selectedClass.name)
    }
  }

  /** A class list the view model can hold: at most five classes, ids distinct,
      non-negative and below the next id, names distinct ignoring case. */
  ghost predicate ClassesValid(cs: seq<TrainingClass>, nextId: int)
    reads cs`name
  {
    && |cs| <= MaxClasses
    && 0 <= nextId
    && (forall i :: 0 <= i < |cs| ==> 0 <= cs[i].id < nextId)
    && (forall i, j :: 0 <= i < j < |cs| ==> cs[i].id != cs[j].id)
    && (forall i, j :: 0 <= i < j < |cs| ==> !EqualsIgnoreCase(cs[i].name, cs[j].name))
  }

  /** Appending a class with the next id and a name no listed class has, ignoring case,
      keeps a list of fewer than five valid once the next id moves past it. */
  lemma AppendKeepsValid(cs: seq<TrainingClass>, c: TrainingClass, nextId: int)
    requires ClassesValid(cs, nextId) && |cs| < MaxClasses && c.id == nextId
    requires forall i :: 0 <= i < |cs| ==> !EqualsIgnoreCase(cs[i].name, c.name)
    ensures ClassesValid(cs + [c], nextId + 1)
  {
    var r := cs + [c];
    assert forall i :: 0 <= i < |cs| ==> r[i] == cs[i];
  }

  /** Removing one class keeps the list valid. */
  lemma RemovalKeepsValid(cs: seq<TrainingClass>, k: int, nextId: int)
    requires ClassesValid(cs, nextId) && 0 <= k < |cs|
    ensures ClassesValid(cs[..k] + cs[k + 1..], nextId)
  {
    var r := cs[..k] + cs[k + 1..];
    assert forall i :: 0 <= i < |r| ==> r[i] == cs[if i < k then i else i + 1];
  }

  /** A list with the same ids and names, position by position, is valid too. */
  lemma SameIdsAndNamesKeepValid(a: seq<TrainingClass>, b: seq<TrainingClass>, nextId: int)
    requires ClassesValid(a, nextId) && |a| == |b|
    requires forall j :: 0 <= j < |a| ==> a[j].id == b[j].id && a[j].name == b[j].name
    ensures ClassesValid(b, nextId)
  {
  }

  /** While every id handed out is below five, the classes of a valid list have
      pairwise different labels, so their sample counters are separate. Ids are never
      reused, so after a delete the sixth class added gets id 5 and label "1". */
  lemma {:induction false} LabelsDistinctBelowFive(cs: seq<TrainingClass>, nextId: int)
    requires ClassesValid(cs, nextId) && nextId <= NumClasses
    ensures forall i, j :: 0 <= i < j < |cs| ==> cs[i].GetClassLabel() != cs[j].GetClassLabel()
  {
    forall i, j | 0 <= i < j < |cs|
      ensures cs[i].GetClassLabel() != cs[j].GetClassLabel()
    {
      ClassLabelInjective(cs[i].id, cs[j].id);
    }
  }

  /** Some class in the list equals c in all four properties. */
  ghost predicate HasSame(cs: seq<TrainingClass>, c: TrainingClass)
    reads cs, c
  {
    exists i :: 0 <= i < |cs| && cs[i].SameAs(c)
  }

  /** k is the first position whose class equals c in all four properties. */
  ghost predicate IsFirstSame(cs: seq<TrainingClass>, c: TrainingClass, k: int)
    reads cs, c
  {
    && 0 <= k < |cs|
    && cs[k].SameAs(c)
    && (forall i :: 0 <= i < k ==> !cs[i].SameAs(c))
  }

  /** after stands for before once a sample of the label is counted: a copy with one more
      sample when before has the label, before itself otherwise. */
  ghost predicate IsCountedCopy(before: TrainingClass, after: TrainingClass, classLabel: string)
    reads before, after
  {
    if before.GetClassLabel() == classLabel then
      && after.id == before.id && after.name == before.name
      && after.sampleCount == before.sampleCount + 1 && after.isSelected == before.isSelected
    else after == before
  }

  /** The list mapping of increaseNumberOfSample: a class with the label is replaced by a
      copy with one more sample; every other class is kept as it is. */
  method CountedCopies(cs: seq<TrainingClass>, classLabel: string) returns (updated: seq<TrainingClass>)
    ensures |updated| == |cs|
    ensures forall j :: 0 <= j < |cs| ==> updated[j].id == cs[j].id && updated[j].name == cs[j].name
    ensures forall j :: 0 <= j < |cs| ==> IsCountedCopy(cs[j], updated[j], classLabel)
    ensures forall j :: 0 <= j < |cs| && updated[j] != cs[j] ==> fresh(updated[j])
  {
    updated := [];
    for i := 0 to |cs|
      invariant |updated| == i
      invariant forall j :: 0 <= j < i ==> updated[j].id == cs[j].id && updated[j].name == cs[j].name
      invariant forall j :: 0 <= j < i ==> IsCountedCopy(cs[j], updated[j], classLabel)
      invariant forall j :: 0 <= j < i && updated[j] != cs[j] ==> fresh(updated[j])
    {
      var it := cs[i];
      if it.GetClassLabel() == classLabel {
        var copy := new TrainingClass(it.id, it.name, it.sampleCount + 1, it.isSelected);
        updated := updated + [copy];
      } else {
        updated := updated + [it];
      }
    }
  }

  /** The first index whose class equals the given one in all four properties, or the
      length when there is none. */
  method IndexOfSame(classes: seq<TrainingClass>, c: TrainingClass) returns (k: int)
    ensures 0 <= k <= |classes|
    ensures forall i :: 0 <= i < k ==> !classes[i].SameAs(c)
    ensures k < |classes| ==> classes[k].SameAs(c)
  {
    k := 0;
    while k < |classes| && !classes[k].SameAs(c)
      invariant 0 <= k <= |classes|
      invariant forall i :: 0 <= i < k ==> !classes[i].SameAs(c)
    {
      k := k + 1;
    }
  }
}
