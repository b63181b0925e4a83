/** TrainingClass: one user-defined class of the default app. Its name, sample count and
    selection flag are updated in place by the view model; its id is fixed. */
module TrainingClasses {
  import opened Common
  import opened TrainingData

  /** getClassLabel: ids 0..4 name the five class ids of the helper, in order; every
      other id falls back to the first. */
  function ClassLabel(id: int): string
  {
    match id
    case 0 => "1"
    case 1 => "2"
    case 2 => "3"
    case 3 => "4"
    case 4 => "5"
    case _ => "1"
  }

  /** The label is always one of the five class ids; ids 0..4 give the id at that
      position, and the helper's class index reads the id back. */
  lemma ClassLabelTable(id: int)
    ensures ClassLabel(id) in ClassIds
    ensures 0 <= id < NumClasses ==> ClassLabel(id) == ClassIds[id] && ClassIndexOf(ClassLabel(id)) == Some(id)
    ensures !(0 <= id < NumClasses) ==> ClassLabel(id) == ClassIds[0]
  {
  }

  /** On 0..4 the mapping is one-to-one. */
  lemma ClassLabelInjective(a: int, b: int)
    requires 0 <= a < NumClasses && 0 <= b < NumClasses
    ensures ClassLabel(a) == ClassLabel(b) <==> a == b
  {
    ClassLabelTable(a);
    ClassLabelTable(b);
  }

  class TrainingClass {
    const id: int
    var name: string
    var sampleCount: int
    var isSelected: bool

    /** TrainingClass(id, name, sampleCount = 0, isSelected = false). */
    constructor (id: int, name: string, sampleCount: int := 0, isSelected: bool := false)
      ensures this.id == id && this.name == name && this.sampleCount == sampleCount && this.isSelected == isSelected
    {
      this.id := id;
      this.name := name;
      this.sampleCount := sampleCount;
      this.isSelected := isSelected;
    }

    /** getClassLabel: always a class id the helper accepts, and for ids 0..4 one that
        its class index reads back as the id. */
    function GetClassLabel(): (r: string)
      ensures ClassIndexOf(r).Some?
      ensures 0 <= id < NumClasses ==> ClassIndexOf(r) == Some(id)
    {
      ClassLabelTable(id);
      ClassLabel(id)
    }

    /** The data-class equality: all four properties agree. */
    predicate SameAs(other: TrainingClass)
      reads this, other
    {
      id == other.id && name == other.name && sampleCount == other.sampleCount && isSelected == other.isSelected
    }
  }

  /** A fresh TrainingClass starts with no samples and unselected. */
  method NewTrainingClassDefaults(id: int, name: string) returns (c: TrainingClass)
    ensures fresh(c) && c.id == id && c.name == name && c.sampleCount == 0 && !c.isSelected
  {
    c := new TrainingClass(id, name);
  }
}
