/** PreferencesHelper: a typed view over the app's key/value preference store. The store
    is one map per value type; the helper's keys never share a name across types. Each
    getter is a function of the maps, and each setter replaces the map it writes. */
module Preferences {
  import opened Common
  import opened TrainingData

  const ActiveClassesKey: string := "active_classes"
  const CurrentModelNameKey: string := "current_model_name"
  const LastAccuracyKey: string := "last_accuracy"
  const LastTrainedTimeKey: string := "last_trained_time"

  /** The five class ids, the default active set. */
  const AllClasses: set<string> := {"1", "2", "3", "4", "5"}

  lemma AllClassesAreClassIds()
    ensures forall id :: id in AllClasses <==> id in ClassIds
    ensures |AllClasses| == NumClasses
  {
  }

  /** The key holding a class's name, for the five known ids only. */
  function ClassNameKey(classId: string): (r: Option<string>)
    ensures r.Some? <==> classId in ClassIds
  {
    if classId in ClassIds then Some("class_name_" + classId) else None
  }

  /** The key holding a class's "named" flag, for the five known ids only. */
  function ClassNamedKey(classId: string): (r: Option<string>)
    ensures r.Some? <==> classId in ClassIds
  {
    if classId in ClassIds then Some("class_named_" + classId) else None
  }

  /** "Class 1" .. "Class 5". */
  function DefaultClassName(classId: string): string
  {
    "Class " + classId
  }

  lemma {:induction false} KeysAreDistinct(a: string, b: string)
    requires a in ClassIds && b in ClassIds && a != b
    ensures ClassNameKey(a).value != ClassNameKey(b).value
    ensures ClassNamedKey(a).value != ClassNamedKey(b).value
  {
    assert ClassNameKey(a).value[11..] == a && ClassNameKey(b).value[11..] == b;
    assert ClassNamedKey(a).value[12..] == a && ClassNamedKey(b).value[12..] == b;
  }

  // ---------------------------------------------------------------------------
  // Getters as functions of the store

  /** getClassName: the stored name or the default for a known id, the id itself for
      any other. */
  function ClassNameIn(strings: map<string, string>, classId: string): (r: string)
    ensures classId !in ClassIds ==> r == classId
    ensures classId in ClassIds ==>
      r == (if ClassNameKey(classId).value in strings then strings[ClassNameKey(classId).value] else DefaultClassName(classId))
  {
    match ClassNameKey(classId)
    case None => classId
    case Some(key) => if key in strings then strings[key] else DefaultClassName(classId)
  }

  /** getActiveClasses: the stored set, or all five ids. */
  function ActiveClassesIn(stringSets: map<string, set<string>>): set<string>
  {
    if ActiveClassesKey in stringSets then stringSets[ActiveClassesKey] else AllClasses
  }

  /** The stored "named" flag, false when absent. */
  function NamedFlagIn(booleans: map<string, bool>, classId: string): bool
  {
    match ClassNamedKey(classId)
    case None => false
    case Some(key) => key in booleans && booleans[key]
  }

  /** The backward-compatible inference of isClassNamed: the name is not blank and differs
      from the default. */
  function NameCustomised(strings: map<string, string>, classId: string): bool
  {
    var current := ClassNameIn(strings, classId);
    !IsBlank(current) && current != DefaultClassName(classId)
  }

  /** What isClassNamed answers. */
  function ClassNamedIn(booleans: map<string, bool>, strings: map<string, string>, classId: string): (r: bool)
    ensures classId !in ClassIds ==> !r
    ensures NamedFlagIn(booleans, classId) ==> r
    ensures classId in ClassIds && !NamedFlagIn(booleans, classId) ==> (r <==> NameCustomised(strings, classId))
  {
    classId in ClassIds && (NamedFlagIn(booleans, classId) || NameCustomised(strings, classId))
  }

  // ---------------------------------------------------------------------------
  // Writes as functions of the store

  /** saveClassName's write. */
  function WithClassName(strings: map<string, string>, classId: string, name: string): (r: map<string, string>)
    ensures classId !in ClassIds ==> r == strings
  {
    match ClassNameKey(classId)
    case None => strings
    case Some(key) => strings[key := name]
  }

  /** setClassNamed's write. */
  function WithNamedFlag(booleans: map<string, bool>, classId: string, named: bool): (r: map<string, bool>)
    ensures classId !in ClassIds ==> r == booleans
  {
    match ClassNamedKey(classId)
    case None => booleans
    case Some(key) => booleans[key := named]
  }

  /** setClassActive's write: the current set with the id added or removed. */
  function WithActive(stringSets: map<string, set<string>>, classId: string, active: bool): map<string, set<string>>
  {
    var current := ActiveClassesIn(stringSets);
    stringSets[ActiveClassesKey := if active then current + {classId} else current - {classId}]
  }

  /** isClassNamed's write-back: the flag is stored when the name is inferred as custom. */
  function NamedWriteBack(booleans: map<string, bool>, strings: map<string, string>, classId: string): map<string, bool>
  {
    if classId in ClassIds && !NamedFlagIn(booleans, classId) && NameCustomised(strings, classId)
    then WithNamedFlag(booleans, classId, true)
    else booleans
  }

  /** A saved name is read back for its id; every other id reads as before. */
  lemma ClassNameAfterSave(strings: map<string, string>, classId: string, name: string, other: string)
    ensures ClassNameIn(WithClassName(strings, classId, name), other)
      == if other == classId && classId in ClassIds then name else ClassNameIn(strings, other)
  {
    if other != classId && classId in ClassIds && other in ClassIds {
      KeysAreDistinct(classId, other);
    }
  }

  /** The stored flag is read back for its id; every other id reads as before. */
  lemma NamedFlagAfterSet(booleans: map<string, bool>, classId: string, named: bool, other: string)
    ensures NamedFlagIn(WithNamedFlag(booleans, classId, named), other)
      == if other == classId && classId in ClassIds then named else NamedFlagIn(booleans, other)
  {
    if other != classId && classId in ClassIds && other in ClassIds {
      KeysAreDistinct(classId, other);
    }
  }

  /** setClassActive adds or removes exactly the one id. */
  lemma ActiveAfterSet(stringSets: map<string, set<string>>, classId: string, active: bool, other: string)
    ensures other in ActiveClassesIn(WithActive(stringSets, classId, active))
      <==> if other == classId then active else other in ActiveClassesIn(stringSets)
  {
  }

  /** isClassNamed answers the same after its write-back, and writes nothing the second
      time: once inferred, the class stays named. */
  lemma NamedWriteBackIsStable(booleans: map<string, bool>, strings: map<string, string>, classId: string)
    ensures ClassNamedIn(NamedWriteBack(booleans, strings, classId), strings, classId) == ClassNamedIn(booleans, strings, classId)
    ensures ClassNamedIn(booleans, strings, classId) ==> NamedFlagIn(NamedWriteBack(booleans, strings, classId), classId)
    ensures NamedWriteBack(NamedWriteBack(booleans, strings, classId), strings, classId) == NamedWriteBack(booleans, strings, classId)
  {
    if classId in ClassIds && !NamedFlagIn(booleans, classId) && NameCustomised(strings, classId) {
      NamedFlagAfterSet(booleans, classId, true, classId);
    }
  }

  /** Saving a custom name makes the class named; a stored flag keeps it named whatever
      name is saved later. */
  lemma NamedAfterRename(booleans: map<string, bool>, strings: map<string, string>, classId: string, name: string)
    requires classId in ClassIds
    ensures !IsBlank(name) && name != DefaultClassName(classId) ==> ClassNamedIn(booleans, WithClassName(strings, classId, name), classId)
    ensures NamedFlagIn(booleans, classId) ==> ClassNamedIn(booleans, WithClassName(strings, classId, name), classId)
  {
    ClassNameAfterSave(strings, classId, name, classId);
  }

  /** An empty store answers every getter with its default. */
  lemma EmptyStoreDefaults(classId: string)
    ensures ClassNameIn(map[], classId) == if classId in ClassIds then DefaultClassName(classId) else classId
    ensures ActiveClassesIn(map[]) == AllClasses
    ensures !ClassNamedIn(map[], map[], classId)
  {
    if classId in ClassIds {
      var d := DefaultClassName(classId);
      assert d[0] == 'C' && !IsWhitespace(d[0]);
      assert !IsBlank(d);
    }
  }

  // ---------------------------------------------------------------------------
  // Model names

  /** CLASS_IDS.filter { it in active }. */
  function ActiveInOrder(ids: seq<string>, active: set<string>): (r: seq<string>)
    ensures |r| <= |ids|
  {
    if ids == [] then []
    else if ids[0] in active then [ids[0]] + ActiveInOrder(ids[1..], active)
    else ActiveInOrder(ids[1..], active)
  }

  /** The filtered ids are exactly the active ones, and appear in their original
      order. */
  lemma {:induction false} ActiveInOrderIsFilter(ids: seq<string>, active: set<string>)
    ensures forall x :: x in ActiveInOrder(ids, active) <==> x in ids && x in active
    ensures forall i :: 0 <= i < |ActiveInOrder(ids, active)| ==>
      exists j :: 0 <= j < |ids| && ids[j] == ActiveInOrder(ids, active)[i]
        && ActiveInOrder(ids, active)[..i] == ActiveInOrder(ids[..j], active)
  {
    if ids != [] {
      var rest := ActiveInOrder(ids[1..], active);
      ActiveInOrderIsFilter(ids[1..], active);
      var r := ActiveInOrder(ids, active);
      forall i | 0 <= i < |r|
        ensures exists j :: 0 <= j < |ids| && ids[j] == r[i] && r[..i] == ActiveInOrder(ids[..j], active)
      {
        if ids[0] in active && i == 0 {
          assert ids[..0] == [];
          assert ids[0] == r[0] && r[..0] == ActiveInOrder(ids[..0], active);
        } else {
          var k := if ids[0] in active then i - 1 else i;
          assert r[k + (i - k)] == rest[k];
          var j :| 0 <= j < |ids[1..]| && ids[1..][j] == rest[k] && rest[..k] == ActiveInOrder(ids[1..][..j], active);
          assert ids[..j + 1][1..] == ids[1..][..j];
          assert ids[..j + 1][0] == ids[0];
          assert ids[j + 1] == r[i];
          if ids[0] in active {
            assert r[..i] == [ids[0]] + rest[..k];
          } else {
            assert r[..i] == rest[..k];
          }
        }
      }
    }
  }

  /** Float.toInt(): truncation toward zero, clamped to the Int range. */
  function TruncateToInt(x: real): (r: int)
    ensures MinInt32 <= r <= MaxInt32
    ensures 0.0 <= x < MaxInt32 as real ==> r == x.Floor
  {
    var t := if x >= 0.0 then x.Floor else -((-x).Floor);
    if t < MinInt32 then MinInt32 else if t > MaxInt32 then MaxInt32 else t
  }

  /** The name piece of one class: spaces removed, cut to 8 characters. */
  function NamePiece(name: string): string
  {
    Take(RemoveSpaces(name), 8)
  }

  /** The name pieces of the active classes, in id order. */
  function NamePieces(strings: map<string, string>, stringSets: map<string, set<string>>): seq<string>
  {
    var ordered := ActiveInOrder(ClassIds, ActiveClassesIn(stringSets));
    seq(|ordered|, i requires 0 <= i < |ordered| => NamePiece(ClassNameIn(strings, ordered[i])))
  }

  /** (getModelAccuracy() * 100).toInt(). */
  function AccuracyPercent(floats: map<string, real>): int
  {
    var accuracy := if LastAccuracyKey in floats then floats[LastAccuracyKey] else 0.0;
    TruncateToInt(accuracy * 100.0)
  }

  /** generateModelName: the active classes in id order, each as its name piece, joined
      with '_', then the accuracy percent and the timestamp. */
  function ModelNameIn(strings: map<string, string>, stringSets: map<string, set<string>>, floats: map<string, real>,
                       timestamp: int): string
  {
    "model_" + Join(NamePieces(strings, stringSets), "_") + "_" + IntToString(AccuracyPercent(floats))
      + "pct_" + IntToString(timestamp)
  }

  /** The shape of a generated name: one piece per active class, in id order, each the
      first min(8, length) characters of the class's name without spaces; no space in the
      class part; and the fixed frame around it with the accuracy percent and the
      timestamp. */
  lemma ModelNameShape(strings: map<string, string>, stringSets: map<string, set<string>>, floats: map<string, real>,
                       timestamp: int)
    ensures var ordered := ActiveInOrder(ClassIds, ActiveClassesIn(stringSets));
      var pieces := NamePieces(strings, stringSets);
      && |pieces| == |ordered|
      && (forall i :: 0 <= i < |pieces| ==>
            var full := RemoveSpaces(ClassNameIn(strings, ordered[i]));
            |pieces[i]| == (if |full| <= 8 then |full| else 8) && ' ' !in pieces[i] && pieces[i] == full[..|pieces[i]|])
      && ' ' !in Join(pieces, "_")
      && ModelNameIn(strings, stringSets, floats, timestamp)
           == "model_" + Join(pieces, "_") + "_" + IntToString(AccuracyPercent(floats)) + "pct_" + IntToString(timestamp)
  {
    var ordered := ActiveInOrder(ClassIds, ActiveClassesIn(stringSets));
    var pieces := NamePieces(strings, stringSets);
    forall i | 0 <= i < |pieces|
      ensures var full := RemoveSpaces(ClassNameIn(strings, ordered[i]));
        |pieces[i]| == (if |full| <= 8 then |full| else 8) && ' ' !in pieces[i] && pieces[i] == full[..|pieces[i]|]
    {
      var r := RemoveSpaces(ClassNameIn(strings, ordered[i]));
      assert pieces[i] == r[..|pieces[i]|];
    }
    assert "_" == ['_'];
    JoinFreeOf(pieces, '_', ' ');
  }

  // ---------------------------------------------------------------------------
  // The helper

  class PreferencesHelper {
    var strings: map<string, string>
    var stringSets: map<string, set<string>>
    var floats: map<string, real>
    var longs: map<string, int>
    var booleans: map<string, bool>

    /** Opens the store with whatever it already holds. */
    constructor (strings: map<string, string>, stringSets: map<string, set<string>>, floats: map<string, real>,
                 longs: map<string, int>, booleans: map<string, bool>)
      ensures this.strings == strings && this.stringSets == stringSets && this.floats == floats
      ensures this.longs == longs && this.booleans == booleans
    {
      this.strings := strings;
      this.stringSets := stringSets;
      this.floats := floats;
      this.longs := longs;
      this.booleans := booleans;
    }

    /** getClassName: an unknown id reads as itself; a known one as its stored name, or
        "Class N" when none is stored. */
    function GetClassName(classId: string): (r: string)
      reads this
      ensures classId !in ClassIds ==> r == classId
      ensures classId in ClassIds && ClassNameKey(classId).value in strings ==> r == strings[ClassNameKey(classId).value]
      ensures classId in ClassIds && ClassNameKey(classId).value !in strings ==> r == DefaultClassName(classId)
    {
      ClassNameIn(strings, classId)
    }

    method SaveClassName(classId: string, name: string)
      modifies this`strings
      ensures strings == WithClassName(old(strings), classId, name)
      ensures classId in ClassIds ==> GetClassName(classId) == name
    {
      var key := ClassNameKey(classId);
      if key.None? {
        return;
      }
      strings := strings[key.value := name];
    }

    /** getAllClassNames: one entry per known id. */
    function GetAllClassNames(): (r: map<string, string>)
      reads this
      ensures forall id :: id in r <==> id in ClassIds
      ensures forall id :: id in r ==> r[id] == GetClassName(id)
    {
      map id | id in ClassIds :: GetClassName(id)
    }

    /** getActiveClasses: the stored set, or all five ids before one is stored. */
    function GetActiveClasses(): (r: set<string>)
      reads this
      ensures ActiveClassesKey !in stringSets ==> r == AllClasses
      ensures ActiveClassesKey in stringSets ==> r == stringSets[ActiveClassesKey]
    {
      ActiveClassesIn(stringSets)
    }

    method SaveActiveClasses(classes: set<string>)
      modifies this`stringSets
      ensures stringSets == old(stringSets)[ActiveClassesKey := classes]
      ensures GetActiveClasses() == classes
    {
      stringSets := stringSets[ActiveClassesKey := classes];
    }

    function IsClassActive(classId: string): (b: bool)
      reads this
      ensures ActiveClassesKey !in stringSets ==> (b <==> classId in ClassIds)
      ensures b <==> classId in GetActiveClasses()
    {
      AllClassesAreClassIds();
      classId in GetActiveClasses()
    }

    /** Read the active set, add or remove the id, write it back. */
    method SetClassActive(classId: string, active: bool)
      modifies this`stringSets
      ensures stringSets == WithActive(old(stringSets), classId, active)
      ensures IsClassActive(classId) == active
    {
      var current := GetActiveClasses();
      if active {
        current := current + {classId};
      } else {
        current := current - {classId};
      }
      SaveActiveClasses(current);
    }

    method SaveCurrentModelName(name: string)
      modifies this`strings
      ensures strings == old(strings)[CurrentModelNameKey := name]
    {
      strings := strings[CurrentModelNameKey := name];
    }

    /** getCurrentModelName: null until a name is saved. */
    function GetCurrentModelName(): (r: Option<string>)
      reads this
      ensures r.Some? <==> CurrentModelNameKey in strings
      ensures r.Some? ==> r.value == strings[CurrentModelNameKey]
    {
      if CurrentModelNameKey in strings then Some(strings[CurrentModelNameKey]) else None
    }

    method SaveModelAccuracy(accuracy: real)
      modifies this`floats
      ensures floats == old(floats)[LastAccuracyKey := accuracy]
    {
      floats := floats[LastAccuracyKey := accuracy];
    }

    /** getModelAccuracy: the stored accuracy, 0 before one is stored. */
    function GetModelAccuracy(): (r: real)
      reads this
      ensures LastAccuracyKey !in floats ==> r == 0.0
      ensures LastAccuracyKey in floats ==> r == floats[LastAccuracyKey]
    {
      if LastAccuracyKey in floats then floats[LastAccuracyKey] else 0.0
    }

    method SaveLastTrainedTime(timestamp: int)
      modifies this`longs
      ensures longs == old(longs)[LastTrainedTimeKey := timestamp]
    {
      longs := longs[LastTrainedTimeKey := timestamp];
    }

    /** getLastTrainedTime: the stored time, 0 before one is stored. */
    function GetLastTrainedTime(): (r: int)
      reads this
      ensures LastTrainedTimeKey !in longs ==> r == 0
      ensures LastTrainedTimeKey in longs ==> r == longs[LastTrainedTimeKey]
    {
      if LastTrainedTimeKey in longs then longs[LastTrainedTimeKey] else 0
    }

    /** generateModelName, with the clock reading passed in: the active classes' name
        pieces, free of spaces, between "model_" and the accuracy percent and timestamp. */
    function GenerateModelName(timestamp: int): (r: string)
      reads this
      ensures var names := Join(NamePieces(strings, stringSets), "_");
        ' ' !in names && r == "model_" + names + "_" + IntToString(AccuracyPercent(floats)) + "pct_" + IntToString(timestamp)
    {
      ModelNameShape(strings, stringSets, floats, timestamp);
      ModelNameIn(strings, stringSets, floats, timestamp)
    }

    /** clearAll: every key goes. */
    method ClearAll()
      modifies this
      ensures strings == map[] && stringSets == map[] && floats == map[] && longs == map[] && booleans == map[]
      ensures GetActiveClasses() == AllClasses && GetCurrentModelName().None?
      ensures GetModelAccuracy() == 0.0 && GetLastTrainedTime() == 0
    {
      strings := map[];
      stringSets := map[];
      floats := map[];
      longs := map[];
      booleans := map[];
    }

    /** getNumberOfActiveClasses: the size of the active set, five before one is stored. */
    function GetNumberOfActiveClasses(): (r: nat)
      reads this
      ensures r == |GetActiveClasses()|
      ensures ActiveClassesKey !in stringSets ==> r == NumClasses
    {
      AllClassesAreClassIds();
      |GetActiveClasses()|
    }

    /** isClassNamed: the stored flag, or else the inference from the current name, which
        is then stored so that later calls see it. */
    method IsClassNamed(classId: string) returns (named: bool)
      modifies this`booleans
      ensures named == ClassNamedIn(old(booleans), strings, classId)
      ensures booleans == NamedWriteBack(old(booleans), strings, classId)
    {
      var key := ClassNamedKey(classId);
      if key.None? {
        return false;
      }
      var stored := key.value in booleans && booleans[key.value];
      if stored {
        return true;
      }
      var defaultName := DefaultClassName(classId);
      var currentName := GetClassName(classId);
      var inferred := !IsBlank(currentName) && currentName != defaultName;
      if inferred {
        SetClassNamed(classId, true);
      }
      return inferred;
    }

    method SetClassNamed(classId: string, named: bool)
      modifies this`booleans
      ensures booleans == WithNamedFlag(old(booleans), classId, named)
    {
      var key := ClassNamedKey(classId);
      if key.None? {
        return;
      }
      booleans := booleans[key.value := named];
    }
  }
}
