/** ModelManager: the catalogue of saved models. Each saved model is a pair of files in the
    models directory, <stem>.model (a copy of the checkpoint) and <stem>.info (a key=value
    record). The file system is a map from paths, relative to the app's files directory,
    to file contents. */
module ModelCatalogue {
  import opened Common

  /** The models directory, <filesDir>/trained_models, as a path prefix. */
  const ModelsDir: string := "trained_models/"
  const ModelExtension: string := ".model"
  const InfoExtension: string := ".info"

  /** ModelManager.ModelInfo. The accuracy is the integer form of the saved value (see
      README). */
  datatype ModelInfo = ModelInfo(
    name: string,
    fileName: string,
    accuracy: int,
    classNames: seq<string>,
    numSamples: int,
    timestamp: int,
    filePath: string)

  function ModelPath(stem: string): string
  {
    ModelsDir + stem + ModelExtension
  }

  function InfoPath(stem: string): string
  {
    ModelsDir + stem + InfoExtension
  }

  // ---------------------------------------------------------------------------
  // File names

  /** The characters the regex [a-zA-Z0-9_-] lets through. */
  predicate IsNameChar(c: char)
  {
    'a' <= c <= 'z' || 'A' <= c <= 'Z' || '0' <= c <= '9' || c == '_' || c == '-'
  }

  /** name.replace(Regex("[^a-zA-Z0-9_-]"), "_"): one character out per character in;
      allowed characters are kept, every other one becomes '_'. */
  function Sanitize(name: string): (r: string)
    ensures |r| == |name|
    ensures forall i :: 0 <= i < |r| ==> IsNameChar(r[i])
    ensures forall i :: 0 <= i < |r| ==> (r[i] == name[i] <==> IsNameChar(name[i]))
  {
    seq(|name|, i requires 0 <= i < |name| => if IsNameChar(name[i]) then name[i] else '_')
  }

  /** A name made only of allowed characters is its own sanitised form, so sanitising
      twice is sanitising once. */
  lemma SanitizeFixesSafeNames(name: string)
    ensures (forall i :: 0 <= i < |name| ==> IsNameChar(name[i])) <==> Sanitize(name) == name
    ensures Sanitize(Sanitize(name)) == Sanitize(name)
  {
    if Sanitize(name) == name {
      assert forall i :: 0 <= i < |name| ==> IsNameChar(Sanitize(name)[i]);
    }
  }

  /** The file stem saveModel uses: the sanitised name, '_', the timestamp. */
  function FileStem(name: string, timestamp: int): (r: string)
    ensures '/' !in r && '.' !in r
  {
    var sanitized := Sanitize(name);
    assert '/' !in sanitized && '.' !in sanitized by {
      forall i | 0 <= i < |sanitized| ensures sanitized[i] != '/' && sanitized[i] != '.' {
        assert IsNameChar(sanitized[i]);
      }
    }
    IntToStringChars(timestamp, '/');
    IntToStringChars(timestamp, '.');
    sanitized + "_" + IntToString(timestamp)
  }

  // ---------------------------------------------------------------------------
  // String.trimIndent()

  /** The number of leading whitespace characters (the whole length for a blank line). */
  function IndentWidth(line: string): (w: nat)
    ensures w <= |line| && IsBlank(line[..w])
    ensures w < |line| ==> !IsWhitespace(line[w])
  {
    |line| - |TrimStart(line)|
  }

  /** The least indent over the lines that are not blank; None when every line is. */
  function MinIndent(lines: seq<string>): Option<nat>
  {
    if lines == [] then None
    else
      var rest := MinIndent(lines[1..]);
      if IsBlank(lines[0]) then rest
      else
        match rest
        case None => Some(IndentWidth(lines[0]))
        case Some(m) => Some(if IndentWidth(lines[0]) < m then IndentWidth(lines[0]) else m)
  }

  /** MinIndent is None exactly when every line is blank. */
  lemma {:induction false} MinIndentNoneIffBlank(lines: seq<string>)
    ensures MinIndent(lines).None? <==> forall i :: 0 <= i < |lines| ==> IsBlank(lines[i])
  {
    if lines != [] {
      MinIndentNoneIffBlank(lines[1..]);
      assert forall i :: 1 <= i < |lines| ==> lines[i] == lines[1..][i - 1];
    }
  }

  /** A MinIndent that is present is the indent of a line that is not blank and no more
      than the indent of any such line. */
  lemma {:induction false} MinIndentIsLeast(lines: seq<string>)
    ensures var r := MinIndent(lines);
      && (r.Some? ==> exists i :: 0 <= i < |lines| && !IsBlank(lines[i]) && IndentWidth(lines[i]) == r.value)
      && (r.Some? ==> forall i :: 0 <= i < |lines| && !IsBlank(lines[i]) ==> r.value <= IndentWidth(lines[i]))
  {
    if lines != [] {
      var rest := MinIndent(lines[1..]);
      MinIndentIsLeast(lines[1..]);
      MinIndentNoneIffBlank(lines[1..]);
      forall i | 1 <= i < |lines| && !IsBlank(lines[i])
        ensures rest.Some? && rest.value <= IndentWidth(lines[i])
      {
        assert lines[i] == lines[1..][i - 1];
      }
      if rest.Some? {
        var k :| 0 <= k < |lines[1..]| && !IsBlank(lines[1..][k]) && IndentWidth(lines[1..][k]) == rest.value;
        assert lines[k + 1] == lines[1..][k];
      }
    }
  }

  /** String.drop(n). */
  function Drop(s: string, n: nat): (r: string)
    ensures r == if n >= |s| then "" else s[n..]
  {
    if n >= |s| then "" else s[n..]
  }

  /** The lines trimIndent keeps: the first and the last line go when they are blank. */
  function KeptLines(lines: seq<string>): (r: seq<string>)
  {
    var body := if |lines| >= 1 && IsBlank(lines[|lines| - 1]) then lines[..|lines| - 1] else lines;
    if |body| >= 1 && IsBlank(body[0]) then body[1..] else body
  }

  /** trimIndent(): split into lines (at "\r\n", "\n" or "\r"), drop a blank first and
      last line, cut the common minimal indent of the non-blank lines off every line, join
      with '\n'. */
  function TrimIndent(text: string): (r: string)
    ensures '\r' !in r
  {
    var lines := Lines(text);
    var m := match MinIndent(lines) case None => 0 case Some(m) => m;
    var kept := KeptLines(lines);
    var cut := seq(|kept|, i requires 0 <= i < |kept| => Drop(kept[i], m));
    KeptLinesAreLines(lines);
    assert forall k :: 0 <= k < |cut| ==> '\r' !in kept[k] && '\r' !in cut[k];
    JoinFreeOf(cut, '\n', '\r');
    assert "\n" == ['\n'];
    Join(cut, "\n")
  }

  lemma KeptLinesAreLines(lines: seq<string>)
    ensures forall k :: 0 <= k < |KeptLines(lines)| ==> KeptLines(lines)[k] in lines
  {
    var body := if |lines| >= 1 && IsBlank(lines[|lines| - 1]) then lines[..|lines| - 1] else lines;
    assert forall k :: 0 <= k < |body| ==> body[k] == lines[k];
  }

  lemma {:induction false} TrimStartBlankPrefix(p: string, x: string)
    requires IsBlank(p) && x != [] && !IsWhitespace(x[0])
    ensures TrimStart(p + x) == x
  {
    if p != [] {
      assert (p + x)[1..] == p[1..] + x;
      TrimStartBlankPrefix(p[1..], x);
    } else {
      assert p + x == x;
    }
  }

  // ---------------------------------------------------------------------------
  // The .info record

  /** The five lines of the record, as saveModel lays them out once the indent is gone. */
  function InfoLines(name: string, accuracy: int, classNames: seq<string>, numSamples: int, timestamp: int): seq<string>
  {
    [Field("name", name),
     Field("accuracy", IntToString(accuracy)),
     Field("classNames", Join(classNames, ",")),
     Field("numSamples", IntToString(numSamples)),
     Field("timestamp", IntToString(timestamp))]
  }

  /** One key=value line of the record. */
  function Field(key: string, value: string): string
  {
    key + "=" + value
  }

  const FieldIndent: string := "                "
  const ClosingIndent: string := "            "

  /** Lines indented by sixteen spaces, as the fields of the literal are. */
  function Indented(body: seq<string>): (r: seq<string>)
    ensures |r| == |body| && forall i :: 0 <= i < |r| ==> r[i] == FieldIndent + body[i]
  {
    seq(|body|, i requires 0 <= i < |body| => FieldIndent + body[i])
  }

  /** The lines of the literal: an empty first line, the indented fields, and the closing
      line of twelve spaces. */
  function TemplateLines(body: seq<string>): seq<string>
  {
    [""] + Indented(body) + [ClosingIndent]
  }

  /** The raw string literal of saveModel with its templates filled in. */
  function InfoTemplate(name: string, accuracy: int, classNames: seq<string>, numSamples: int, timestamp: int): string
  {
    Join(TemplateLines(InfoLines(name, accuracy, classNames, numSamples, timestamp)), "\n")
  }

  /** The text saveModel writes to the .info file. */
  function InfoContent(name: string, accuracy: int, classNames: seq<string>, numSamples: int, timestamp: int): string
  {
    TrimIndent(InfoTemplate(name, accuracy, classNames, numSamples, timestamp))
  }

  /** No character that lines() or readLines() breaks at. */
  predicate NoLineBreak(s: string)
  {
    '\n' !in s && '\r' !in s
  }

  /** A line that is a field: not empty, no leading whitespace, no line break. */
  predicate FieldLine(line: string)
  {
    line != [] && !IsWhitespace(line[0]) && NoLineBreak(line)
  }

  lemma InfoLinesAreFields(name: string, accuracy: int, classNames: seq<string>, numSamples: int, timestamp: int)
    requires NoLineBreak(name) && forall k :: 0 <= k < |classNames| ==> NoLineBreak(classNames[k])
    ensures forall i :: 0 <= i < 5 ==> FieldLine(InfoLines(name, accuracy, classNames, numSamples, timestamp)[i])
  {
    FieldIsLine("name", name);
    NumberFieldIsLine("accuracy", accuracy);
    ClassNamesFieldIsLine(classNames);
    NumberFieldIsLine("numSamples", numSamples);
    NumberFieldIsLine("timestamp", timestamp);
  }

  lemma NumberFieldIsLine(key: string, n: int)
    requires key != [] && 'a' <= key[0] <= 'z' && NoLineBreak(key)
    ensures FieldLine(Field(key, IntToString(n)))
  {
    IntToStringChars(n, '\n');
    IntToStringChars(n, '\r');
    FieldIsLine(key, IntToString(n));
  }

  lemma ClassNamesFieldIsLine(classNames: seq<string>)
    requires forall k :: 0 <= k < |classNames| ==> NoLineBreak(classNames[k])
    ensures FieldLine(Field("classNames", Join(classNames, ",")))
  {
    JoinFreeOf(classNames, ',', '\n');
    JoinFreeOf(classNames, ',', '\r');
    FieldIsLine("classNames", Join(classNames, ","));
  }

  lemma FieldIsLine(key: string, value: string)
    requires key != [] && 'a' <= key[0] <= 'z' && NoLineBreak(key) && NoLineBreak(value)
    ensures FieldLine(Field(key, value))
  {
    assert Field(key, value)[0] == key[0];
  }

  lemma TemplateSplits(body: seq<string>)
    requires forall i :: 0 <= i < |body| ==> FieldLine(body[i])
    ensures Lines(Join(TemplateLines(body), "\n")) == TemplateLines(body)
  {
    var lines := TemplateLines(body);
    forall k | 0 <= k < |lines| ensures NoLineBreak(lines[k]) {
      if 1 <= k <= |body| {
        assert lines[k] == FieldIndent + body[k - 1];
      }
    }
    SplitJoin(lines, '\n');
    assert "\n" == ['\n'];
    JoinFreeOf(lines, '\n', '\r');
    LinesWithoutReturn(Join(lines, "\n"));
  }

  lemma TemplateIndent(body: seq<string>)
    requires |body| >= 1 && forall i :: 0 <= i < |body| ==> FieldLine(body[i])
    ensures MinIndent(TemplateLines(body)) == Some(16)
  {
    var lines := TemplateLines(body);
    forall i | 0 <= i < |lines| && !IsBlank(lines[i])
      ensures IndentWidth(lines[i]) == 16
    {
      assert lines[0] == "" && lines[|lines| - 1] == ClosingIndent;
      IndentedField(body[i - 1]);
    }
    IndentedField(body[0]);
    MinIndentOfUniform(lines, 1, 16);
  }

  /** When every line that is not blank has indent w and line k is not blank, the least
      indent is w. */
  lemma MinIndentOfUniform(lines: seq<string>, k: nat, w: nat)
    requires k < |lines| && !IsBlank(lines[k])
    requires forall i :: 0 <= i < |lines| && !IsBlank(lines[i]) ==> IndentWidth(lines[i]) == w
    ensures MinIndent(lines) == Some(w)
  {
    MinIndentNoneIffBlank(lines);
    MinIndentIsLeast(lines);
  }

  lemma IndentedField(line: string)
    requires FieldLine(line)
    ensures !IsBlank(FieldIndent + line) && IndentWidth(FieldIndent + line) == 16
  {
    TrimStartBlankPrefix(FieldIndent, line);
    assert (FieldIndent + line)[16] == line[0];
  }

  lemma TemplateKept(body: seq<string>)
    requires |body| >= 1 && forall i :: 0 <= i < |body| ==> FieldLine(body[i])
    ensures KeptLines(TemplateLines(body)) == Indented(body)
  {
    var lines := TemplateLines(body);
    assert IsBlank(lines[0]) && IsBlank(lines[|lines| - 1]);
    assert lines[..|lines| - 1] == [""] + Indented(body);
  }

  /** trimIndent of the literal gives back the fields, one per line, with no indent and no
      blank first or last line. */
  lemma {:induction false} TrimIndentOfTemplate(body: seq<string>)
    requires |body| >= 1 && forall i :: 0 <= i < |body| ==> FieldLine(body[i])
    ensures TrimIndent(Join(TemplateLines(body), "\n")) == Join(body, "\n")
  {
    TemplateSplits(body);
    TemplateIndent(body);
    TemplateKept(body);
    var indented := Indented(body);
    assert seq(|indented|, i requires 0 <= i < |indented| => Drop(indented[i], 16)) == body;
  }

  /** With no line break inside a field, the indent comes off exactly: the record is the
      five lines joined by '\n'. */
  lemma InfoContentIsLines(name: string, accuracy: int, classNames: seq<string>, numSamples: int, timestamp: int)
    requires NoLineBreak(name) && forall k :: 0 <= k < |classNames| ==> NoLineBreak(classNames[k])
    ensures InfoContent(name, accuracy, classNames, numSamples, timestamp)
      == Join(InfoLines(name, accuracy, classNames, numSamples, timestamp), "\n")
  {
    InfoLinesAreFields(name, accuracy, classNames, numSamples, timestamp);
    TrimIndentOfTemplate(InfoLines(name, accuracy, classNames, numSamples, timestamp));
  }

  /** The key and the value of one record line, split at the first '='. */
  function Entry(line: string): Option<(string, string)>
  {
    SplitAtFirst(line, '=')
  }

  /** parseInfoFile's map for the given lines: each line with an '=' sets its key, and a
      later line with the same key overwrites an earlier one. */
  function InfoMap(lines: seq<string>): map<string, string>
  {
    if lines == [] then map[]
    else
      var m := InfoMap(lines[..|lines| - 1]);
      match Entry(lines[|lines| - 1])
      case None => m
      case Some((k, v)) => m[k := v]
  }

  /** Whether a record line sets the given key. */
  predicate SetsKey(line: string, k: string)
  {
    Entry(line).Some? && Entry(line).value.0 == k
  }

  /** Line i is the last line that sets k. */
  predicate LastSetter(lines: seq<string>, k: string, i: int)
  {
    0 <= i < |lines| && SetsKey(lines[i], k) && forall j :: i < j < |lines| ==> !SetsKey(lines[j], k)
  }

  /** A key is in the map exactly when some line sets it. */
  lemma InfoMapKeys(lines: seq<string>, k: string)
    ensures k in InfoMap(lines) <==> exists i :: 0 <= i < |lines| && SetsKey(lines[i], k)
  {
    if k in InfoMap(lines) {
      InfoMapLastWins(lines, k);
    }
    if exists i :: 0 <= i < |lines| && SetsKey(lines[i], k) {
      var i :| 0 <= i < |lines| && SetsKey(lines[i], k);
      InfoMapHasSetKey(lines, k, i);
    }
  }

  /** A key set by any line is in the map. */
  lemma {:induction false} InfoMapHasSetKey(lines: seq<string>, k: string, i: nat)
    requires i < |lines| && SetsKey(lines[i], k)
    ensures k in InfoMap(lines)
  {
    var last := |lines| - 1;
    if i < last {
      var prefix := lines[..last];
      assert prefix[i] == lines[i];
      InfoMapHasSetKey(prefix, k, i);
    }
  }

  /** The value of a key is the one set by the last line that sets it. */
  lemma {:induction false} InfoMapLastWins(lines: seq<string>, k: string)
    requires k in InfoMap(lines)
    ensures exists i :: LastSetter(lines, k, i) && Entry(lines[i]).value.1 == InfoMap(lines)[k]
  {
    var last := |lines| - 1;
    if SetsKey(lines[last], k) {
      assert LastSetter(lines, k, last);
    } else {
      var prefix := lines[..last];
      InfoMapSkipsLine(lines, k);
      InfoMapLastWins(prefix, k);
      var i :| LastSetter(prefix, k, i) && Entry(prefix[i]).value.1 == InfoMap(prefix)[k];
      LastSetterOfPrefix(lines, k, i);
    }
  }

  /** A last line that does not set k leaves k's entry as the other lines made it. */
  lemma InfoMapSkipsLine(lines: seq<string>, k: string)
    requires lines != [] && !SetsKey(lines[|lines| - 1], k)
    ensures k in InfoMap(lines) <==> k in InfoMap(lines[..|lines| - 1])
    ensures k in InfoMap(lines) ==> InfoMap(lines)[k] == InfoMap(lines[..|lines| - 1])[k]
  {
  }

  /** The last setter among all but the last line stays the last setter when the last
      line does not set the key. */
  lemma LastSetterOfPrefix(lines: seq<string>, k: string, i: int)
    requires lines != [] && !SetsKey(lines[|lines| - 1], k)
    requires LastSetter(lines[..|lines| - 1], k, i)
    ensures LastSetter(lines, k, i) && lines[i] == lines[..|lines| - 1][i]
  {
    var prefix := lines[..|lines| - 1];
    forall j | i < j < |lines| ensures !SetsKey(lines[j], k) {
      if j < |prefix| {
        assert lines[j] == prefix[j];
      }
    }
  }

  /** Splitting key + "=" + value at the first '=' gives the key back when the key has
      no '='. */
  lemma EntryOf(key: string, value: string)
    requires '=' !in key
    ensures Entry(key + "=" + value) == Some((key, value))
  {
    assert key + "=" + value == key + ['='] + value;
    UntilPrefix(key, value, '=');
  }

  /** The map of the five fields of a record, as text. */
  function RecordMap(name: string, accuracy: int, classNames: seq<string>, numSamples: int, timestamp: int): map<string, string>
  {
    map["name" := name, "accuracy" := IntToString(accuracy), "classNames" := Join(classNames, ","),
        "numSamples" := IntToString(numSamples), "timestamp" := IntToString(timestamp)]
  }

  /** The map parsed back from the written record. */
  lemma InfoMapOfRecord(name: string, accuracy: int, classNames: seq<string>, numSamples: int, timestamp: int)
    ensures InfoMap(InfoLines(name, accuracy, classNames, numSamples, timestamp))
      == RecordMap(name, accuracy, classNames, numSamples, timestamp)
  {
    var acc, cls, ns, ts := IntToString(accuracy), Join(classNames, ","), IntToString(numSamples), IntToString(timestamp);
    var f0, f1, f2, f3, f4 := Field("name", name), Field("accuracy", acc), Field("classNames", cls),
      Field("numSamples", ns), Field("timestamp", ts);
    InfoMapOfFourFields(name, acc, cls, ns);
    InfoMapAddField([f0, f1, f2, f3], "timestamp", ts);
    assert [f0, f1, f2, f3] + [f4] == InfoLines(name, accuracy, classNames, numSamples, timestamp);
  }

  /** The map of the first four record lines. */
  lemma InfoMapOfFourFields(name: string, acc: string, cls: string, ns: string)
    ensures InfoMap([Field("name", name), Field("accuracy", acc), Field("classNames", cls), Field("numSamples", ns)])
      == map["name" := name, "accuracy" := acc, "classNames" := cls, "numSamples" := ns]
  {
    var f0, f1, f2, f3 := Field("name", name), Field("accuracy", acc), Field("classNames", cls), Field("numSamples", ns);
    InfoMapOfFirstFields(name, acc, cls);
    InfoMapAddField([f0, f1, f2], "numSamples", ns);
    assert [f0, f1, f2] + [f3] == [f0, f1, f2, f3];
  }

  /** The map of the first three record lines. */
  lemma InfoMapOfFirstFields(name: string, acc: string, cls: string)
    ensures InfoMap([Field("name", name), Field("accuracy", acc), Field("classNames", cls)])
      == map["name" := name, "accuracy" := acc, "classNames" := cls]
  {
    var f0, f1, f2 := Field("name", name), Field("accuracy", acc), Field("classNames", cls);
    assert InfoMap([f0]) == map["name" := name] by {
      InfoMapAddField([], "name", name);
      assert [] + [f0] == [f0];
    }
    assert InfoMap([f0, f1]) == map["name" := name, "accuracy" := acc] by {
      InfoMapAddField([f0], "accuracy", acc);
      assert [f0] + [f1] == [f0, f1];
    }
    InfoMapAddField([f0, f1], "classNames", cls);
    assert [f0, f1] + [f2] == [f0, f1, f2];
  }

  /** A field line appended to the record sets its key. */
  lemma InfoMapAddField(lines: seq<string>, key: string, value: string)
    requires '=' !in key
    ensures InfoMap(lines + [Field(key, value)]) == InfoMap(lines)[key := value]
  {
    EntryOf(key, value);
    assert (lines + [Field(key, value)])[..|lines|] == lines;
  }

  // ---------------------------------------------------------------------------
  // Decoding

  /** map { it.trim() }. */
  function TrimAll(parts: seq<string>): (r: seq<string>)
    ensures |r| == |parts| && forall i :: 0 <= i < |r| ==> r[i] == Trim(parts[i])
  {
    seq(|parts|, i requires 0 <= i < |parts| => Trim(parts[i]))
  }

  /** The ModelInfo getAllModels builds from a parsed record: a missing name falls back to
      the file stem, and a missing or unparseable number to 0; class names are split at
      ',' and trimmed, and a missing list is empty. */
  function DecodeInfo(info: map<string, string>, fileName: string, filePath: string): (r: ModelInfo)
    ensures r.fileName == fileName && r.filePath == filePath
    ensures r.name == if "name" in info then info["name"] else fileName
    ensures "accuracy" !in info ==> r.accuracy == 0
    ensures "classNames" !in info ==> r.classNames == []
    ensures "classNames" in info ==> |r.classNames| == |Split(info["classNames"], ',')| >= 1
    ensures "numSamples" !in info ==> r.numSamples == 0
    ensures "timestamp" !in info ==> r.timestamp == 0
    ensures MinInt32 <= r.numSamples <= MaxInt32 && MinInt64 <= r.timestamp <= MaxInt64
  {
    ModelInfo(
      if "name" in info then info["name"] else fileName,
      fileName,
      IntField(info, "accuracy"),
      if "classNames" in info then TrimAll(Split(info["classNames"], ',')) else [],
      Int32Field(info, "numSamples"),
      Int64Field(info, "timestamp"),
      filePath)
  }

  /** toFloatOrNull() ?: 0, on the integer accuracy. */
  function IntField(info: map<string, string>, key: string): int
  {
    if key in info && ParseInteger(info[key]).Some? then ParseInteger(info[key]).value else 0
  }

  /** toIntOrNull() ?: 0. */
  function Int32Field(info: map<string, string>, key: string): int
  {
    if key in info && ToIntOrNull(info[key]).Some? then ToIntOrNull(info[key]).value else 0
  }

  /** toLongOrNull() ?: 0. */
  function Int64Field(info: map<string, string>, key: string): int
  {
    if key in info && ToLongOrNull(info[key]).Some? then ToLongOrNull(info[key]).value else 0
  }

  /** An empty record decodes to the defaults. */
  lemma DecodeEmptyRecord(fileName: string, filePath: string)
    ensures DecodeInfo(InfoMap(ReadLines("")), fileName, filePath) == ModelInfo(fileName, fileName, 0, [], 0, 0, filePath)
  {
  }

  /** The class names as getAllModels reads them back: the same list when no name holds a
      ',' or surrounding whitespace, and one empty name for an empty list. */
  function ClassNamesReadBack(classNames: seq<string>): seq<string>
  {
    if classNames == [] then [""] else classNames
  }

  predicate PlainClassName(c: string)
  {
    ',' !in c && NoLineBreak(c) && Trim(c) == c
  }

  /** Writing a record and reading it back recovers every field, provided the name and
      the class names hold no line break, the class names no ',' and no surrounding
      whitespace, and the numbers fit Kotlin's Int and Long. */
  lemma InfoRoundTrip(name: string, accuracy: int, classNames: seq<string>, numSamples: int, timestamp: int,
                      fileName: string, filePath: string)
    requires NoLineBreak(name)
    requires forall k :: 0 <= k < |classNames| ==> PlainClassName(classNames[k])
    requires MinInt32 <= numSamples <= MaxInt32 && MinInt64 <= timestamp <= MaxInt64
    ensures DecodeInfo(InfoMap(ReadLines(InfoContent(name, accuracy, classNames, numSamples, timestamp))), fileName, filePath)
      == ModelInfo(name, fileName, accuracy, ClassNamesReadBack(classNames), numSamples, timestamp, filePath)
  {
    RecordParsesBack(name, accuracy, classNames, numSamples, timestamp);
    var info := RecordMap(name, accuracy, classNames, numSamples, timestamp);
    RecordMapLookups(name, accuracy, classNames, numSamples, timestamp);
    DecodeFields(info, name, accuracy, classNames, numSamples, timestamp, fileName, filePath);
  }

  lemma RecordMapLookups(name: string, accuracy: int, classNames: seq<string>, numSamples: int, timestamp: int)
    ensures var info := RecordMap(name, accuracy, classNames, numSamples, timestamp);
      && "name" in info && info["name"] == name
      && "accuracy" in info && info["accuracy"] == IntToString(accuracy)
      && "classNames" in info && info["classNames"] == Join(classNames, ",")
      && "numSamples" in info && info["numSamples"] == IntToString(numSamples)
      && "timestamp" in info && info["timestamp"] == IntToString(timestamp)
  {
  }

  /** Decoding a map that holds the five fields written as text. */
  lemma DecodeFields(info: map<string, string>, name: string, accuracy: int, classNames: seq<string>,
                     numSamples: int, timestamp: int, fileName: string, filePath: string)
    requires "name" in info && info["name"] == name
    requires "accuracy" in info && info["accuracy"] == IntToString(accuracy)
    requires "classNames" in info && info["classNames"] == Join(classNames, ",")
    requires "numSamples" in info && info["numSamples"] == IntToString(numSamples)
    requires "timestamp" in info && info["timestamp"] == IntToString(timestamp)
    requires forall k :: 0 <= k < |classNames| ==> PlainClassName(classNames[k])
    requires MinInt32 <= numSamples <= MaxInt32 && MinInt64 <= timestamp <= MaxInt64
    ensures DecodeInfo(info, fileName, filePath)
      == ModelInfo(name, fileName, accuracy, ClassNamesReadBack(classNames), numSamples, timestamp, filePath)
  {
    IntFieldOf(info, "accuracy", accuracy);
    Int32FieldOf(info, "numSamples", numSamples);
    Int64FieldOf(info, "timestamp", timestamp);
    ClassNamesRoundTrip(classNames);
  }

  lemma IntFieldOf(info: map<string, string>, key: string, n: int)
    requires key in info && info[key] == IntToString(n)
    ensures IntField(info, key) == n
  {
    ParseIntegerRoundTrip(n);
  }

  lemma Int32FieldOf(info: map<string, string>, key: string, n: int)
    requires key in info && info[key] == IntToString(n) && MinInt32 <= n <= MaxInt32
    ensures Int32Field(info, key) == n
  {
    IntRoundTrip(n);
  }

  lemma Int64FieldOf(info: map<string, string>, key: string, n: int)
    requires key in info && info[key] == IntToString(n) && MinInt64 <= n <= MaxInt64
    ensures Int64Field(info, key) == n
  {
    LongRoundTrip(n);
  }

  /** The .info text parses back to the map of the five fields. */
  lemma RecordParsesBack(name: string, accuracy: int, classNames: seq<string>, numSamples: int, timestamp: int)
    requires NoLineBreak(name) && forall k :: 0 <= k < |classNames| ==> NoLineBreak(classNames[k])
    ensures InfoMap(ReadLines(InfoContent(name, accuracy, classNames, numSamples, timestamp)))
      == RecordMap(name, accuracy, classNames, numSamples, timestamp)
  {
    var lines := InfoLines(name, accuracy, classNames, numSamples, timestamp);
    InfoContentIsLines(name, accuracy, classNames, numSamples, timestamp);
    InfoLinesAreFields(name, accuracy, classNames, numSamples, timestamp);
    forall k | 0 <= k < |lines| ensures '\n' !in lines[k] && '\r' !in lines[k] {
      assert FieldLine(lines[k]);
    }
    SplitJoin(lines, '\n');
    assert "\n" == ['\n'];
    JoinFreeOf(lines, '\n', '\r');
    LinesWithoutReturn(Join(lines, "\n"));
    assert lines[4] != "";
    InfoMapOfRecord(name, accuracy, classNames, numSamples, timestamp);
  }

  /** joinToString(",") read back with split(",") and trim. */
  lemma ClassNamesRoundTrip(classNames: seq<string>)
    requires forall k :: 0 <= k < |classNames| ==> PlainClassName(classNames[k])
    ensures TrimAll(Split(Join(classNames, ","), ',')) == ClassNamesReadBack(classNames)
  {
    if classNames == [] {
      SplitEmpty(',');
      assert Trim("") == "";
    } else {
      assert "," == [','];
      SplitJoin(classNames, ',');
    }
  }

  // ---------------------------------------------------------------------------
  // Listing

  /** A file getAllModels lists: directly in the models directory, with extension
      "model". */
  predicate IsModelFile(path: string)
    ensures IsModelFile(path) <==> exists stem :: '/' !in stem && path == ModelPath(stem)
  {
    ModelFileShapeIsModelPath(path);
    IsModelFileShape(path)
  }

  lemma ModelFileShapeIsModelPath(path: string)
    ensures IsModelFileShape(path) <==> exists stem :: '/' !in stem && path == ModelPath(stem)
  {
    if exists stem :: '/' !in stem && path == ModelPath(stem) {
      var stem :| '/' !in stem && path == ModelPath(stem);
      assert path[|ModelsDir|..] == stem + ModelExtension;
      assert '/' !in ModelExtension;
    }
    if IsModelFileShape(path) {
      var stem := path[|ModelsDir|..|path| - |ModelExtension|];
      assert path == ModelPath(stem);
      assert forall i :: 0 <= i < |stem| ==> stem[i] == path[|ModelsDir|..][i];
    }
  }

  predicate IsModelFileShape(path: string)
  {
    |path| >= |ModelsDir| + |ModelExtension| && path[..|ModelsDir|] == ModelsDir
    && '/' !in path[|ModelsDir|..] && path[|path| - |ModelExtension|..] == ModelExtension
  }

  /** nameWithoutExtension of a listed model file. */
  function StemOf(path: string): string
    requires IsModelFile(path)
  {
    path[|ModelsDir|..|path| - |ModelExtension|]
  }

  lemma ModelPathIsListed(stem: string)
    requires '/' !in stem
    ensures IsModelFile(ModelPath(stem)) && StemOf(ModelPath(stem)) == stem
  {
    var p := ModelPath(stem);
    assert p[|ModelsDir|..] == stem + ModelExtension;
    assert '/' !in ModelExtension;
  }

  /** The entry getAllModels builds for a listed model file whose .info exists. */
  function CatalogueEntry(files: map<string, string>, path: string): ModelInfo
    requires IsModelFile(path) && InfoPath(StemOf(path)) in files
  {
    DecodeInfo(InfoMap(ReadLines(files[InfoPath(StemOf(path))])), StemOf(path), path)
  }

  predicate Catalogued(files: map<string, string>, path: string)
  {
    path in files && IsModelFile(path) && InfoPath(StemOf(path)) in files
  }

  /** One entry per model file that has its .info beside it. */
  function CatalogueEntries(files: map<string, string>): set<ModelInfo>
  {
    set path | path in files && Catalogued(files, path) :: CatalogueEntry(files, path)
  }

  predicate SortedByTimestampDesc(models: seq<ModelInfo>)
  {
    forall i, j :: 0 <= i < j < |models| ==> models[i].timestamp >= models[j].timestamp
  }

  /** Insert after every entry at least as recent, as a stable sort does. */
  function InsertByTimestamp(sorted: seq<ModelInfo>, m: ModelInfo): (r: seq<ModelInfo>)
    ensures multiset(r) == multiset(sorted) + multiset{m}
  {
    if sorted == [] then [m]
    else if sorted[0].timestamp < m.timestamp then [m] + sorted
    else
      assert sorted == [sorted[0]] + sorted[1..];
      [sorted[0]] + InsertByTimestamp(sorted[1..], m)
  }

  lemma {:induction false} InsertKeepsOrder(sorted: seq<ModelInfo>, m: ModelInfo)
    requires SortedByTimestampDesc(sorted)
    ensures SortedByTimestampDesc(InsertByTimestamp(sorted, m))
  {
    if sorted != [] && sorted[0].timestamp >= m.timestamp {
      var rest := InsertByTimestamp(sorted[1..], m);
      InsertKeepsOrder(sorted[1..], m);
      forall x | x in rest ensures x.timestamp <= sorted[0].timestamp {
        assert x in multiset(rest);
        if x != m {
          assert x in multiset(sorted[1..]);
          var j :| 0 <= j < |sorted[1..]| && sorted[1..][j] == x;
          assert sorted[j + 1] == x;
        }
      }
      SortedCons(sorted[0], rest);
    }
  }

  /** An entry at least as recent as every entry of a sorted list can go in front. */
  lemma SortedCons(x: ModelInfo, rest: seq<ModelInfo>)
    requires SortedByTimestampDesc(rest)
    requires forall y | y in rest :: y.timestamp <= x.timestamp
    ensures SortedByTimestampDesc([x] + rest)
  {
    var r := [x] + rest;
    forall i, j | 0 <= i < j < |r| ensures r[i].timestamp >= r[j].timestamp {
      if i == 0 {
        assert r[j] == rest[j - 1] && r[j] in rest;
      } else {
        assert r[i] == rest[i - 1] && r[j] == rest[j - 1];
      }
    }
  }

  /** sortedByDescending { it.timestamp }. */
  function SortByTimestampDesc(models: seq<ModelInfo>): (r: seq<ModelInfo>)
    ensures SortedByTimestampDesc(r)
    ensures multiset(r) == multiset(models)
  {
    if models == [] then []
    else
      assert models == models[..|models| - 1] + [models[|models| - 1]];
      var sortedPrefix := SortByTimestampDesc(models[..|models| - 1]);
      InsertKeepsOrder(sortedPrefix, models[|models| - 1]);
      InsertByTimestamp(sortedPrefix, models[|models| - 1])
  }

  // ---------------------------------------------------------------------------
  // Model names

  /** The class pieces of a generated name: each class name without spaces, cut to its
      first 8 characters. */
  function ModelNamePieces(classNames: seq<string>): (r: seq<string>)
    ensures |r| == |classNames|
    ensures forall k :: 0 <= k < |r| ==>
      var full := RemoveSpaces(classNames[k]);
      |r[k]| == (if |full| <= 8 then |full| else 8) && r[k] == full[..|r[k]|] && ' ' !in r[k]
  {
    seq(|classNames|, i requires 0 <= i < |classNames| => Take(RemoveSpaces(classNames[i]), 8))
  }

  /** generateModelName(classNames, accuracy): the pieces joined with '_' and cut to 30,
      between "model_" and "_<percent>pct". The percent is the accuracy already scaled and
      truncated. The class part is the first min(30, length) characters of the joined
      pieces, and no space survives anywhere. */
  function GenerateModelName(classNames: seq<string>, accuracyPercent: int): (r: string)
    ensures var joined := Join(ModelNamePieces(classNames), "_");
      exists part :: |part| == (if |joined| <= 30 then |joined| else 30) && part == joined[..|part|]
        && r == "model_" + part + "_" + IntToString(accuracyPercent) + "pct"
    ensures ' ' !in r
  {
    var pieces := ModelNamePieces(classNames);
    var joined := Join(pieces, "_");
    var part := Take(joined, 30);
    assert "_" == ['_'];
    JoinFreeOf(pieces, '_', ' ');
    assert part == joined[..|part|];
    IntToStringChars(accuracyPercent, ' ');
    NoSpaceInFrame(part, IntToString(accuracyPercent));
    "model_" + part + "_" + IntToString(accuracyPercent) + "pct"
  }

  lemma NoSpaceInFrame(part: string, percent: string)
    requires ' ' !in part && ' ' !in percent
    ensures ' ' !in "model_" + part + "_" + percent + "pct"
  {
  }

  /** The directory after saveModel copied the source to <stem>.model and wrote the
      record to <stem>.info. */
  function SavedFiles(files: map<string, string>, sourceFilePath: string, name: string, accuracy: int,
                      classNames: seq<string>, numSamples: int, timestamp: int): map<string, string>
    requires sourceFilePath in files
  {
    var stem := FileStem(name, timestamp);
    files[ModelPath(stem) := files[sourceFilePath]]
         [InfoPath(stem) := InfoContent(name, accuracy, classNames, numSamples, timestamp)]
  }

  /** A saved model is listed, and its entry carries what was saved. */
  lemma SavedModelIsListed(files: map<string, string>, sourceFilePath: string, name: string, accuracy: int,
                           classNames: seq<string>, numSamples: int, timestamp: int)
    requires sourceFilePath in files
    requires NoLineBreak(name)
    requires forall k :: 0 <= k < |classNames| ==> PlainClassName(classNames[k])
    requires MinInt32 <= numSamples <= MaxInt32 && MinInt64 <= timestamp <= MaxInt64
    ensures var stem := FileStem(name, timestamp);
      ModelInfo(name, stem, accuracy, ClassNamesReadBack(classNames), numSamples, timestamp, ModelPath(stem))
        in CatalogueEntries(SavedFiles(files, sourceFilePath, name, accuracy, classNames, numSamples, timestamp))
  {
    var stem := FileStem(name, timestamp);
    var after := SavedFiles(files, sourceFilePath, name, accuracy, classNames, numSamples, timestamp);
    var path := ModelPath(stem);
    ModelPathIsListed(stem);
    assert path in after && InfoPath(stem) in after;
    assert Catalogued(after, path);
    assert after[InfoPath(stem)] == InfoContent(name, accuracy, classNames, numSamples, timestamp);
    InfoRoundTrip(name, accuracy, classNames, numSamples, timestamp, stem, path);
    assert CatalogueEntry(after, path) in CatalogueEntries(after);
  }

  /** Whether a path lies in the models directory, at any depth. */
  predicate InModelsDir(path: string)
  {
    |path| >= |ModelsDir| && path[..|ModelsDir|] == ModelsDir
  }

  // ---------------------------------------------------------------------------
  // The manager

  class ModelManager {
    /** Every file under the app's files directory, by relative path. */
    var files: map<string, string>
    /** Whether File.delete() succeeds on a path. */
    const canDelete: string -> bool

    constructor (files: map<string, string>, canDelete: string -> bool)
      ensures this.files == files && this.canDelete == canDelete
    {
      this.files := files;
      this.canDelete := canDelete;
    }

    /** saveModel(name, accuracy, classNames, numSamples, sourceFilePath): copy the source
        to <stem>.model, overwriting, then write the record to <stem>.info. A missing
        source makes the copy throw, and then nothing is written. The timestamp is the
        clock reading. */
    method SaveModel(name: string, accuracy: int, classNames: seq<string>, numSamples: int,
                     sourceFilePath: string, timestamp: int) returns (saved: bool)
      modifies this`files
      ensures saved <==> sourceFilePath in old(files)
      ensures !saved ==> files == old(files)
      ensures saved ==> files == SavedFiles(old(files), sourceFilePath, name, accuracy, classNames, numSamples, timestamp)
    {
      var fileName := FileStem(name, timestamp);
      if sourceFilePath !in files {
        return false;
      }
      files := files[ModelPath(fileName) := files[sourceFilePath]];
      files := files[InfoPath(fileName) := InfoContent(name, accuracy, classNames, numSamples, timestamp)];
      return true;
    }

    /** loadModel(fileName, targetPath): copy <fileName>.model over the target; false,
        with nothing touched, when that file does not exist. */
    method LoadModel(fileName: string, targetPath: string) returns (loaded: bool)
      modifies this`files
      ensures loaded <==> ModelPath(fileName) in old(files)
      ensures !loaded ==> files == old(files)
      ensures loaded ==> files == old(files)[targetPath := old(files)[ModelPath(fileName)]]
    {
      var modelFile := ModelPath(fileName);
      if modelFile !in files {
        return false;
      }
      files := files[targetPath := files[modelFile]];
      return true;
    }

    /** deleteModel(fileName): delete whichever of the two files exist; true exactly when
        every existing one was deleted. */
    method DeleteModel(fileName: string) returns (success: bool)
      modifies this`files
      ensures success <==>
        (ModelPath(fileName) !in old(files) || canDelete(ModelPath(fileName)))
        && (InfoPath(fileName) !in old(files) || canDelete(InfoPath(fileName)))
      ensures forall p :: p in files <==>
        p in old(files) && !((p == ModelPath(fileName) || p == InfoPath(fileName)) && canDelete(p))
      ensures forall p :: p in files ==> files[p] == old(files)[p]
    {
      var modelFile := ModelPath(fileName);
      var infoFile := InfoPath(fileName);
      success := true;
      if modelFile in files {
        var deleted := canDelete(modelFile);
        if deleted {
          files := files - {modelFile};
        }
        success := deleted && success;
      }
      if infoFile in files {
        var deleted := canDelete(infoFile);
        if deleted {
          files := files - {infoFile};
        }
        success := deleted && success;
      }
    }

    /** clearAllModels(): deleteRecursively on the models directory, whose Boolean result
        is ignored, then create the directory again. Every file in the directory that
        File.delete() removes is gone; a file it refuses stays. */
    method ClearAllModels() returns (cleared: bool)
      modifies this`files
      ensures cleared
      ensures files == Cleared(old(files), canDelete)
    {
      files := Cleared(files, canDelete);
      return true;
    }

    /** parseInfoFile(file): read the lines, split each at its first '=', keep the lines
        that have one; a later key overwrites an earlier one. */
    static method ParseInfoFile(content: string) returns (info: map<string, string>)
      ensures info == InfoMap(ReadLines(content))
    {
      var lines := ReadLines(content);
      info := map[];
      for i := 0 to |lines|
        invariant info == InfoMap(lines[..i])
      {
        assert lines[..i + 1][..i] == lines[..i];
        var parts := Entry(lines[i]);
        if parts.Some? {
          info := info[parts.value.0 := parts.value.1];
        }
      }
      assert lines[..|lines|] == lines;
    }

    /** getAllModels(): for every model file in the directory, in the order the directory
        lists them, the entry built from its .info when that exists; then sorted by
        timestamp, most recent first. */
    method GetAllModels() returns (models: seq<ModelInfo>)
      ensures SortedByTimestampDesc(models)
      ensures forall m :: m in models <==> m in CatalogueEntries(files)
      ensures forall m :: multiset(models)[m] <= 1
    {
      var collected := CollectModels();
      DistinctOnce(collected);
      models := SortByTimestampDesc(collected);
      forall m ensures m in models <==> m in collected {
        assert m in models <==> multiset(models)[m] > 0;
        assert m in collected <==> multiset(collected)[m] > 0;
      }
    }

    /** The loop of getAllModels: one entry per listed model file with an .info, in the
        order the listing yields them. */
    method CollectModels() returns (collected: seq<ModelInfo>)
      ensures forall m :: m in collected <==> m in CatalogueEntries(files)
      ensures forall i, j :: 0 <= i < j < |collected| ==> collected[i].filePath != collected[j].filePath
    {
      var listing := set path | path in files && IsModelFile(path);
      collected := [];
      ghost var done: set<string> := {};
      while listing != {}
        invariant forall path :: path in listing <==> path in files && IsModelFile(path) && path !in done
        invariant CollectedSoFar(files, collected, done)
        decreases |listing|
      {
        var modelFile :| modelFile in listing;
        VisitKeepsCollected(files, collected, done, modelFile);
        var fileName := StemOf(modelFile);
        var infoFile := InfoPath(fileName);
        if infoFile in files {
          var info := ParseInfoFile(files[infoFile]);
          var entry := DecodeInfo(info, fileName, modelFile);
          assert entry == CatalogueEntry(files, modelFile);
          collected := collected + [entry];
        }
        listing := listing - {modelFile};
        done := done + {modelFile};
      }
      CollectedAllEntries(files, collected, done);
    }
  }

  /** What the loop of getAllModels has built after visiting the files in `done`: one
      entry per visited catalogued file, each for a distinct path. */
  ghost predicate CollectedSoFar(files: map<string, string>, collected: seq<ModelInfo>, done: set<string>)
  {
    && (forall i :: 0 <= i < |collected| ==> EntryFor(files, collected[i], done))
    && (forall path :: path in done && Catalogued(files, path) ==> CatalogueEntry(files, path) in collected)
    && (forall i, j :: 0 <= i < j < |collected| ==> collected[i].filePath != collected[j].filePath)
  }

  /** Visiting one more model file keeps CollectedSoFar, whether or not an entry is added. */
  lemma VisitKeepsCollected(files: map<string, string>, collected: seq<ModelInfo>, done: set<string>, modelFile: string)
    requires CollectedSoFar(files, collected, done)
    requires modelFile in files && IsModelFile(modelFile) && modelFile !in done
    ensures InfoPath(StemOf(modelFile)) in files ==>
      CollectedSoFar(files, collected + [CatalogueEntry(files, modelFile)], done + {modelFile})
    ensures InfoPath(StemOf(modelFile)) !in files ==> CollectedSoFar(files, collected, done + {modelFile})
  {
    var done' := done + {modelFile};
    forall i | 0 <= i < |collected| ensures EntryFor(files, collected[i], done') {
      assert EntryFor(files, collected[i], done);
    }
    if InfoPath(StemOf(modelFile)) in files {
      var entry := CatalogueEntry(files, modelFile);
      var next := collected + [entry];
      assert entry.filePath == modelFile;
      forall i | 0 <= i < |next| ensures EntryFor(files, next[i], done') {
        if i < |collected| {
          assert next[i] == collected[i];
        }
      }
      forall i, j | 0 <= i < j < |next| ensures next[i].filePath != next[j].filePath {
        if j == |collected| {
          assert EntryFor(files, collected[i], done);
        }
      }
      forall path | path in done' && Catalogued(files, path) ensures CatalogueEntry(files, path) in next {
        if path != modelFile {
          assert CatalogueEntry(files, path) in collected;
        }
      }
    }
  }

  /** Once every model file was visited, the entries built are exactly the catalogue. */
  lemma CollectedAllEntries(files: map<string, string>, collected: seq<ModelInfo>, done: set<string>)
    requires forall path :: path in files && IsModelFile(path) ==> path in done
    requires forall i :: 0 <= i < |collected| ==> EntryFor(files, collected[i], done)
    requires forall path :: path in done && Catalogued(files, path) ==> CatalogueEntry(files, path) in collected
    ensures forall m :: m in collected <==> m in CatalogueEntries(files)
  {
    forall m ensures m in collected <==> m in CatalogueEntries(files) {
      if m in collected {
        var i :| 0 <= i < |collected| && collected[i] == m;
        assert EntryFor(files, m, done);
      }
      if m in CatalogueEntries(files) {
        var path :| path in files && Catalogued(files, path) && CatalogueEntry(files, path) == m;
      }
    }
  }

  /** The entry was built for a catalogued file among those already visited. */
  ghost predicate EntryFor(files: map<string, string>, m: ModelInfo, done: set<string>)
  {
    m.filePath in done && Catalogued(files, m.filePath) && m == CatalogueEntry(files, m.filePath)
  }

  /** A list whose entries have distinct paths holds each entry once. */
  lemma {:induction false} DistinctOnce(models: seq<ModelInfo>)
    requires forall i, j :: 0 <= i < j < |models| ==> models[i].filePath != models[j].filePath
    ensures forall m :: multiset(models)[m] <= 1
  {
    if models != [] {
      var rest := models[..|models| - 1];
      var last := models[|models| - 1];
      assert models == rest + [last];
      DistinctOnce(rest);
      assert last !in rest by {
        forall i | 0 <= i < |rest| ensures rest[i] != last {
          assert rest[i].filePath != last.filePath;
        }
      }
    }
  }

  /** The files deleteRecursively leaves: those outside the models directory, with their
      contents, and those inside it that File.delete() refuses. */
  function Cleared(files: map<string, string>, canDelete: string -> bool): (r: map<string, string>)
    ensures forall p :: p in r <==> p in files && !(InModelsDir(p) && canDelete(p))
    ensures forall p :: p in r ==> r[p] == files[p]
  {
    map p | p in files && !(InModelsDir(p) && canDelete(p)) :: files[p]
  }

  /** After clearAllModels a model is listed only when File.delete() refused its model
      file, so when every file in the models directory can be deleted nothing is listed.
      The helper's checkpoint lives in the same directory and goes too when it can be
      deleted. */
  lemma ClearedCatalogueIsEmpty(files: map<string, string>, canDelete: string -> bool)
    ensures forall m :: m in CatalogueEntries(Cleared(files, canDelete)) ==> !canDelete(m.filePath)
    ensures (forall p :: p in files && InModelsDir(p) ==> canDelete(p)) ==>
      CatalogueEntries(Cleared(files, canDelete)) == {}
    ensures canDelete("trained_models/model_checkpoint") ==>
      "trained_models/model_checkpoint" !in Cleared(files, canDelete)
  {
    var after := Cleared(files, canDelete);
    forall m | m in CatalogueEntries(after) ensures !canDelete(m.filePath) {
      var path :| path in after && Catalogued(after, path) && CatalogueEntry(after, path) == m;
      ModelFileInDir(path);
    }
    assert InModelsDir("trained_models/model_checkpoint");
  }

  lemma ModelFileInDir(path: string)
    ensures IsModelFile(path) ==> InModelsDir(path)
  {
  }
}
