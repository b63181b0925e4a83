/** Values and text operations shared by every part of the model: an Option type for
    Kotlin's nullable results, and the few Kotlin string functions the app relies on
    (case-insensitive search, take, replace, joinToString, split, trim, and the
    Int/Long <-> decimal text conversions). */
module Common {

  datatype Option<+T> = None | Some(value: T)

  // ---------------------------------------------------------------------------
  // Characters

  /** ASCII case folding; Kotlin's lowercase() agrees with it on ASCII letters. */
  function LowerChar(c: char): (r: char)
    ensures 'A' <= c <= 'Z' ==> r as int == c as int + 32
    ensures !('A' <= c <= 'Z') ==> r == c
  {
    if 'A' <= c <= 'Z' then (c as int + 32) as char else c
  }

  function Lower(s: string): (r: string)
    ensures |r| == |s|
    ensures forall i :: 0 <= i < |s| ==> r[i] == LowerChar(s[i])
  {
    seq(|s|, i requires 0 <= i < |s| => LowerChar(s[i]))
  }

  /** Kotlin's Char.isWhitespace(): Java's whitespace characters plus the space separators. */
  predicate IsWhitespace(c: char)
  {
    c == ' ' || c == '\t' || c == '\n' || c == '\r' || c == '\U{0B}' || c == '\U{0C}'
    || ('\U{1C}' <= c <= '\U{1F}') || c == '\U{A0}' || c == '\U{1680}'
    || ('\U{2000}' <= c <= '\U{200A}') || c == '\U{2028}' || c == '\U{2029}'
    || c == '\U{202F}' || c == '\U{205F}' || c == '\U{3000}'
  }

  predicate IsBlank(s: string)
  {
    forall i :: 0 <= i < |s| ==> IsWhitespace(s[i])
  }

  predicate IsDigit(c: char)
  {
    '0' <= c <= '9'
  }

  // ---------------------------------------------------------------------------
  // Searching

  predicate OccursAt(s: string, sub: string, i: int)
  {
    0 <= i && i + |sub| <= |s| && s[i..i + |sub|] == sub
  }

  /** String.contains(other). */
  predicate Contains(s: string, sub: string)
  {
    exists i :: 0 <= i <= |s| - |sub| && OccursAt(s, sub, i)
  }

  /** String.contains(other, ignoreCase = true), on ASCII case. */
  predicate ContainsIgnoreCase(s: string, sub: string)
  {
    Contains(Lower(s), Lower(sub))
  }

  lemma ContainsItself(s: string)
    ensures Contains(s, s)
  {
    assert OccursAt(s, s, 0);
  }

  /** If `sub` occurs in the piece `mid` of `pre + mid + post`, it occurs in the whole. */
  lemma {:induction false} ContainsInMiddle(pre: string, mid: string, post: string, sub: string)
    requires Contains(mid, sub)
    ensures Contains(pre + mid + post, sub)
  {
    var i :| 0 <= i <= |mid| - |sub| && OccursAt(mid, sub, i);
    var whole := pre + mid + post;
    assert whole[|pre| + i..|pre| + i + |sub|] == mid[i..i + |sub|];
    assert OccursAt(whole, sub, |pre| + i);
  }

  // ---------------------------------------------------------------------------
  // Building strings

  /** String.take(n). */
  function Take(s: string, n: nat): (r: string)
    ensures |r| <= n && |r| <= |s|
    ensures |r| == if |s| <= n then |s| else n
    ensures r == s[..|r|]
  {
    if |s| <= n then s else s[..n]
  }

  /** String.replace(" ", ""): every space removed, every other character kept in order. */
  function RemoveSpaces(s: string): (r: string)
    ensures |r| <= |s|
    ensures forall i :: 0 <= i < |r| ==> r[i] != ' '
    ensures multiset(r) == multiset(s)[' ' := 0]
  {
    if s == [] then []
    else
      var rest := RemoveSpaces(s[1..]);
      assert s == [s[0]] + s[1..];
      if s[0] == ' ' then rest else [s[0]] + rest
  }

  /** joinToString(sep). */
  function Join(parts: seq<string>, sep: string): (r: string)
  {
    if |parts| == 0 then ""
    else if |parts| == 1 then parts[0]
    else parts[0] + sep + Join(parts[1..], sep)
  }

  /** Every piece of a joined list occurs in the joined text. */
  lemma {:induction false} JoinContainsParts(parts: seq<string>, sep: string, k: nat)
    requires k < |parts|
    ensures Contains(Join(parts, sep), parts[k])
  {
    if |parts| == 1 {
      ContainsItself(parts[0]);
    } else if k == 0 {
      ContainsItself(parts[0]);
      ContainsInMiddle([], parts[0], sep + Join(parts[1..], sep), parts[0]);
      assert [] + parts[0] + (sep + Join(parts[1..], sep)) == Join(parts, sep);
    } else {
      JoinContainsParts(parts[1..], sep, k - 1);
      ContainsInMiddle(parts[0] + sep, Join(parts[1..], sep), [], parts[k]);
      assert parts[0] + sep + Join(parts[1..], sep) + [] == Join(parts, sep);
    }
  }

  /** A joined text with a one-character separator contains that character only where
      a piece does, or between two pieces. */
  lemma {:induction false} JoinFreeOf(parts: seq<string>, sep: char, c: char)
    requires c != sep
    requires forall k :: 0 <= k < |parts| ==> c !in parts[k]
    ensures c !in Join(parts, [sep])
  {
    if |parts| > 1 {
      JoinFreeOf(parts[1..], sep, c);
    }
  }

  // ---------------------------------------------------------------------------
  // Splitting

  /** The longest prefix of s free of the delimiter. */
  function UntilChar(s: string, d: char): (r: string)
    ensures |r| <= |s|
    ensures d !in r
    ensures r == s[..|r|]
    ensures |r| < |s| ==> s[|r|] == d
  {
    if s == [] || s[0] == d then [] else [s[0]] + UntilChar(s[1..], d)
  }

  /** split(d.toString()): every occurrence of d separates two pieces; the result is
      never empty ("" splits into [""]). */
  function Split(s: string, d: char): (r: seq<string>)
    ensures |r| >= 1
    ensures forall k :: 0 <= k < |r| ==> d !in r[k]
    decreases |s|
  {
    var head := UntilChar(s, d);
    if |head| == |s| then [s] else [head] + Split(s[|head| + 1..], d)
  }

  /** Splitting undoes joining, as long as no piece contains the delimiter
      (an empty list comes back as one empty piece, see SplitEmpty). */
  lemma {:induction false} SplitJoin(parts: seq<string>, d: char)
    requires |parts| >= 1
    requires forall k :: 0 <= k < |parts| ==> d !in parts[k]
    ensures Split(Join(parts, [d]), d) == parts
  {
    var j := Join(parts, [d]);
    if |parts| == 1 {
      UntilWhole(parts[0], d);
    } else {
      var rest := Join(parts[1..], [d]);
      assert j == parts[0] + [d] + rest;
      UntilPrefix(parts[0], rest, d);
      assert j[|parts[0]| + 1..] == rest;
      SplitJoin(parts[1..], d);
    }
  }

  /** The longest prefix of s holding no line break, '\n' or '\r'. */
  function UntilLineBreak(s: string): (r: string)
    ensures |r| <= |s| && r == s[..|r|]
    ensures '\n' !in r && '\r' !in r
    ensures |r| < |s| ==> s[|r|] == '\n' || s[|r|] == '\r'
  {
    if s == [] || s[0] == '\n' || s[0] == '\r' then [] else [s[0]] + UntilLineBreak(s[1..])
  }

  /** lines(): the pieces between line breaks, a line break being "\r\n", "\n" or "\r";
      never empty ("" gives [""]). */
  function Lines(s: string): (r: seq<string>)
    ensures |r| >= 1
    ensures forall k :: 0 <= k < |r| ==> '\n' !in r[k] && '\r' !in r[k]
    decreases |s|
  {
    var head := UntilLineBreak(s);
    if |head| == |s| then [s]
    else
      var width := if s[|head|] == '\r' && |head| + 1 < |s| && s[|head| + 1] == '\n' then 2 else 1;
      [head] + Lines(s[|head| + width..])
  }

  /** readLines(): the lines of lines(), except that no line follows a final line break
      and empty text has no line at all. */
  function ReadLines(s: string): (r: seq<string>)
    ensures r == Lines(s) || r == Lines(s)[..|Lines(s)| - 1]
    ensures s == [] ==> r == []
  {
    var lines := Lines(s);
    if lines[|lines| - 1] == "" then lines[..|lines| - 1] else lines
  }

  /** Text without a carriage return breaks into lines exactly at '\n'. */
  lemma {:induction false} LinesWithoutReturn(s: string)
    requires '\r' !in s
    ensures Lines(s) == Split(s, '\n')
    decreases |s|
  {
    UntilLineBreakWithoutReturn(s);
    var head := UntilChar(s, '\n');
    if |head| < |s| {
      assert s[|head|] == '\n';
      var rest := s[|head| + 1..];
      FreeOfSuffix(s, |head| + 1, '\r');
      LinesWithoutReturn(rest);
      assert Lines(s) == [head] + Lines(rest);
      assert Split(s, '\n') == [head] + Split(rest, '\n');
    }
  }

  lemma {:induction false} UntilLineBreakWithoutReturn(s: string)
    requires '\r' !in s
    ensures UntilLineBreak(s) == UntilChar(s, '\n')
  {
    if s != [] && s[0] != '\n' {
      FreeOfSuffix(s, 1, '\r');
      UntilLineBreakWithoutReturn(s[1..]);
    }
  }

  lemma FreeOfSuffix(s: string, k: nat, c: char)
    requires k <= |s| && c !in s
    ensures c !in s[k..]
  {
    forall i | 0 <= i < |s| - k ensures s[k..][i] != c {
      assert s[k..][i] == s[k + i];
    }
  }

  lemma SplitEmpty(d: char)
    ensures Split("", d) == [""]
  {
  }

  lemma {:induction false} UntilWhole(s: string, d: char)
    requires d !in s
    ensures UntilChar(s, d) == s
  {
    if s != [] {
      UntilWhole(s[1..], d);
    }
  }

  lemma {:induction false} UntilPrefix(a: string, b: string, d: char)
    requires d !in a
    ensures UntilChar(a + [d] + b, d) == a
  {
    if a != [] {
      assert (a + [d] + b)[1..] == a[1..] + [d] + b;
      UntilPrefix(a[1..], b, d);
    }
  }

  /** split(d.toString(), limit = 2): the text before the first d and the text after it. */
  function SplitAtFirst(s: string, d: char): (r: Option<(string, string)>)
    ensures r.None? <==> d !in s
    ensures r.Some? ==> d !in r.value.0 && s == r.value.0 + [d] + r.value.1
  {
    var head := UntilChar(s, d);
    if |head| == |s| then None
    else
      assert s == head + [d] + s[|head| + 1..];
      Some((head, s[|head| + 1..]))
  }

  // ---------------------------------------------------------------------------
  // Trimming

  function TrimStart(s: string): (r: string)
    ensures |r| <= |s|
    ensures r == s[|s| - |r|..]
    ensures r != [] ==> !IsWhitespace(r[0])
    ensures IsBlank(s[..|s| - |r|])
  {
    if s == [] || !IsWhitespace(s[0]) then s
    else
      var r := TrimStart(s[1..]);
      var cut := |s| - |r|;
      assert s[cut..] == s[1..][cut - 1..];
      assert forall i :: 1 <= i < cut ==> s[..cut][i] == s[1..][..cut - 1][i - 1];
      r
  }

  function TrimEnd(s: string): (r: string)
    ensures |r| <= |s|
    ensures r == s[..|r|]
    ensures r != [] ==> !IsWhitespace(r[|r| - 1])
    ensures IsBlank(s[|r|..])
  {
    if s == [] || !IsWhitespace(s[|s| - 1]) then s
    else
      var t := s[..|s| - 1];
      var r := TrimEnd(t);
      assert t[..|r|] == s[..|r|];
      assert s[|r|..] == t[|r|..] + [s[|s| - 1]];
      r
  }

  /** String.trim(): leading and trailing whitespace removed. */
  function Trim(s: string): (r: string)
  {
    TrimEnd(TrimStart(s))
  }

  /** Trimming leaves a string with no surrounding whitespace unchanged. */
  lemma TrimUntouched(s: string)
    requires s == [] || (!IsWhitespace(s[0]) && !IsWhitespace(s[|s| - 1]))
    ensures Trim(s) == s
  {
    assert TrimStart(s) == s;
  }

  /** Trimming takes away a non-empty blank run when there is one. */
  lemma {:induction false} TrimRemovesLeadingSpace(s: string)
    requires s != [] && IsWhitespace(s[0])
    ensures Trim(s) != s
  {
    assert |TrimStart(s)| < |s| by {
      assert TrimStart(s) == TrimStart(s[1..]);
    }
  }

  // ---------------------------------------------------------------------------
  // Decimal numbers

  const MinInt32: int := -0x8000_0000
  const MaxInt32: int := 0x7fff_ffff
  const MinInt64: int := -0x8000_0000_0000_0000
  const MaxInt64: int := 0x7fff_ffff_ffff_ffff

  function DigitChar(d: nat): (c: char)
    requires d < 10
    ensures IsDigit(c) && c as int - '0' as int == d
  {
    ('0' as int + d) as char
  }

  /** The decimal digits of n, most significant first, without leading zeros. */
  function NatToString(n: nat): (r: string)
    ensures |r| >= 1
    ensures forall i :: 0 <= i < |r| ==> IsDigit(r[i])
    decreases n
  {
    if n < 10 then [DigitChar(n)] else NatToString(n / 10) + [DigitChar(n % 10)]
  }

  /** Int.toString() / Long.toString(). */
  function IntToString(n: int): (r: string)
    ensures |r| >= 1
    ensures n >= 0 ==> r == NatToString(n)
    ensures n < 0 ==> r == "-" + NatToString(-n)
  {
    if n < 0 then "-" + NatToString(-n) else NatToString(n)
  }

  predicate AllDigits(s: string)
  {
    forall i :: 0 <= i < |s| ==> IsDigit(s[i])
  }

  function DigitsValue(s: string): (v: nat)
    requires AllDigits(s)
  {
    if s == [] then 0 else DigitsValue(s[..|s| - 1]) * 10 + (s[|s| - 1] as int - '0' as int)
  }

  /** The digits Kotlin's String.toIntOrNull/toLongOrNull accept: an optional '+' or '-'
      followed by at least one decimal digit; the value without a range check. */
  function ParseInteger(s: string): (r: Option<int>)
    ensures r.Some? <==> (|s| >= 1 && AllDigits(s)) || (|s| >= 2 && (s[0] == '-' || s[0] == '+') && AllDigits(s[1..]))
  {
    if |s| == 0 then None
    else if s[0] == '-' || s[0] == '+' then
      if |s| == 1 || !AllDigits(s[1..]) then None
      else if s[0] == '-' then Some(0 - DigitsValue(s[1..])) else Some(DigitsValue(s[1..]))
    else if AllDigits(s) then Some(DigitsValue(s)) else None
  }

  /** String.toIntOrNull(). */
  function ToIntOrNull(s: string): (r: Option<int>)
    ensures r.Some? ==> MinInt32 <= r.value <= MaxInt32
  {
    match ParseInteger(s)
    case Some(v) => if MinInt32 <= v <= MaxInt32 then Some(v) else None
    case None => None
  }

  /** String.toLongOrNull(). */
  function ToLongOrNull(s: string): (r: Option<int>)
    ensures r.Some? ==> MinInt64 <= r.value <= MaxInt64
  {
    match ParseInteger(s)
    case Some(v) => if MinInt64 <= v <= MaxInt64 then Some(v) else None
    case None => None
  }

  lemma {:induction false} DigitsOfNat(n: nat)
    ensures DigitsValue(NatToString(n)) == n
    decreases n
  {
    var s := NatToString(n);
    if n >= 10 {
      DigitsOfNat(n / 10);
      assert s[..|s| - 1] == NatToString(n / 10);
    }
  }

  /** Reading back the decimal text of any integer gives that integer. */
  lemma ParseIntegerRoundTrip(n: int)
    ensures ParseInteger(IntToString(n)) == Some(n)
  {
    var s := IntToString(n);
    if n < 0 {
      assert s[1..] == NatToString(-n);
      DigitsOfNat(-n);
    } else {
      DigitsOfNat(n);
    }
  }

  lemma IntRoundTrip(n: int)
    requires MinInt32 <= n <= MaxInt32
    ensures ToIntOrNull(IntToString(n)) == Some(n)
  {
    ParseIntegerRoundTrip(n);
  }

  lemma LongRoundTrip(n: int)
    requires MinInt64 <= n <= MaxInt64
    ensures ToLongOrNull(IntToString(n)) == Some(n)
  {
    ParseIntegerRoundTrip(n);
  }

  /** The decimal text of an integer holds no character outside '-' and the digits. */
  lemma IntToStringChars(n: int, c: char)
    requires c != '-' && !IsDigit(c)
    ensures c !in IntToString(n)
  {
  }

  // ---------------------------------------------------------------------------
  // Case-insensitive equality and counters

  /** String.equals(other, ignoreCase = true), with ASCII case folding. */
  predicate EqualsIgnoreCase(a: string, b: string)
  {
    Lower(a) == Lower(b)
  }

  /** The count of a key in a counter map; an absent key counts as 0. */
  function CountOf(counts: map<string, int>, key: string): int
  {
    if key in counts then counts[key] else 0
  }

  /** map[key] = (map[key] ?: 0) + 1. */
  function Incremented(counts: map<string, int>, key: string): map<string, int>
  {
    counts[key := CountOf(counts, key) + 1]
  }

  /** Incrementing adds one to that key's count, adds the key if absent, and changes no
      other key. */
  lemma IncrementedCounts(counts: map<string, int>, key: string, other: string)
    ensures CountOf(Incremented(counts, key), other) == CountOf(counts, other) + (if other == key then 1 else 0)
    ensures other in Incremented(counts, key) <==> other in counts || other == key
  {
  }
}
