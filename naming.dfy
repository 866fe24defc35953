/**
 * Folder names derived from an extracted record (main.py `sanitize_folder_name`,
 * `build_folder_name`, `get_month_folder_name`). "Now" is a parameter.
 */
module Naming {
  import opened Wrappers
  import opened Strings
  import opened Calendar
  import opened Extraction

  /** The characters `sanitize_folder_name` replaces: `\ / : * ? " < > |`. */
  predicate IsForbidden(c: char) {
    c == '\\' || c == '/' || c == ':' || c == '*' || c == '?' || c == '"' || c == '<' || c == '>' || c == '|'
  }

  predicate NoForbidden(s: string) {
    forall i :: 0 <= i < |s| ==> !IsForbidden(s[i])
  }

  /** A name a folder may carry: no forbidden character and no surrounding whitespace. */
  predicate SafeName(s: string) {
    NoForbidden(s) && NoEdgeSpace(s)
  }

  /** `re.sub(r'[\\/:*?"<>|]', "_", s)`. */
  function ReplaceForbidden(s: string): (r: string)
    ensures |r| == |s| && NoForbidden(r)
    ensures forall i :: 0 <= i < |s| && !IsForbidden(s[i]) ==> r[i] == s[i]
    ensures forall i :: 0 <= i < |s| && IsForbidden(s[i]) ==> r[i] == '_'
  {
    if s == [] then [] else [if IsForbidden(s[0]) then '_' else s[0]] + ReplaceForbidden(s[1..])
  }

  /**
   * `sanitize_folder_name`: every forbidden character becomes `_` and only the whitespace at
   * either end is dropped, so replacing and then stripping is stripping and then replacing.
   */
  function Sanitize(name: string): (r: string)
    ensures SafeName(r)
    ensures |r| <= |name|
    ensures r == ReplaceForbidden(Strip(name))
  {
    var replaced := ReplaceForbidden(name);
    var r := Strip(replaced);
    NoForbiddenKept(replaced, r);
    StripReplaceForbidden(name);
    r
  }

  /** Replacing keeps whitespace where it is: a forbidden character and `_` are not whitespace. */
  lemma ReplaceForbiddenSpaces(s: string)
    ensures forall i :: 0 <= i < |s| ==> (IsSpace(ReplaceForbidden(s)[i]) <==> IsSpace(s[i]))
  {
  }

  /** Replacing commutes with taking a slice. */
  lemma ReplaceForbiddenSlice(s: string, i: nat, j: nat)
    requires i <= j <= |s|
    ensures ReplaceForbidden(s)[i..j] == ReplaceForbidden(s[i..j])
  {
    ReplacedSlice(s, ReplaceForbidden(s), s[i..j], ReplaceForbidden(s[i..j]), i, j);
  }

  /** Replaced(s, r): `r` is `s` with each forbidden character turned into `_`. */
  predicate Replaced(s: string, r: string)
  {
    |r| == |s| && forall k :: 0 <= k < |s| ==> r[k] == (if IsForbidden(s[k]) then '_' else s[k])
  }

  lemma ReplacedSlice(s: string, r: string, part: string, rpart: string, i: nat, j: nat)
    requires i <= j <= |s| && part == s[i..j]
    requires Replaced(s, r) && Replaced(part, rpart)
    ensures r[i..j] == rpart
  {
    forall k | 0 <= k < j - i
      ensures r[i..j][k] == rpart[k]
    {
      assert part[k] == s[i + k];
    }
  }

  lemma {:induction false} TrimLeftReplaceForbidden(s: string)
    ensures TrimLeft(ReplaceForbidden(s)) == ReplaceForbidden(TrimLeft(s))
    decreases |s|
  {
    if |s| > 0 {
      ReplaceForbiddenSpaces(s);
      ReplaceForbiddenSlice(s, 1, |s|);
      if IsSpace(s[0]) {
        TrimLeftReplaceForbidden(s[1..]);
      }
    }
  }

  lemma {:induction false} TrimRightReplaceForbidden(s: string)
    ensures TrimRight(ReplaceForbidden(s)) == ReplaceForbidden(TrimRight(s))
    decreases |s|
  {
    if |s| > 0 {
      ReplaceForbiddenSpaces(s);
      ReplaceForbiddenSlice(s, 0, |s| - 1);
      if IsSpace(s[|s| - 1]) {
        TrimRightReplaceForbidden(s[..|s| - 1]);
      }
    }
  }

  /** Stripping and replacing commute. */
  lemma StripReplaceForbidden(s: string)
    ensures Strip(ReplaceForbidden(s)) == ReplaceForbidden(Strip(s))
  {
    TrimLeftReplaceForbidden(s);
    TrimRightReplaceForbidden(TrimLeft(s));
  }

  /** A string made only of characters of a string without forbidden characters has none either. */
  lemma NoForbiddenKept(s: string, r: string)
    requires NoForbidden(s) && forall c :: c in r ==> c in s
    ensures NoForbidden(r)
  {
    forall i | 0 <= i < |r| ensures !IsForbidden(r[i]) {
      assert r[i] in s;
      var j :| 0 <= j < |s| && s[j] == r[i];
    }
  }

  /** The leading part of an entry folder name: the ISO date if `DATA` parses, else `DATA` with `/` as `-`. */
  function DatePart(raw: string): (r: string)
    ensures forall i :: 0 <= i < |r| ==> r[i] != '/'
    ensures ParseDayMonthYear(Strip(raw)).Some? ==> |r| == 10 && r[4] == '-' && r[7] == '-'
    ensures ParseDayMonthYear(Strip(raw)).None? ==>
              |r| == |raw| && (forall i :: 0 <= i < |raw| && raw[i] != '/' ==> r[i] == raw[i])
              && forall i :: 0 <= i < |raw| && raw[i] == '/' ==> r[i] == '-'
  {
    match ParseDayMonthYear(Strip(raw))
    case Some(d) =>
      IsoDateNoSlash(d);
      IsoDate(d)
    case None => ReplaceChar(raw, '/', '-')
  }

  lemma IsoDateNoSlash(d: Date)
    requires ValidDate(d)
    ensures forall i :: 0 <= i < |IsoDate(d)| ==> IsoDate(d)[i] != '/'
  {
    IsoDateSafe(d);
    assert forall i :: 0 <= i < |IsoDate(d)| ==> (IsoDate(d) + "_")[i] == IsoDate(d)[i];
  }

  /** When `DATA` parses, the date part spells the year, month and day it was read as. */
  lemma DatePartReadsBack(raw: string, d: Date)
    requires ParseDayMonthYear(Strip(raw)) == Some(d)
    ensures AllDigits(DatePart(raw)[..4]) && DecimalValue(DatePart(raw)[..4]) == d.year
    ensures AllDigits(DatePart(raw)[5..7]) && DecimalValue(DatePart(raw)[5..7]) == d.month
    ensures AllDigits(DatePart(raw)[8..]) && DecimalValue(DatePart(raw)[8..]) == d.day
  {
    IsoDateReadsBack(d);
  }

  /** The stripped optional values that are non-empty, in order. */
  function PresentParts(values: seq<string>): (r: seq<string>)
    ensures |r| <= |values|
    ensures forall i :: 0 <= i < |r| ==> r[i] != "" && NoEdgeSpace(r[i])
  {
    if values == [] then []
    else (if Strip(values[0]) != "" then [Strip(values[0])] else []) + PresentParts(values[1..])
  }

  /** The parts `build_folder_name` joins with `_`. */
  function FolderParts(f: Fields): (parts: seq<string>)
    ensures 2 <= |parts| <= 5
  {
    [DatePart(f.data), RemoveChar(f.valor, ' ')] + PresentParts([f.banco, f.empresa, f.cl])
  }

  /** `build_folder_name`. */
  function BuildFolderName(f: Fields): (r: string)
    ensures SafeName(r)
  {
    Sanitize(Join(FolderParts(f), "_"))
  }

  /** `get_month_folder_name`: the month of `DATA`, or of `now` when `DATA` does not parse. */
  function MonthFolderName(f: Fields, now: Date): (r: string)
    requires ValidDate(now)
    ensures ParseDayMonthYear(Strip(f.data)).Some? ==> r + "-" == DatePart(f.data)[..8]
    ensures ParseDayMonthYear(Strip(f.data)).None? ==> r == YearMonth(now)
  {
    match ParseDayMonthYear(Strip(f.data))
    case Some(d) =>
      IsoDateExtendsYearMonth(d);
      YearMonth(d)
    case None => YearMonth(now)
  }

  lemma {:induction false} ReplaceForbiddenFixed(s: string)
    requires NoForbidden(s)
    ensures ReplaceForbidden(s) == s
  {
    var r := ReplaceForbidden(s);
    assert forall i :: 0 <= i < |s| ==> r[i] == s[i];
  }

  lemma {:induction false} ReplaceForbiddenAppend(a: string, b: string)
    ensures ReplaceForbidden(a + b) == ReplaceForbidden(a) + ReplaceForbidden(b)
  {
    var l, r := ReplaceForbidden(a + b), ReplaceForbidden(a) + ReplaceForbidden(b);
    assert forall i :: 0 <= i < |a + b| ==> l[i] == r[i];
  }

  /** Sanitizing twice is sanitizing once. */
  lemma {:induction false} SanitizeIdempotent(name: string)
    ensures Sanitize(Sanitize(name)) == Sanitize(name)
  {
    var once := Sanitize(name);
    ReplaceForbiddenFixed(once);
    StripFixed(once);
  }

  /** When the joined parts are already a safe name, the entry folder name is exactly that join. */
  lemma BuildFolderNameOfSafeJoin(f: Fields)
    requires SafeName(Join(FolderParts(f), "_"))
    ensures BuildFolderName(f) == Join(FolderParts(f), "_")
  {
    SanitizeSafe(Join(FolderParts(f), "_"));
  }

  /** A safe name is left as it is. */
  lemma {:induction false} SanitizeSafe(name: string)
    requires SafeName(name)
    ensures Sanitize(name) == name
  {
    ReplaceForbiddenFixed(name);
    StripFixed(name);
  }

  /** Sanitizing keeps a leading part that is safe on its own and ends in a non-space. */
  lemma {:induction false} SanitizeKeepsPrefix(a: string, b: string)
    requires a != [] && NoForbidden(a) && NoEdgeSpace(a)
    ensures |Sanitize(a + b)| >= |a| && Sanitize(a + b)[..|a|] == a
  {
    ReplaceForbiddenAppend(a, b);
    ReplaceForbiddenFixed(a);
    StripKeepsPrefix(a, ReplaceForbidden(b));
  }

  lemma {:induction false} JoinFirst(parts: seq<string>)
    requires |parts| >= 2
    ensures Join(parts, "_") == parts[0] + "_" + Join(parts[1..], "_")
  {
  }

  /** A blank optional field, wherever it stands, contributes no part. */
  lemma {:induction false} PresentPartsSkipsBlank(before: seq<string>, v: string, after: seq<string>)
    requires Strip(v) == ""
    ensures PresentParts(before + [v] + after) == PresentParts(before + after)
    decreases |before|
  {
    if before == [] {
      assert (before + [v] + after)[1..] == after;
      assert before + after == after;
    } else {
      assert (before + [v] + after)[1..] == before[1..] + [v] + after;
      assert (before + after)[1..] == before[1..] + after;
      PresentPartsSkipsBlank(before[1..], v, after);
    }
  }

  /** Present optional fields all appear, stripped, in their original order. */
  lemma {:induction false} PresentPartsAllPresent(values: seq<string>)
    requires forall i :: 0 <= i < |values| ==> Strip(values[i]) != ""
    ensures |PresentParts(values)| == |values|
    ensures forall i :: 0 <= i < |values| ==> PresentParts(values)[i] == Strip(values[i])
  {
    if values != [] {
      PresentPartsAllPresent(values[1..]);
    }
  }

  /** The parts of a name, as `build_folder_name` lists them. */
  lemma FolderPartsUnfold(f: Fields)
    ensures FolderParts(f) == [DatePart(f.data), RemoveChar(f.valor, ' ')] + PresentParts([f.banco, f.empresa, f.cl])
  {
  }

  lemma FiveParts(a: string, b: string, rest: seq<string>, x: string, y: string, z: string)
    requires |rest| == 3 && rest[0] == x && rest[1] == y && rest[2] == z
    ensures var p := [a, b] + rest;
            |p| == 5 && p[0] == a && p[1] == b && p[2] == x && p[3] == y && p[4] == z
  {
  }

  lemma ThreePresent(values: seq<string>)
    requires |values| == 3 && Strip(values[0]) != "" && Strip(values[1]) != "" && Strip(values[2]) != ""
    ensures var r := PresentParts(values);
            |r| == 3 && r[0] == Strip(values[0]) && r[1] == Strip(values[1]) && r[2] == Strip(values[2])
  {
    forall i | 0 <= i < |values|
      ensures Strip(values[i]) != ""
    {
      assert i == 0 || i == 1 || i == 2;
    }
    PresentPartsAllPresent(values);
  }

  /** With all three optional fields present, the name has five parts, the optional ones stripped. */
  lemma FolderPartsAllPresent(f: Fields)
    requires Strip(f.banco) != "" && Strip(f.empresa) != "" && Strip(f.cl) != ""
    ensures var parts := FolderParts(f);
            |parts| == 5 && parts[0] == DatePart(f.data) && parts[1] == RemoveChar(f.valor, ' ')
            && parts[2] == Strip(f.banco) && parts[3] == Strip(f.empresa) && parts[4] == Strip(f.cl)
  {
    var values := [f.banco, f.empresa, f.cl];
    FolderPartsUnfold(f);
    ThreePresent(values);
    FiveParts(DatePart(f.data), RemoveChar(f.valor, ' '), PresentParts(values),
              Strip(f.banco), Strip(f.empresa), Strip(f.cl));
  }

  /** The month folder name is always a well-formed `YYYY-MM`, whether `DATA` parses or not. */
  lemma MonthFolderNameWellFormed(f: Fields, now: Date)
    requires ValidDate(now)
    ensures IsYearMonthName(MonthFolderName(f, now))
  {
    match ParseDayMonthYear(Strip(f.data))
    case Some(d) => IsoDateExtendsYearMonth(d);
    case None => IsoDateExtendsYearMonth(now);
  }

  /** `part` followed by `_` can lead a name that is sanitized: it is safe on its own. */
  predicate SafeLeadingPart(part: string) {
    NoForbidden(part + "_") && NoEdgeSpace(part + "_")
  }

  lemma IsoDateSafe(d: Date)
    requires ValidDate(d)
    ensures SafeLeadingPart(IsoDate(d))
  {
    var s := IsoDate(d) + "_";
    assert forall i :: 0 <= i < |s| ==> IsDigit(s[i]) || s[i] == '-' || s[i] == '_';
  }

  /** Whatever the first part is, a safe first part survives sanitizing, followed by `_`. */
  lemma {:induction false} EntryNameStartsWithFirstPart(f: Fields)
    requires SafeLeadingPart(FolderParts(f)[0])
    ensures var a := FolderParts(f)[0] + "_";
            |BuildFolderName(f)| >= |a| && BuildFolderName(f)[..|a|] == a
  {
    var parts := FolderParts(f);
    JoinFirst(parts);
    SanitizeKeepsPrefix(parts[0] + "_", Join(parts[1..], "_"));
  }

  /** When `DATA` parses, the entry folder name starts with the zero-padded `YYYY-MM-DD` and a `_`. */
  lemma {:induction false} EntryNameStartsWithDate(f: Fields, d: Date)
    requires ParseDayMonthYear(Strip(f.data)) == Some(d)
    ensures |BuildFolderName(f)| >= 11 && BuildFolderName(f)[..11] == IsoDate(d) + "_"
  {
    var first := FolderParts(f)[0];
    assert first == IsoDate(d);
    IsoDateSafe(d);
    EntryNameStartsWithFirstPart(f);
  }

  lemma IsoDateStartsWithMonth(d: Date)
    requires ValidDate(d)
    ensures (IsoDate(d) + "_")[..8] == YearMonth(d) + "-"
  {
    IsoDateExtendsYearMonth(d);
    assert (IsoDate(d) + "_")[..8] == IsoDate(d)[..8];
  }

  /** When `DATA` parses, the entry folder name starts with the month folder name followed by `-`. */
  lemma {:induction false} EntryNameStartsWithMonth(f: Fields, d: Date, now: Date)
    requires ValidDate(now)
    requires ParseDayMonthYear(Strip(f.data)) == Some(d)
    ensures |BuildFolderName(f)| >= 8 && BuildFolderName(f)[..8] == MonthFolderName(f, now) + "-"
  {
    EntryNameStartsWithDate(f, d);
    IsoDateStartsWithMonth(d);
    PrefixOfPrefix(BuildFolderName(f), IsoDate(d) + "_", 8);
    assert MonthFolderName(f, now) == YearMonth(d);
  }

  /**
   * When `DATA` does not parse, the name starts with `DATA` itself, `/` turned into `-`, and a `_`,
   * provided `DATA` is non-empty, starts with a non-space and holds no other forbidden character.
   */
  lemma {:induction false} EntryNameStartsWithRawDate(f: Fields)
    requires ParseDayMonthYear(Strip(f.data)).None?
    requires CleanRawDate(f.data)
    ensures var a := ReplaceChar(f.data, '/', '-') + "_";
            |BuildFolderName(f)| >= |a| && BuildFolderName(f)[..|a|] == a
  {
    assert FolderParts(f)[0] == ReplaceChar(f.data, '/', '-');
    RawDateSafe(f.data);
    EntryNameStartsWithFirstPart(f);
  }

  /** Non-empty, starting with a non-space, and with no forbidden character other than `/`. */
  predicate CleanRawDate(raw: string) {
    raw != [] && !IsSpace(raw[0]) && forall i :: 0 <= i < |raw| ==> raw[i] == '/' || !IsForbidden(raw[i])
  }

  lemma RawDateSafe(raw: string)
    requires CleanRawDate(raw)
    ensures SafeLeadingPart(ReplaceChar(raw, '/', '-'))
  {
    var replaced := ReplaceChar(raw, '/', '-');
    var a := replaced + "_";
    forall i | 0 <= i < |a| ensures !IsForbidden(a[i]) {
      if i < |replaced| {
        assert a[i] == replaced[i];
      }
    }
    assert a[0] == replaced[0];
  }
}
