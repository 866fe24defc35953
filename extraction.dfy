/**
 * Field extraction from a chat message (main.py `FIELD_PATTERNS`, `extract_fields`,
 * `has_required_fields`).
 *
 * Each field is found by `re.search(LABEL\s*[:\-]\s*(.+?)(?:\n|$), text, re.IGNORECASE)` and its
 * captured group is stripped. The matcher below follows that regex step by step, including its
 * backtracking, for the five fixed labels only.
 */
module Extraction {
  import opened Wrappers
  import opened Strings

  /** The record a message yields: always exactly the five keys of `FIELD_PATTERNS`. */
  datatype Fields = Fields(data: string, valor: string, banco: string, empresa: string, cl: string)

  const DataLabel := "DATA"
  const ValorLabel := "VALOR"
  const BancoLabel := "BANCO"
  const EmpresaLabel := "EMPRESA"
  const ClLabel := "CL"

  /** The tag occurs at `p`, ignoring ASCII case; labels are not word-bounded. */
  predicate LabelAt(text: string, tag: string, p: nat) {
    p + |tag| <= |text| && forall i :: 0 <= i < |tag| ==> UpperAscii(text[p + i]) == tag[i]
  }

  /** Where a greedy `\s*` starting at `i` stops. */
  function SkipSpaces(text: string, i: nat): (j: nat)
    requires i <= |text|
    ensures i <= j <= |text|
    ensures forall k :: i <= k < j ==> IsSpace(text[k])
    ensures j == |text| || !IsSpace(text[j])
    decreases |text| - i
  {
    if i < |text| && IsSpace(text[i]) then SkipSpaces(text, i + 1) else i
  }

  /** Where the lazy `.+?` that starts at `i - 1` stops: at the first newline or the end of the text. */
  function LineEnd(text: string, i: nat): (j: nat)
    requires i <= |text|
    ensures i <= j <= |text|
    ensures forall k :: i <= k < j ==> text[k] != '\n'
    ensures j == |text| || text[j] == '\n'
    decreases |text| - i
  {
    if i < |text| && text[i] != '\n' then LineEnd(text, i + 1) else i
  }

  /**
   * Backtracking of the second `\s*`: the group starts at the last position in `[lo, hi)` whose
   * character `.` can match (anything but a newline).
   */
  function GroupStart(text: string, lo: nat, hi: nat): (s: Option<nat>)
    requires lo <= hi <= |text|
    ensures s.Some? ==> lo <= s.value < hi && text[s.value] != '\n'
    ensures s.Some? ==> forall k :: s.value < k < hi ==> text[k] == '\n'
    ensures s.None? ==> forall k :: lo <= k < hi ==> text[k] == '\n'
    decreases hi
  {
    if hi <= lo then None
    else if text[hi - 1] != '\n' then Some(hi - 1)
    else GroupStart(text, lo, hi - 1)
  }

  /** The character class `[:\-]` matches at `q`. */
  predicate SeparatorAt(text: string, q: nat) {
    q < |text| && (text[q] == ':' || text[q] == '-')
  }

  /**
   * The group the pattern captures when the match is attempted at position `p`, if it matches there:
   * it matches exactly when the label, optional whitespace and a separator are followed, somewhere
   * further on, by a character other than a newline.
   */
  function MatchAt(text: string, tag: string, p: nat): (g: Option<string>)
    ensures g.Some? ==> g.value != [] && '\n' !in g.value
    ensures g.Some? <==> LabelAt(text, tag, p) && SeparatorAt(text, SkipSpaces(text, p + |tag|))
                         && exists k :: SkipSpaces(text, p + |tag|) < k < |text| && text[k] != '\n'
  {
    if !LabelAt(text, tag, p) then None
    else
      var q := SkipSpaces(text, p + |tag|);
      if !SeparatorAt(text, q) then None
      else
        var r := SkipSpaces(text, q + 1);
        match GroupStart(text, q + 1, if r < |text| then r + 1 else r)
        case None => None
        case Some(s) =>
          var e := LineEnd(text, s + 1);
          assert forall k :: s <= k < e ==> text[k] != '\n';
          Some(text[s..e])
  }

  /**
   * `re.search` tries the positions from left to right: the first one at or after `p` where the
   * pattern matches, or `|text| + 1` when there is none.
   */
  function FirstMatch(text: string, tag: string, p: nat): (m: nat)
    requires p <= |text| + 1
    ensures p <= m <= |text| + 1
    ensures forall k :: p <= k < m ==> MatchAt(text, tag, k).None?
    ensures m <= |text| ==> MatchAt(text, tag, m).Some?
    decreases |text| + 1 - p
  {
    if p > |text| || MatchAt(text, tag, p).Some? then p else FirstMatch(text, tag, p + 1)
  }

  /** The group `re.search` captures, if the pattern matches anywhere. */
  function Search(text: string, tag: string): (g: Option<string>)
    ensures g.None? <==> forall p :: 0 <= p <= |text| ==> MatchAt(text, tag, p).None?
    ensures g.Some? ==> g.value != [] && '\n' !in g.value
  {
    var m := FirstMatch(text, tag, 0);
    if m <= |text| then MatchAt(text, tag, m) else None
  }

  /** One entry of `extract_fields`: the stripped group of the first match, or `""`. */
  function Extract(text: string, tag: string): (v: string)
    ensures '\n' !in v && NoEdgeSpace(v)
    ensures v != "" ==> exists p :: LabelAt(text, tag, p)
  {
    match Search(text, tag)
    case Some(g) => Strip(g)
    case None => ""
  }

  /** A stripped single-line value, as every extracted field is. */
  predicate CleanValue(v: string) {
    '\n' !in v && NoEdgeSpace(v)
  }

  /** `extract_fields`. */
  function ExtractFields(text: string): (f: Fields)
    ensures CleanValue(f.data) && CleanValue(f.valor) && CleanValue(f.banco)
    ensures CleanValue(f.empresa) && CleanValue(f.cl)
    ensures f.data != "" ==> exists p :: LabelAt(text, DataLabel, p)
    ensures f.valor != "" ==> exists p :: LabelAt(text, ValorLabel, p)
  {
    Fields(Extract(text, DataLabel), Extract(text, ValorLabel), Extract(text, BancoLabel),
           Extract(text, EmpresaLabel), Extract(text, ClLabel))
  }

  /** `has_required_fields`: `DATA` and `VALOR` are both non-empty. */
  predicate HasRequiredFields(f: Fields) {
    f.data != "" && f.valor != ""
  }

  /** Eligibility depends on `DATA` and `VALOR` only, whatever the optional fields hold. */
  lemma RequiredFieldsIgnoreOptional(f: Fields, banco: string, empresa: string, cl: string)
    ensures HasRequiredFields(f) <==> f.data != "" && f.valor != ""
    ensures HasRequiredFields(f) == HasRequiredFields(f.(banco := banco, empresa := empresa, cl := cl))
  {
  }

  /** A message without a `DATA` label, or without a `VALOR` label, is not a payment entry. */
  lemma MissingLabelIgnored(text: string)
    requires (forall p :: !LabelAt(text, DataLabel, p)) || (forall p :: !LabelAt(text, ValorLabel, p))
    ensures !HasRequiredFields(ExtractFields(text))
  {
  }

  /** `re.search` returns the match at the leftmost position where the pattern matches. */
  lemma SearchLeftmost(text: string, tag: string, p: nat)
    requires forall k :: 0 <= k < p ==> MatchAt(text, tag, k).None?
    requires MatchAt(text, tag, p).Some?
    ensures Search(text, tag) == MatchAt(text, tag, p)
  {
    var m := FirstMatch(text, tag, 0);
    assert m == p;
  }

  /**
   * At a label followed by a separator run and a value that runs to the end of its line, the
   * pattern captures that value. The run `gap` is one `:` or `-` at position `j` with whitespace
   * (line breaks included) on either side, so `LABEL: v`, `LABEL:v`, `LABEL - v` and a value on the
   * next line are all covered; the value starts with a non-space.
   */
  lemma MatchLabelledLine(text: string, tag: string, p: nat, gap: string, j: nat, v: string)
    requires LabelAt(text, tag, p) && p + |tag| + |gap| + |v| <= |text|
    requires j < |gap| && (gap[j] == ':' || gap[j] == '-')
    requires forall i :: 0 <= i < |gap| && i != j ==> IsSpace(gap[i])
    requires text[p + |tag|..p + |tag| + |gap|] == gap
    requires text[p + |tag| + |gap|..p + |tag| + |gap| + |v|] == v
    requires p + |tag| + |gap| + |v| == |text| || text[p + |tag| + |gap| + |v|] == '\n'
    requires v != [] && !IsSpace(v[0]) && '\n' !in v
    ensures MatchAt(text, tag, p) == Some(v)
  {
    var a := p + |tag|;
    var b := a + |gap|;
    SliceOf(text, a, gap);
    SliceOf(text, b, v);
    SeparatorRun(text, a, gap, j);
    ValueRun(text, b, v);
    MatchAtSteps(text, tag, p, a + j, b, v);
  }

  /** `\s*[:\-]\s*` over the run `gap` at `a`, when a non-space follows it. */
  lemma SeparatorRun(text: string, a: nat, gap: string, j: nat)
    requires a + |gap| < |text| && !IsSpace(text[a + |gap|])
    requires forall i :: 0 <= i < |gap| ==> text[a + i] == gap[i]
    requires j < |gap| && (gap[j] == ':' || gap[j] == '-')
    requires forall i :: 0 <= i < |gap| && i != j ==> IsSpace(gap[i])
    ensures SkipSpaces(text, a) == a + j && SeparatorAt(text, a + j)
    ensures SkipSpaces(text, a + j + 1) == a + |gap|
  {
    forall k | a <= k < a + |gap| && k != a + j
      ensures IsSpace(text[k])
    {
      assert text[k] == gap[k - a];
    }
    assert text[a + j] == gap[j];
    SkipTo(text, a, a + j);
    SkipTo(text, a + j + 1, a + |gap|);
  }

  /** The lazy group over a value `v` at `b` that runs to the end of its line. */
  lemma ValueRun(text: string, b: nat, v: string)
    requires b + |v| <= |text| && forall i :: 0 <= i < |v| ==> text[b + i] == v[i]
    requires b + |v| == |text| || text[b + |v|] == '\n'
    requires v != [] && '\n' !in v
    ensures LineEnd(text, b + 1) == b + |v|
  {
    forall k | b + 1 <= k < b + |v|
      ensures text[k] != '\n'
    {
      assert text[k] == v[k - b];
    }
    LineTo(text, b + 1, b + |v|);
  }

  /** A greedy `\s*` from `i` over a whitespace run stops where the run ends. */
  lemma SkipTo(text: string, i: nat, n: nat)
    requires i <= n <= |text| && forall k :: i <= k < n ==> IsSpace(text[k])
    requires n == |text| || !IsSpace(text[n])
    ensures SkipSpaces(text, i) == n
  {
  }

  /** The lazy group from `i` over characters other than a newline stops where they end. */
  lemma LineTo(text: string, i: nat, n: nat)
    requires i <= n <= |text| && forall k :: i <= k < n ==> text[k] != '\n'
    requires n == |text| || text[n] == '\n'
    ensures LineEnd(text, i) == n
  {
  }

  /** A slice equal to `w` at `b`, read character by character. */
  lemma SliceOf(text: string, b: nat, w: string)
    requires b + |w| <= |text| && text[b..b + |w|] == w
    ensures forall i :: 0 <= i < |w| ==> text[b + i] == w[i]
  {
    forall i | 0 <= i < |w|
      ensures text[b + i] == w[i]
    {
      assert text[b..b + |w|][i] == text[b + i];
    }
  }

  /** `MatchAt` followed step by step, for a group `v` that starts at `b`. */
  lemma MatchAtSteps(text: string, tag: string, p: nat, q: nat, b: nat, v: string)
    requires LabelAt(text, tag, p) && SkipSpaces(text, p + |tag|) == q && SeparatorAt(text, q)
    requires q + 1 <= b && b + |v| <= |text| && SkipSpaces(text, q + 1) == b
    requires v != [] && v[0] != '\n' && LineEnd(text, b + 1) == b + |v|
    requires forall i :: 0 <= i < |v| ==> text[b + i] == v[i]
    ensures MatchAt(text, tag, p) == Some(v)
  {
    assert text[b] == v[0];
    assert GroupStart(text, q + 1, b + 1) == Some(b);
    assert text[b..b + |v|] == v;
  }

  /**
   * A labelled line after a prefix in which the label never occurs yields its value, stripped:
   * the pattern stops at the line break, and `extract_fields` strips the group. The label may be
   * written in any case, and the separator run is as in `MatchLabelledLine`.
   */
  lemma ExtractLabelledLine(text: string, pre: string, head: string, gap: string, j: nat, v: string, post: string,
                            tag: string)
    requires text == pre + head + gap + v + post
    requires forall k :: 0 <= k < |pre| ==> !LabelAt(text, tag, k)
    requires |head| == |tag| && forall i :: 0 <= i < |tag| ==> UpperAscii(head[i]) == tag[i]
    requires j < |gap| && (gap[j] == ':' || gap[j] == '-')
    requires forall i :: 0 <= i < |gap| && i != j ==> IsSpace(gap[i])
    requires post == [] || post[0] == '\n'
    requires v != [] && !IsSpace(v[0]) && '\n' !in v
    ensures Extract(text, tag) == Strip(v)
  {
    var p := |pre|;
    var a := p + |tag|;
    var e := a + |gap| + |v|;
    assert text[p..a] == head;
    HeadIsLabel(text, p, head, tag);
    assert text[a..a + |gap|] == gap;
    assert text[a + |gap|..e] == v;
    assert e == |text| || text[e] == '\n';
    MatchLabelledLine(text, tag, p, gap, j, v);
    SearchLeftmost(text, tag, p);
  }

  /** The label written in any case, at `p`. */
  lemma HeadIsLabel(text: string, p: nat, head: string, tag: string)
    requires p + |head| <= |text| && text[p..p + |head|] == head
    requires |head| == |tag| && forall i :: 0 <= i < |tag| ==> UpperAscii(head[i]) == tag[i]
    ensures LabelAt(text, tag, p)
  {
    SliceOf(text, p, head);
  }

  /** A labelled line whose value has no trailing whitespace yields that value unchanged. */
  lemma ExtractCleanLine(text: string, pre: string, head: string, gap: string, j: nat, v: string, post: string,
                         tag: string)
    requires text == pre + head + gap + v + post
    requires forall k :: 0 <= k < |pre| ==> !LabelAt(text, tag, k)
    requires |head| == |tag| && forall i :: 0 <= i < |tag| ==> UpperAscii(head[i]) == tag[i]
    requires j < |gap| && (gap[j] == ':' || gap[j] == '-')
    requires forall i :: 0 <= i < |gap| && i != j ==> IsSpace(gap[i])
    requires post == [] || post[0] == '\n'
    requires v != [] && CleanValue(v)
    ensures Extract(text, tag) == v
  {
    ExtractLabelledLine(text, pre, head, gap, j, v, post, tag);
    StripFixed(v);
  }

  /** At position 0, the `DATA` pattern captures the whole next line. */
  lemma DataMatchCrossesNewline(t: string)
    requires t == "DATA: \nVALOR: 10"
    ensures MatchAt(t, DataLabel, 0) == Some("VALOR: 10")
  {
    assert |DataLabel| == 4 && t[4] == ':';
    assert LabelAt(t, DataLabel, 0);
    assert SkipSpaces(t, 4) == 4;
    assert SkipSpaces(t, 5) == 7 by {
      assert IsSpace(t[5]) && IsSpace(t[6]) && !IsSpace(t[7]);
      assert SkipSpaces(t, 7) == 7;
    }
    assert |t| == 16;
    assert GroupStart(t, 5, 8) == Some(7);
    assert LineEnd(t, 8) == 16;
    assert t[7..16] == "VALOR: 10";
  }

  /** The `\s*` after the separator crosses a line break, so an empty `DATA:` swallows the next line. */
  lemma ValueCrossesNewline(t: string)
    requires t == "DATA: \nVALOR: 10"
    ensures ExtractFields(t).data == "VALOR: 10"
  {
    DataMatchCrossesNewline(t);
    assert FirstMatch(t, DataLabel, 0) == 0;
    StripFixed("VALOR: 10");
  }

  /** At position 1, the `CL` pattern captures `y`. */
  lemma ClMatchInsideWord(t: string)
    requires t == "XCL: y"
    ensures MatchAt(t, ClLabel, 1) == Some("y")
  {
    assert |ClLabel| == 2 && t[3] == ':';
    assert LabelAt(t, ClLabel, 1);
    assert SkipSpaces(t, 3) == 3;
    assert SkipSpaces(t, 4) == 5 by { assert SkipSpaces(t, 5) == 5; }
    assert |t| == 6;
    assert GroupStart(t, 4, 6) == Some(5);
    assert LineEnd(t, 6) == 6;
    assert t[5..6] == "y";
  }

  /** Labels are not word-bounded: `XCL: y` fills `CL`. */
  lemma LabelInsideWord(t: string)
    requires t == "XCL: y"
    ensures ExtractFields(t).cl == "y"
  {
    ClMatchInsideWord(t);
    assert !LabelAt(t, ClLabel, 0) by {
      assert ClLabel[0] == 'C' && t[0] == 'X';
      assert UpperAscii(t[0]) == 'X';
    }
    assert FirstMatch(t, ClLabel, 0) == 1 by {
      assert MatchAt(t, ClLabel, 0).None?;
      assert FirstMatch(t, ClLabel, 1) == 1;
    }
    StripFixed("y");
  }
}
