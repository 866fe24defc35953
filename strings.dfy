/**
 * Character classes and string helpers with the meaning Python gives them in main.py:
 * `\s` and `str.strip()` (restricted to ASCII), `str.replace`, `"_".join` and decimal rendering.
 */
module Strings {

  /** Python's `str.isspace()` (and the regex class `\s`) restricted to ASCII. */
  predicate IsSpace(c: char) {
    c == ' ' || c == '\t' || c == '\n' || c == '\r' || c == '\U{B}' || c == '\U{C}'
    || ('\U{1C}' <= c <= '\U{1F}')
  }

  predicate IsDigit(c: char) {
    '0' <= c <= '9'
  }

  function DigitValue(c: char): (n: nat)
    requires IsDigit(c)
    ensures n < 10
  {
    c as int - '0' as int
  }

  function DigitChar(n: nat): (c: char)
    requires n < 10
    ensures IsDigit(c) && DigitValue(c) == n
  {
    ('0' as int + n) as char
  }

  /** ASCII upper-casing, the case folding the model gives `re.IGNORECASE`. */
  function UpperAscii(c: char): (u: char)
    ensures 'a' <= c <= 'z' ==> u as int == c as int - 32
    ensures !('a' <= c <= 'z') ==> u == c
  {
    if 'a' <= c <= 'z' then (c as int - 32) as char else c
  }

  /** Neither the first nor the last character is whitespace: what `strip()` leaves. */
  predicate NoEdgeSpace(s: string) {
    s == [] || (!IsSpace(s[0]) && !IsSpace(s[|s| - 1]))
  }

  /** `s.lstrip()`: drops the longest all-whitespace prefix. */
  function TrimLeft(s: string): (r: string)
    ensures |r| <= |s| && r == s[|s| - |r|..]
    ensures r == [] || !IsSpace(r[0])
    ensures forall i :: 0 <= i < |s| - |r| ==> IsSpace(s[i])
  {
    if |s| > 0 && IsSpace(s[0]) then TrimLeft(s[1..]) else s
  }

  /** `s.rstrip()`: drops the longest all-whitespace suffix. */
  function TrimRight(s: string): (r: string)
    ensures |r| <= |s| && r == s[..|r|]
    ensures r == [] || !IsSpace(r[|r| - 1])
    ensures forall i :: |r| <= i < |s| ==> IsSpace(s[i])
  {
    if |s| > 0 && IsSpace(s[|s| - 1]) then TrimRight(s[..|s| - 1]) else s
  }

  /** `s.strip()`. */
  function Strip(s: string): (r: string)
    ensures NoEdgeSpace(r)
    ensures |r| <= |s|
    ensures forall c :: c in r ==> c in s
  {
    var l := TrimLeft(s);
    var r := TrimRight(l);
    assert forall c :: c in r ==> c in l;
    r
  }

  /**
   * `strip()` keeps exactly the middle of `s` that starts after its leading whitespace; everything
   * before and after that middle is whitespace.
   */
  lemma StripMiddle(s: string)
    ensures var r := Strip(s); var k := |s| - |TrimLeft(s)|;
            k + |r| <= |s| && (forall i :: 0 <= i < |r| ==> r[i] == s[k + i])
            && (forall i :: 0 <= i < k ==> IsSpace(s[i]))
            && (forall i :: k + |r| <= i < |s| ==> IsSpace(s[i]))
  {
    var l := TrimLeft(s);
    var r := TrimRight(l);
    assert Strip(s) == r;
    TrimmedMiddle(s, l, r);
  }

  /** Trimming the left and then the right end leaves a slice of `s` with whitespace on both sides. */
  lemma TrimmedMiddle(s: string, l: string, r: string)
    requires |l| <= |s| && l == s[|s| - |l|..] && |r| <= |l| && r == l[..|r|]
    requires forall i :: |r| <= i < |l| ==> IsSpace(l[i])
    ensures var k := |s| - |l|; k + |r| <= |s| && forall i :: 0 <= i < |r| ==> r[i] == s[k + i]
    ensures forall i :: |s| - |l| + |r| <= i < |s| ==> IsSpace(s[i])
  {
    var k := |s| - |l|;
    forall i | 0 <= i < |r| ensures r[i] == s[k + i] {
      assert r[i] == l[i];
    }
    forall i | k + |r| <= i < |s| ensures IsSpace(s[i]) {
      assert s[i] == l[i - k];
    }
  }

  lemma {:induction false} TrimLeftFixed(s: string)
    requires s == [] || !IsSpace(s[0])
    ensures TrimLeft(s) == s
  {
  }

  lemma {:induction false} TrimRightFixed(s: string)
    requires s == [] || !IsSpace(s[|s| - 1])
    ensures TrimRight(s) == s
  {
  }

  /** A string that `strip()` would not change is returned unchanged: `strip()` is idempotent. */
  lemma {:induction false} StripFixed(s: string)
    requires NoEdgeSpace(s)
    ensures Strip(s) == s
  {
    TrimLeftFixed(s);
    TrimRightFixed(s);
  }

  /** Trailing whitespace after a part that ends in a non-space only trims the tail. */
  lemma {:induction false} TrimRightAppend(a: string, b: string)
    requires a != [] && !IsSpace(a[|a| - 1])
    ensures TrimRight(a + b) == a + TrimRight(b)
    decreases |b|
  {
    if |b| > 0 && IsSpace(b[|b| - 1]) {
      assert (a + b)[..|a + b| - 1] == a + b[..|b| - 1];
      TrimRightAppend(a, b[..|b| - 1]);
    }
  }

  /** `strip()` keeps a prefix that starts and ends with a non-space character. */
  lemma StripKeepsPrefix(a: string, b: string)
    requires a != [] && !IsSpace(a[0]) && !IsSpace(a[|a| - 1])
    ensures Strip(a + b) == a + TrimRight(b)
  {
    assert (a + b)[0] == a[0];
    TrimLeftFixed(a + b);
    TrimRightAppend(a, b);
  }

  /** `s.replace(x, y)` for single characters. */
  function ReplaceChar(s: string, x: char, y: char): (r: string)
    ensures |r| == |s|
    ensures forall i :: 0 <= i < |s| ==> r[i] == (if s[i] == x then y else s[i])
  {
    if s == [] then [] else [if s[0] == x then y else s[0]] + ReplaceChar(s[1..], x, y)
  }

  /** `s.replace(x, "")` for a single character. */
  function RemoveChar(s: string, x: char): (r: string)
    ensures x !in r
    ensures |r| <= |s|
  {
    if s == [] then [] else (if s[0] == x then [] else [s[0]]) + RemoveChar(s[1..], x)
  }

  /** Every character other than `x` is kept, as often as it occurs. */
  lemma {:induction false} RemoveCharCount(s: string, x: char)
    ensures multiset(RemoveChar(s, x)) == multiset(s)[x := 0]
    ensures |RemoveChar(s, x)| == |s| - multiset(s)[x]
  {
    if s != [] {
      assert s == [s[0]] + s[1..];
      RemoveCharCount(s[1..], x);
    }
  }

  lemma {:induction false} RemoveCharAppend(a: string, b: string, x: char)
    ensures RemoveChar(a + b, x) == RemoveChar(a, x) + RemoveChar(b, x)
  {
    if a != [] {
      assert (a + b)[1..] == a[1..] + b;
      RemoveCharAppend(a[1..], b, x);
    } else {
      assert a + b == b;
    }
  }

  lemma {:induction false} RemoveCharAbsent(s: string, x: char)
    requires x !in s
    ensures RemoveChar(s, x) == s
  {
    if s != [] {
      RemoveCharAbsent(s[1..], x);
    }
  }

  /** Removing the one occurrence of `x` between two parts joins the parts. */
  lemma RemoveCharSplit(s: string, head: string, tail: string, x: char)
    requires s == head + [x] + tail && x !in head && x !in tail
    ensures RemoveChar(s, x) == head + tail
  {
    var hx := head + [x];
    assert s == hx + tail;
    RemoveCharAppend(hx, tail, x);
    RemoveCharAppend(head, [x], x);
    assert RemoveChar([x], x) == [] by {
      assert [x][1..] == [];
    }
    RemoveCharAbsent(head, x);
    RemoveCharAbsent(tail, x);
    assert RemoveChar(hx, x) == head;
  }

  /** `sep.join(parts)`. */
  function Join(parts: seq<string>, sep: string): (r: string)
  {
    if parts == [] then []
    else if |parts| == 1 then parts[0]
    else parts[0] + sep + Join(parts[1..], sep)
  }

  /** A join starts with the first part, followed by the separator when more parts follow. */
  lemma JoinStartsWithFirst(parts: seq<string>, sep: string)
    requires parts != []
    ensures |parts[0]| <= |Join(parts, sep)| && Join(parts, sep)[..|parts[0]|] == parts[0]
    ensures |parts| >= 2 ==> |parts[0]| + |sep| <= |Join(parts, sep)|
                              && Join(parts, sep)[|parts[0]|..|parts[0]| + |sep|] == sep
  {
    if |parts| >= 2 {
      var r := Join(parts, sep);
      assert r == parts[0] + sep + Join(parts[1..], sep);
      assert r[..|parts[0]|] == parts[0];
    }
  }

  /** A join ends with the last part. */
  lemma {:induction false} JoinEndsWithLast(parts: seq<string>, sep: string)
    requires parts != []
    ensures |parts[|parts| - 1]| <= |Join(parts, sep)|
    ensures Join(parts, sep)[|Join(parts, sep)| - |parts[|parts| - 1]|..] == parts[|parts| - 1]
  {
    if |parts| >= 2 {
      var tail := parts[1..];
      JoinEndsWithLast(tail, sep);
      var t := Join(tail, sep);
      var last := parts[|parts| - 1];
      assert tail[|tail| - 1] == last;
      var r := Join(parts, sep);
      assert r == parts[0] + sep + t;
      assert r[|r| - |last|..] == t[|t| - |last|..];
    }
  }

  /** `str(n)` for a natural number: decimal digits without leading zeros. */
  function NatToDecimal(n: nat): (r: string)
    ensures r != [] && forall i :: 0 <= i < |r| ==> IsDigit(r[i])
    ensures DecimalValue(r) == n
    ensures |r| == 1 || r[0] != '0'
    decreases n
  {
    assert DecimalValue("0") == 0;
    if n < 10 then [DigitChar(n)] else NatToDecimal(n / 10) + [DigitChar(n % 10)]
  }

  /** The number a string of decimal digits denotes. */
  function DecimalValue(s: string): (n: nat)
    requires forall i :: 0 <= i < |s| ==> IsDigit(s[i])
  {
    if s == [] then 0 else 10 * DecimalValue(s[..|s| - 1]) + DigitValue(s[|s| - 1])
  }

  /** `n` as exactly `width` decimal digits, zero-padded (`%02d`, `%04d`). */
  function Pad(n: nat, width: nat): (r: string)
    ensures |r| == width
    ensures forall i :: 0 <= i < |r| ==> IsDigit(r[i])
    decreases width
  {
    if width == 0 then [] else Pad(n / 10, width - 1) + [DigitChar(n % 10)]
  }

  /** Zero padding loses nothing when the number fits the width. */
  lemma {:induction false} PadValue(n: nat, width: nat, bound: nat)
    requires bound == Power10(width) && n < bound
    ensures DecimalValue(Pad(n, width)) == n
    decreases width
  {
    if width > 0 {
      var p := Pad(n, width);
      assert p[..|p| - 1] == Pad(n / 10, width - 1);
      PadValue(n / 10, width - 1, Power10(width - 1));
    }
  }

  function Power10(k: nat): (p: nat)
    ensures p >= 1
  {
    if k == 0 then 1 else 10 * Power10(k - 1)
  }

  /** A prefix of a prefix is a prefix. */
  lemma PrefixOfPrefix(s: string, a: string, n: nat)
    requires |s| >= |a| && s[..|a|] == a && n <= |a|
    ensures |s| >= n && s[..n] == a[..n]
  {
    assert s[..n] == s[..|a|][..n];
  }
}
