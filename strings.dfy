/** The JavaScript string operations the core relies on, over `string` (a sequence of
    characters): lower-casing, prefix/suffix/substring tests, `lastIndexOf`, `split`/`join`
    on a single character, `trim` and the decimal rendering of a number. */
module Strings {

  // ---------------------------------------------------------------------------
  // toLowerCase
  // ---------------------------------------------------------------------------

  /** `toLowerCase` of one character; only the ASCII letters A-Z are folded. */
  function LowerChar(c: char): (r: char)
    ensures 'A' <= c <= 'Z' ==> r as int == c as int + 32
    ensures !('A' <= c <= 'Z') ==> r == c
  {
    if 'A' <= c <= 'Z' then (c as int + 32) as char else c
  }

  function ToLower(s: string): (r: string)
    ensures |r| == |s|
    ensures forall i :: 0 <= i < |s| ==> r[i] == LowerChar(s[i])
  {
    seq(|s|, i requires 0 <= i < |s| => LowerChar(s[i]))
  }

  predicate IsLowerCase(s: string) {
    forall i :: 0 <= i < |s| ==> !('A' <= s[i] <= 'Z')
  }

  lemma ToLowerIsLowerCase(s: string)
    ensures IsLowerCase(ToLower(s))
  {
  }

  /** Lower-casing a string that has no upper-case letter leaves it as it is. */
  lemma ToLowerOfLowerCase(s: string)
    requires IsLowerCase(s)
    ensures ToLower(s) == s
  {
  }

  lemma ToLowerIdempotent(s: string)
    ensures ToLower(ToLower(s)) == ToLower(s)
  {
    ToLowerIsLowerCase(s);
    ToLowerOfLowerCase(ToLower(s));
  }

  lemma ToLowerAppend(a: string, b: string)
    ensures ToLower(a + b) == ToLower(a) + ToLower(b)
  {
    assert forall i :: 0 <= i < |a + b| ==> ToLower(a + b)[i] == (ToLower(a) + ToLower(b))[i];
  }

  // ---------------------------------------------------------------------------
  // startsWith, endsWith, includes
  // ---------------------------------------------------------------------------

  predicate StartsWith(s: string, p: string) {
    |p| <= |s| && s[..|p|] == p
  }

  predicate EndsWith(s: string, p: string) {
    |p| <= |s| && s[|s| - |p|..] == p
  }

  /** `s.includes(t)`: `t` occurs in `s` at some position. */
  predicate Contains(s: string, t: string) {
    exists i :: 0 <= i <= |s| && StartsWith(s[i..], t)
  }

  /** A prefix stays a prefix when more text is appended. */
  lemma StartsWithAppend(s: string, t: string, x: string)
    requires StartsWith(s, t)
    ensures StartsWith(s + x, t)
  {
    assert (s + x)[..|t|] == s[..|t|];
  }

  /** A prefix is contained. */
  lemma StartsWithContains(s: string, t: string)
    requires StartsWith(s, t)
    ensures Contains(s, t)
  {
    assert s[0..] == s;
  }

  /** `t` occurs in `a + t + b`. */
  lemma ContainsInside(a: string, t: string, b: string)
    ensures Contains(a + t + b, t)
  {
    var s := a + t + b;
    assert s[|a|..] == t + b;
    assert (t + b)[..|t|] == t;
  }

  /** A string cannot contain a substring that has a character it lacks. */
  lemma NotContainsMissingChar(s: string, t: string, c: char)
    requires c in t && c !in s
    ensures !Contains(s, t)
  {
    var k :| 0 <= k < |t| && t[k] == c;
    forall i | 0 <= i <= |s| && |t| <= |s[i..]|
      ensures s[i..][..|t|] != t
    {
      assert s[i..][..|t|][k] == s[i + k];
    }
  }

  // ---------------------------------------------------------------------------
  // lastIndexOf, split, join
  // ---------------------------------------------------------------------------

  /** `s.lastIndexOf(c)`: the position of the last `c`, or -1 when there is none. */
  function LastIndexOf(s: string, c: char): (r: int)
    ensures -1 <= r < |s|
    ensures r == -1 <==> c !in s
    ensures r >= 0 ==> s[r] == c
    ensures forall j :: r < j < |s| ==> s[j] != c
    decreases |s|
  {
    if |s| == 0 then -1
    else if s[|s| - 1] == c then |s| - 1
    else
      var r := LastIndexOf(s[..|s| - 1], c);
      assert forall x :: x in s ==> x in s[..|s| - 1] || x == s[|s| - 1];
      r
  }

  /** `s.split(d)` for a one-character separator `d`. */
  function Split(s: string, d: char): (parts: seq<string>)
    ensures |parts| >= 1
    decreases |s|
  {
    if |s| == 0 then [""]
    else
      var rest := Split(s[1..], d);
      if s[0] == d then [""] + rest else [[s[0]] + rest[0]] + rest[1..]
  }

  /** `parts.join(sep)`; joining no parts gives the empty string. */
  function Join(parts: seq<string>, sep: string): string
    decreases |parts|
  {
    if |parts| == 0 then ""
    else if |parts| == 1 then parts[0]
    else parts[0] + sep + Join(parts[1..], sep)
  }

  /** `parts.pop()` of a non-empty array. */
  function Last(parts: seq<string>): string
    requires |parts| >= 1
  {
    parts[|parts| - 1]
  }

  /** No part of a split contains the separator. */
  lemma {:induction false} SplitPartsAvoidSeparator(s: string, d: char)
    ensures forall i :: 0 <= i < |Split(s, d)| ==> d !in Split(s, d)[i]
    decreases |s|
  {
    if |s| > 0 {
      SplitPartsAvoidSeparator(s[1..], d);
    }
  }

  /** A split has more than one part exactly when the separator occurs. */
  lemma {:induction false} SplitHasSeveralParts(s: string, d: char)
    ensures |Split(s, d)| > 1 <==> d in s
    decreases |s|
  {
    if |s| > 0 {
      SplitHasSeveralParts(s[1..], d);
      assert forall x :: x in s <==> x == s[0] || x in s[1..];
    }
  }

  /** Joining the parts of a split with the separator gives back the string. */
  lemma {:induction false} JoinSplit(s: string, d: char)
    ensures Join(Split(s, d), [d]) == s
    decreases |s|
  {
    if |s| > 0 {
      var rest := Split(s[1..], d);
      JoinSplit(s[1..], d);
      if s[0] == d {
        assert Split(s, d) == [""] + rest;
        assert ([""] + rest)[1..] == rest;
        assert Join([""] + rest, [d]) == "" + [d] + Join(rest, [d]);
      } else if |rest| == 1 {
        assert Split(s, d) == [[s[0]] + rest[0]];
      } else {
        var parts := [[s[0]] + rest[0]] + rest[1..];
        assert parts[1..] == rest[1..];
        assert Join(parts, [d]) == [s[0]] + rest[0] + [d] + Join(rest[1..], [d]);
        assert Join(rest, [d]) == rest[0] + [d] + Join(rest[1..], [d]);
      }
    }
  }

  /** Joining one more part appends the separator and that part. */
  lemma {:induction false} JoinSnoc(parts: seq<string>, x: string, sep: string)
    requires |parts| >= 1
    ensures Join(parts + [x], sep) == Join(parts, sep) + sep + x
    decreases |parts|
  {
    if |parts| == 1 {
      assert parts + [x] == [parts[0], x];
      assert [parts[0], x][1..] == [x];
    } else {
      assert (parts + [x])[1..] == parts[1..] + [x];
      JoinSnoc(parts[1..], x, sep);
    }
  }

  /** Without the separator a split has the single part that is the whole string. */
  lemma SplitWithoutSeparator(s: string, d: char)
    requires d !in s
    ensures Split(s, d) == [s]
  {
    SplitHasSeveralParts(s, d);
    JoinSplit(s, d);
  }

  /** The last part of a split is the text after the last separator, or the whole string. */
  lemma {:induction false} SplitLastIsSuffix(s: string, d: char)
    ensures Last(Split(s, d)) == s[LastIndexOf(s, d) + 1..]
    decreases |s|
  {
    if |s| == 0 {
      assert Split(s, d) == [""] && LastIndexOf(s, d) == -1;
    } else {
      SplitLastIsSuffix(s[1..], d);
      SplitLastStep(s, d);
    }
  }

  /** One step of SplitLastIsSuffix: from the tail's last part to the whole string's. */
  lemma SplitLastStep(s: string, d: char)
    requires |s| > 0
    requires Last(Split(s[1..], d)) == s[1..][LastIndexOf(s[1..], d) + 1..]
    ensures Last(Split(s, d)) == s[LastIndexOf(s, d) + 1..]
  {
    LastIndexOfCons(s, d);
    if d in s[1..] {
      SplitLastStepSeparatorInTail(s, d);
    } else {
      SplitWithoutSeparator(s[1..], d);
      if s[0] == d {
        assert Split(s, d) == [""] + [s[1..]];
      } else {
        assert Split(s, d) == [[s[0]] + s[1..]];
        assert s == [s[0]] + s[1..];
      }
    }
  }

  /** With a separator in the tail, the last part is the tail's. */
  lemma SplitLastStepSeparatorInTail(s: string, d: char)
    requires |s| > 0 && d in s[1..]
    requires Last(Split(s[1..], d)) == s[1..][LastIndexOf(s[1..], d) + 1..]
    requires LastIndexOf(s, d) == 1 + LastIndexOf(s[1..], d)
    ensures Last(Split(s, d)) == s[LastIndexOf(s, d) + 1..]
  {
    var rest := Split(s[1..], d);
    SplitHasSeveralParts(s[1..], d);
    assert Last(Split(s, d)) == Last(rest);
  }

  /** The last separator of `a`, a separator and a text without one is the one in the middle. */
  lemma LastIndexOfBeforeSuffix(a: string, d: char, b: string)
    requires d !in b
    ensures LastIndexOf(a + [d] + b, d) == |a|
    ensures (a + [d] + b)[|a| + 1..] == b
  {
    NoSeparatorInSuffix(a, d, b);
    LastIndexOfAt(a + [d] + b, d, |a|);
    SuffixAfterSeparator(a, d, b);
  }

  lemma NoSeparatorInSuffix(a: string, d: char, b: string)
    requires d !in b
    ensures (a + [d] + b)[|a|] == d
    ensures forall j :: |a| < j < |a + [d] + b| ==> (a + [d] + b)[j] != d
  {
    var s := a + [d] + b;
    forall j | |a| < j < |s|
      ensures s[j] != d
    {
      assert s[j] == b[j - |a| - 1];
    }
  }

  lemma SuffixAfterSeparator(a: string, d: char, b: string)
    ensures (a + [d] + b)[|a| + 1..] == b
  {
  }

  /** A `c` with no `c` after it is the last one. */
  lemma LastIndexOfAt(s: string, c: char, k: nat)
    requires k < |s| && s[k] == c
    requires forall j :: k < j < |s| ==> s[j] != c
    ensures LastIndexOf(s, c) == k
  {
    assert c in s;
  }

  /** How `lastIndexOf` of a string relates to that of its tail. */
  lemma LastIndexOfCons(s: string, d: char)
    requires |s| > 0
    ensures LastIndexOf(s, d) ==
      if d in s[1..] then 1 + LastIndexOf(s[1..], d)
      else if s[0] == d then 0 else -1
  {
    var r := LastIndexOf(s, d);
    var t := LastIndexOf(s[1..], d);
    assert forall x :: x in s <==> x == s[0] || x in s[1..];
    if d in s[1..] {
      assert s[1 + t] == d;
      assert forall j :: 1 + t < j < |s| ==> s[j] == s[1..][j - 1];
    } else if s[0] == d {
      assert s[1..] == s[0 + 1..];
    }
  }

  // ---------------------------------------------------------------------------
  // trim
  // ---------------------------------------------------------------------------

  /** The characters ECMAScript's `trim` removes: white space and line terminators. */
  predicate IsJsWhitespace(c: char) {
    c == '\t' || c == '\n' || c == '\U{000B}' || c == '\U{000C}' || c == '\r' || c == ' '
    || c == '\U{00A0}' || c == '\U{1680}' || ('\U{2000}' <= c <= '\U{200A}')
    || c == '\U{2028}' || c == '\U{2029}' || c == '\U{202F}' || c == '\U{205F}'
    || c == '\U{3000}' || c == '\U{FEFF}'
  }

  predicate IsBlank(s: string) {
    forall i :: 0 <= i < |s| ==> IsJsWhitespace(s[i])
  }

  function TrimStart(s: string): (r: string)
    ensures |r| <= |s| && r == s[|s| - |r|..]
    ensures IsBlank(s[..|s| - |r|])
    ensures r == [] || !IsJsWhitespace(r[0])
    decreases |s|
  {
    if |s| > 0 && IsJsWhitespace(s[0]) then TrimStart(s[1..]) else s
  }

  function TrimEnd(s: string): (r: string)
    ensures |r| <= |s| && r == s[..|r|]
    ensures IsBlank(s[|r|..])
    ensures r == [] || !IsJsWhitespace(r[|r| - 1])
    decreases |s|
  {
    if |s| > 0 && IsJsWhitespace(s[|s| - 1]) then TrimEnd(s[..|s| - 1]) else s
  }

  /** `s.trim()`: the string without leading and trailing white space. */
  function Trim(s: string): string {
    TrimEnd(TrimStart(s))
  }

  /** `s.trim() === ''` holds exactly for the strings made only of white space. */
  lemma TrimEmptyIffBlank(s: string)
    ensures Trim(s) == "" <==> IsBlank(s)
  {
    var a := TrimStart(s);
    assert s[..|s|] == s;
    assert a != [] ==> a[0] == s[|s| - |a|];
    assert a != [] ==> a[0..] == a;
  }

  /** A string that starts and ends with a non-space character is its own trim. */
  lemma TrimOfUnpadded(s: string)
    requires |s| > 0 && !IsJsWhitespace(s[0]) && !IsJsWhitespace(s[|s| - 1])
    ensures Trim(s) == s
  {
  }

  // ---------------------------------------------------------------------------
  // substring
  // ---------------------------------------------------------------------------

  /** `s.substring(0, n)`: the first `n` characters, or all of `s` when it is shorter. */
  function TakePrefix(s: string, n: nat): (r: string)
    ensures |r| <= n && |r| <= |s| && r == s[..|r|]
    ensures |s| <= n ==> r == s
    ensures n <= |s| ==> |r| == n
  {
    if |s| <= n then s else s[..n]
  }

  // ---------------------------------------------------------------------------
  // Number to string
  // ---------------------------------------------------------------------------

  function DigitChar(d: int): char
    requires 0 <= d < 10
  {
    ('0' as int + d) as char
  }

  /** The decimal rendering JavaScript gives an integer (as in a template literal). */
  function IntToString(n: int): string
    decreases if n < 0 then 1 - n else n
  {
    if n < 0 then "-" + IntToString(-n)
    else if n < 10 then [DigitChar(n)]
    else IntToString(n / 10) + [DigitChar(n % 10)]
  }
}
