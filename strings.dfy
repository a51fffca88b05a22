/** The java.lang.String operations the scrapers use, on `seq<char>`.
    Case mapping and whitespace are modelled for ASCII and the ASCII/C0 whitespace
    characters; Java's full Unicode tables are not part of this model. */
module Strings {

  /** Character.isWhitespace restricted to the characters below U+0080. */
  predicate IsWhitespace(c: char) {
    c == ' ' || c == '\t' || c == '\n' || c == '\r' || c == '\U{B}' || c == '\U{C}'
    || ('\U{1C}' <= c <= '\U{1F}')
  }

  /** String.isBlank: empty or whitespace only. */
  predicate IsBlank(s: string) {
    forall i :: 0 <= i < |s| ==> IsWhitespace(s[i])
  }

  /** String.stripLeading: drops the leading whitespace. */
  function StripLeading(s: string): string {
    if s != [] && IsWhitespace(s[0]) then StripLeading(s[1..]) else s
  }

  /** What stripLeading removes is a blank prefix, and what it keeps is the rest of
      the string, starting at a non-whitespace character unless empty. */
  lemma {:induction false} StripLeadingSuffix(s: string)
    ensures var r := StripLeading(s);
            |r| <= |s| && r == s[|s| - |r|..]
            && IsBlank(s[..|s| - |r|])
            && (r == [] || !IsWhitespace(r[0]))
  {
    if s != [] && IsWhitespace(s[0]) {
      StripLeadingSuffix(s[1..]);
      var r := StripLeading(s);
      assert s[1..][..|s[1..]| - |r|] == s[1..|s| - |r|];
    }
  }

  /** String.endsWith. */
  predicate EndsWith(s: string, suffix: string) {
    |suffix| <= |s| && s[|s| - |suffix|..] == suffix
  }

  /** String.contains: `t` occurs somewhere in `s`. */
  predicate Contains(s: string, t: string) {
    t <= s || (s != [] && Contains(s[1..], t))
  }

  /** `t` occurs in `s` at index `i`. */
  predicate OccursAt(s: string, t: string, i: int) {
    0 <= i && i + |t| <= |s| && s[i..i + |t|] == t
  }

  /** String.indexOf: the first index at which `t` occurs, or -1. */
  function IndexOf(s: string, t: string): (r: int)
    ensures -1 <= r <= |s|
    ensures r >= 0 ==> OccursAt(s, t, r)
    ensures r >= 0 <==> Contains(s, t)
    ensures forall j :: 0 <= j < (if r < 0 then |s| + 1 else r) ==> !OccursAt(s, t, j)
  {
    if t <= s then
      assert s[0..|t|] == t;
      0
    else if s == [] then -1
    else
      var k := IndexOf(s[1..], t);
      assert !OccursAt(s, t, 0);
      OccursShift(s, t, if k < 0 then |s| + 1 else k + 1);
      if k < 0 then -1
      else
        assert s[1..][k..k + |t|] == s[k + 1..k + 1 + |t|];
        k + 1
  }

  /** Occurrences in the tail `s[1..]` are the occurrences in `s` one place on. */
  lemma OccursShift(s: string, t: string, n: int)
    requires s != []
    requires forall j :: 0 <= j < n - 1 ==> !OccursAt(s[1..], t, j)
    ensures forall j :: 0 < j < n ==> !OccursAt(s, t, j)
  {
    forall j | 0 < j < n ensures !OccursAt(s, t, j) {
      if OccursAt(s, t, j) {
        assert s[1..][j - 1..j - 1 + |t|] == s[j..j + |t|];
        assert OccursAt(s[1..], t, j - 1);
      }
    }
  }

  /** String.lastIndexOf: the last index at which `t` occurs, or -1. */
  function LastIndexOf(s: string, t: string): (r: int)
    ensures -1 <= r <= |s|
    ensures r >= 0 ==> OccursAt(s, t, r)
    ensures forall j :: r < j <= |s| ==> !OccursAt(s, t, j)
    decreases |s|
  {
    if |s| < |t| then -1
    else if s[|s| - |t|..] == t then |s| - |t|
    else
      var k := LastIndexOf(s[..|s| - 1], t);
      assert forall j :: k < j <= |s| - |t| ==> !OccursAt(s, t, j) by {
        forall j | k < j <= |s| - |t| ensures !OccursAt(s, t, j) {
          if j < |s| - |t| {
            assert s[..|s| - 1][j..j + |t|] == s[j..j + |t|];
            assert !OccursAt(s[..|s| - 1], t, j);
          } else {
            assert s[j..j + |t|] == s[|s| - |t|..];
          }
        }
      }
      if k >= 0 then
        assert s[..|s| - 1][k..k + |t|] == s[k..k + |t|];
        k
      else k
  }

  /** String.replace(CharSequence, CharSequence): every occurrence of `target`, scanned
      left to right without overlap, becomes `replacement`. */
  function Replace(s: string, target: string, replacement: string): (r: string)
    requires target != []
    ensures !Contains(s, target) ==> r == s
    decreases |s|
  {
    if |s| < |target| then
      assert !Contains(s, target) by { NotContainsShort(s, target); }
      s
    else if target <= s then replacement + Replace(s[|target|..], target, replacement)
    else [s[0]] + Replace(s[1..], target, replacement)
  }

  lemma NotContainsShort(s: string, t: string)
    requires |s| < |t|
    ensures !Contains(s, t)
    decreases |s|
  {
    if s != [] { NotContainsShort(s[1..], t); }
  }

  /** Character.toLowerCase on ASCII letters. */
  function LowerChar(c: char): char {
    if 'A' <= c <= 'Z' then (c as int + 32) as char else c
  }

  /** String.toLowerCase. */
  function ToLower(s: string): (r: string)
    ensures |r| == |s|
    ensures forall i :: 0 <= i < |s| ==> r[i] == LowerChar(s[i])
  {
    seq(|s|, i requires 0 <= i < |s| => LowerChar(s[i]))
  }

  /** String.equalsIgnoreCase. */
  predicate EqualsIgnoreCase(a: string, b: string) {
    ToLower(a) == ToLower(b)
  }

  /** String.join / a loop that appends `sep` between the parts. */
  function Join(parts: seq<string>, sep: string): string {
    if parts == [] then ""
    else if |parts| == 1 then parts[0]
    else parts[0] + sep + Join(parts[1..], sep)
  }

  /** lastIndexOf of a one-character string: that character, and none after it; -1
      when the character does not occur. */
  lemma LastIndexOfChar(s: string, c: char)
    ensures var e := LastIndexOf(s, [c]);
            (e >= 0 ==> e < |s| && s[e] == c)
            && forall j :: e < j < |s| ==> s[j] != c
  {
    var e := LastIndexOf(s, [c]);
    if e >= 0 {
      OccursAtChar(s, c, e);
    }
    forall j | e < j < |s| ensures s[j] != c {
      OccursAtChar(s, c, j);
    }
  }

  lemma OccursAtChar(s: string, c: char, j: int)
    requires 0 <= j < |s|
    ensures OccursAt(s, [c], j) <==> s[j] == c
  {
    assert s[j..j + 1] == [s[j]];
  }

  /** An occurrence anywhere means `contains` holds. */
  lemma OccursContains(s: string, t: string, i: int)
    requires OccursAt(s, t, i)
    ensures Contains(s, t)
  {
    var first := IndexOf(s, t);
  }

  /** Every part followed by `sep`: what a loop appending a part and then `sep` builds. */
  function Terminated(parts: seq<string>, sep: string): string {
    if parts == [] then "" else Terminated(parts[..|parts| - 1], sep) + parts[|parts| - 1] + sep
  }

  lemma TerminatedSnoc(parts: seq<string>, x: string, sep: string)
    ensures Terminated(parts + [x], sep) == Terminated(parts, sep) + x + sep
  {
    assert (parts + [x])[..|parts|] == parts;
  }

  lemma {:induction false} JoinSnoc(parts: seq<string>, x: string, sep: string)
    requires parts != []
    ensures Join(parts + [x], sep) == Join(parts, sep) + sep + x
    decreases |parts|
  {
    if |parts| == 1 {
      assert (parts + [x])[1..] == [x];
    } else {
      assert (parts + [x])[1..] == parts[1..] + [x];
      JoinSnoc(parts[1..], x, sep);
    }
  }

  /** Dropping the trailing separator of the terminated parts leaves them joined. */
  lemma {:induction false} TerminatedIsJoin(parts: seq<string>, sep: string)
    requires parts != []
    ensures Terminated(parts, sep) == Join(parts, sep) + sep
    decreases |parts|
  {
    var init := parts[..|parts| - 1];
    var x := parts[|parts| - 1];
    if init == [] {
      assert parts == [x];
    } else {
      TerminatedIsJoin(init, sep);
      JoinSnoc(init, x, sep);
      assert init + [x] == parts;
    }
  }
}
