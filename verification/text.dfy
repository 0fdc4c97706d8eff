/**
 * String helpers shared by the models: the whitespace sets of JavaScript's
 * `trim` and Python's `str.strip`, decimal rendering and parsing, zero
 * padding, joining and splitting.
 */
module Text {

  /** JavaScript WhiteSpace and LineTerminator characters (what `trim` and `\s` remove). */
  predicate IsJsSpace(c: char) {
    var n := c as int;
    (0x09 <= n <= 0x0D) || n == 0x20 || n == 0xA0 || n == 0x1680 || (0x2000 <= n <= 0x200A)
    || n == 0x2028 || n == 0x2029 || n == 0x202F || n == 0x205F || n == 0x3000 || n == 0xFEFF
  }

  /** Python's `str.isspace` (what `strip()` removes and `\s` matches in a str pattern). */
  predicate IsPySpace(c: char) {
    var n := c as int;
    (0x09 <= n <= 0x0D) || (0x1C <= n <= 0x20) || n == 0x85 || n == 0xA0 || n == 0x1680
    || (0x2000 <= n <= 0x200A) || n == 0x2028 || n == 0x2029 || n == 0x202F || n == 0x205F
    || n == 0x3000
  }

  /** How many leading characters satisfy `sp`. */
  function LeadingCount(s: string, sp: char -> bool): (n: nat)
    ensures n <= |s|
    ensures forall i :: 0 <= i < n ==> sp(s[i])
    ensures n == |s| || !sp(s[n])
  {
    if s != [] && sp(s[0]) then 1 + LeadingCount(s[1..], sp) else 0
  }

  /** The length left once the trailing characters satisfying `sp` are dropped. */
  function KeptLength(s: string, sp: char -> bool): (n: nat)
    ensures n <= |s|
    ensures forall i :: n <= i < |s| ==> sp(s[i])
    ensures n == 0 || !sp(s[n - 1])
  {
    if s != [] && sp(s[|s| - 1]) then KeptLength(s[..|s| - 1], sp) else |s|
  }

  /** Drops the longest prefix of characters satisfying `sp`. */
  function TrimStart(s: string, sp: char -> bool): (r: string)
    ensures |r| <= |s| && r == s[|s| - |r|..]
    ensures r == [] || !sp(r[0])
    ensures forall i :: 0 <= i < |s| - |r| ==> sp(s[i])
  {
    s[LeadingCount(s, sp)..]
  }

  /** Drops the longest suffix of characters satisfying `sp`. */
  function TrimEnd(s: string, sp: char -> bool): (r: string)
    ensures |r| <= |s| && r == s[..|r|]
    ensures r == [] || !sp(r[|r| - 1])
    ensures forall i :: |r| <= i < |s| ==> sp(s[i])
  {
    s[..KeptLength(s, sp)]
  }

  /** A slice of `s` with no `sp` character at either end and only `sp` characters outside it. */
  function Trim(s: string, sp: char -> bool): (r: string)
    ensures LeadingCount(s, sp) + |r| <= |s|
    ensures r == s[LeadingCount(s, sp)..LeadingCount(s, sp) + |r|]
    ensures r == [] || (!sp(r[0]) && !sp(r[|r| - 1]))
  {
    var a := LeadingCount(s, sp);
    var n := KeptLength(s[a..], sp);
    assert s[a..][..n] == s[a..a + n];
    s[a..a + n]
  }

  /** JavaScript `String.prototype.trim`. */
  function TrimJs(s: string): string { Trim(s, IsJsSpace) }

  /** Python `str.strip()` with no argument. */
  function StripPy(s: string): string { Trim(s, IsPySpace) }

  lemma TrimKeepsAbsentChars(s: string, sp: char -> bool, c: char)
    requires c !in s
    ensures c !in Trim(s, sp)
  {
    var r := Trim(s, sp);
    var a := LeadingCount(s, sp);
    assert forall k :: 0 <= k < |r| ==> r[k] == s[a + k];
  }

  predicate IsDigit(c: char) { '0' <= c <= '9' }

  predicate AllDigits(s: string) { forall i :: 0 <= i < |s| ==> IsDigit(s[i]) }

  function DigitChar(d: nat): (c: char)
    requires d < 10
    ensures IsDigit(c) && c as int - '0' as int == d
  {
    ('0' as int + d) as char
  }

  /** Decimal rendering without leading zeros, as Python `str(n)` and JavaScript `String(n)`. */
  function NatToString(n: nat): (r: string)
    ensures |r| >= 1 && AllDigits(r)
    ensures n >= 10 <==> |r| >= 2
  {
    if n < 10 then [DigitChar(n)] else NatToString(n / 10) + [DigitChar(n % 10)]
  }

  function IntToString(i: int): string {
    if i < 0 then "-" + NatToString(-i) else NatToString(i)
  }

  /** The value of a string of decimal digits, leading zeros allowed, as Python `int` reads it. */
  function DigitsValue(s: string): nat
    requires AllDigits(s)
  {
    if s == [] then 0 else DigitsValue(s[..|s| - 1]) * 10 + (s[|s| - 1] as int - '0' as int)
  }

  lemma {:induction false} DigitsValueOfNatToString(n: nat)
    ensures DigitsValue(NatToString(n)) == n
  {
    if n >= 10 {
      var s := NatToString(n);
      assert s[..|s| - 1] == NatToString(n / 10);
      DigitsValueOfNatToString(n / 10);
    }
  }

  lemma {:induction false} DigitsValueIgnoresLeadingZero(s: string)
    requires AllDigits(s)
    ensures AllDigits("0" + s) && DigitsValue("0" + s) == DigitsValue(s)
  {
    if s != [] {
      assert ("0" + s)[..|"0" + s| - 1] == "0" + s[..|s| - 1];
      DigitsValueIgnoresLeadingZero(s[..|s| - 1]);
    }
  }

  /** JavaScript `padStart(2, '0')`, which is also Python's `{:02d}` on a non-negative number. */
  function Pad2(s: string): (r: string)
    ensures |r| >= 2
    ensures |s| >= 2 ==> r == s
    ensures |s| < 2 ==> r == seq(2 - |s|, _ => '0') + s
  {
    if |s| >= 2 then s else if |s| == 1 then "0" + s else "00"
  }

  /** Python `f"{n:02d}"` for n >= 0: at least two decimal digits, the same value. */
  function TwoDigits(n: nat): (r: string)
    ensures |r| >= 2 && AllDigits(r) && DigitsValue(r) == n
  {
    var s := NatToString(n);
    DigitsValueOfNatToString(n);
    if |s| == 1 then
      DigitsValueIgnoresLeadingZero(s);
      assert Pad2(s) == "0" + s;
      Pad2(s)
    else
      Pad2(s)
  }

  /** The longest prefix of `s` made of decimal digits (what a greedy `\d+` at the start takes). */
  function LeadingDigits(s: string): (r: string)
    ensures AllDigits(r) && r <= s
    ensures |r| == |s| || !IsDigit(s[|r|])
  {
    if s != [] && IsDigit(s[0]) then [s[0]] + LeadingDigits(s[1..]) else []
  }

  lemma {:induction false} LeadingDigitsOfConcat(d: string, t: string)
    requires AllDigits(d)
    requires t != [] && !IsDigit(t[0])
    ensures LeadingDigits(d + t) == d
  {
    if d != [] {
      assert (d + t)[1..] == d[1..] + t;
      LeadingDigitsOfConcat(d[1..], t);
    }
  }

  function LowerChar(c: char): char {
    if 'A' <= c <= 'Z' then (c as int + 32) as char else c
  }

  function UpperChar(c: char): char {
    if 'a' <= c <= 'z' then (c as int - 32) as char else c
  }

  /** ASCII letters folded to lower case: what a JavaScript `i` flag compares for ASCII words. */
  function AsciiLower(s: string): (r: string)
    ensures |r| == |s| && forall i :: 0 <= i < |s| ==> r[i] == LowerChar(s[i])
  {
    if s == [] then [] else [LowerChar(s[0])] + AsciiLower(s[1..])
  }

  /** Length in UTF-16 code units, which is what JavaScript `length` counts. */
  function Utf16Length(s: string): nat {
    if s == [] then 0 else (if s[0] as int >= 0x10000 then 2 else 1) + Utf16Length(s[1..])
  }

  /** The pieces shorter than 20 code units, in order (`filter(s => s.length < 20)`). */
  function ShortPieces(pieces: seq<string>): (r: seq<string>)
    ensures |r| <= |pieces|
    ensures forall k :: 0 <= k < |r| ==> Utf16Length(r[k]) < 20 && r[k] in pieces
  {
    if pieces == [] then []
    else
      var tail := ShortPieces(pieces[1..]);
      if Utf16Length(pieces[0]) < 20 then [pieces[0]] + tail else tail
  }

  /** Every piece trimmed as JavaScript `trim` does. */
  function TrimmedPieces(pieces: seq<string>): (r: seq<string>)
    ensures |r| == |pieces| && forall k :: 0 <= k < |r| ==> r[k] == TrimJs(pieces[k])
  {
    seq(|pieces|, k requires 0 <= k < |pieces| => TrimJs(pieces[k]))
  }

  /** `parts.join(sep)` / `sep.join(parts)`. */
  function Join(parts: seq<string>, sep: string): string {
    if |parts| == 0 then ""
    else if |parts| == 1 then parts[0]
    else parts[0] + sep + Join(parts[1..], sep)
  }

  /** `sub` occurs in `s` starting at index `i`. */
  predicate OccursAt(s: string, sub: string, i: int) {
    0 <= i <= |s| - |sub| && s[i..i + |sub|] == sub
  }

  /** `sub` occurs in `s` (JavaScript `includes`, Python `in`). */
  predicate Contains(s: string, sub: string)
    decreases |s|
  {
    sub <= s || (s != [] && Contains(s[1..], sub))
  }

  lemma {:induction false} ContainsAt(s: string, sub: string, i: nat)
    requires OccursAt(s, sub, i)
    ensures Contains(s, sub)
  {
    if i > 0 {
      assert s[1..][i - 1..i - 1 + |sub|] == sub;
      ContainsAt(s[1..], sub, i - 1);
    }
  }

  lemma {:induction false} ContainsWitness(s: string, sub: string)
    requires Contains(s, sub)
    ensures exists i :: OccursAt(s, sub, i)
    decreases |s|
  {
    if sub <= s {
      assert OccursAt(s, sub, 0);
    } else {
      ContainsWitness(s[1..], sub);
      var i :| OccursAt(s[1..], sub, i);
      assert s[i + 1..i + 1 + |sub|] == sub;
      assert OccursAt(s, sub, i + 1);
    }
  }

  /** What occurs in `s` still occurs once anything is put in front of it. */
  lemma {:induction false} ContainsAfterFront(front: string, s: string, sub: string)
    requires Contains(s, sub)
    ensures Contains(front + s, sub)
    decreases |front|
  {
    if front != [] {
      assert (front + s)[1..] == front[1..] + s;
      ContainsAfterFront(front[1..], s, sub);
    } else {
      assert front + s == s;
    }
  }

  lemma {:induction false} NoOccurrence(s: string, sub: string)
    requires forall i :: !OccursAt(s, sub, i)
    ensures !Contains(s, sub)
    decreases |s|
  {
    assert !OccursAt(s, sub, 0);
    if s != [] {
      forall i | 0 <= i <= |s| - 1 - |sub| ensures !OccursAt(s[1..], sub, i) {
        assert s[1..][i..i + |sub|] == s[i + 1..i + 1 + |sub|];
        assert !OccursAt(s, sub, i + 1);
      }
      NoOccurrence(s[1..], sub);
    }
  }

  /** Number of occurrences of character `c` in `s`. */
  function CountChar(s: string, c: char): nat {
    if s == [] then 0 else (if s[0] == c then 1 else 0) + CountChar(s[1..], c)
  }

  /** `s.split(c)` for a one-character separator, in Python and JavaScript alike. */
  function SplitOn(s: string, c: char): (r: seq<string>)
    ensures |r| == CountChar(s, c) + 1
    ensures forall k :: 0 <= k < |r| ==> c !in r[k]
  {
    if s == [] then [""]
    else
      var rest := SplitOn(s[1..], c);
      if s[0] == c then [""] + rest else [[s[0]] + rest[0]] + rest[1..]
  }

  /** Index of the first `c` in `s`. */
  function IndexOf(s: string, c: char): (i: nat)
    requires c in s
    ensures i < |s| && s[i] == c && c !in s[..i]
  {
    if s[0] == c then 0 else 1 + IndexOf(s[1..], c)
  }

  /** The first `c` is the one with no `c` before it. */
  lemma {:induction false} IndexOfIs(s: string, c: char, i: nat)
    requires i < |s| && s[i] == c && c !in s[..i]
    ensures IndexOf(s, c) == i
  {
    if i > 0 {
      assert s[..i][0] == s[0];
      assert s[1..][..i - 1] == s[..i][1..];
      IndexOfIs(s[1..], c, i - 1);
    }
  }

  /** Python's POSIX `os.path.join(dir, name)`: an absolute name replaces the directory, and nothing is normalised. */
  function JoinPath(dir: string, name: string): string {
    if name != [] && name[0] == '/' then name
    else if dir == [] then name
    else if dir[|dir| - 1] == '/' then dir + name
    else dir + "/" + name
  }

  /** POSIX `os.path.basename`: what follows the last `/`. */
  function Basename(p: string): (r: string)
    ensures '/' !in r
    ensures |r| <= |p| && r == p[|p| - |r|..]
  {
    if p == [] then []
    else if p[|p| - 1] == '/' then []
    else Basename(p[..|p| - 1]) + [p[|p| - 1]]
  }
}
