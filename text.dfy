/**
 * The JavaScript string operations the application relies on: `trim`, `includes`,
 * `startsWith`, `toLowerCase`, `split` on one character, `join`, and the decimal
 * rendering of a whole number. Strings are sequences of characters, and a length
 * is a number of characters.
 */
module Text {

  /** The characters JavaScript's `trim` strips: white space and line terminators. */
  predicate IsWhitespace(c: char) {
    var n := c as int;
    n == 0x09 || n == 0x0A || n == 0x0B || n == 0x0C || n == 0x0D || n == 0x20
    || n == 0xA0 || n == 0x1680 || (0x2000 <= n <= 0x200A)
    || n == 0x2028 || n == 0x2029 || n == 0x202F || n == 0x205F
    || n == 0x3000 || n == 0xFEFF
  }

  /** A string that `trim` turns into the empty (falsy) string. */
  predicate IsBlank(s: string) {
    forall i :: 0 <= i < |s| ==> IsWhitespace(s[i])
  }

  /** `trimStart`: drops the leading white space, nothing else. */
  function TrimStart(s: string): (r: string)
    ensures |r| <= |s| && r == s[|s| - |r|..]
    ensures r != [] ==> !IsWhitespace(r[0])
    ensures forall i :: 0 <= i < |s| - |r| ==> IsWhitespace(s[i])
  {
    if |s| > 0 && IsWhitespace(s[0]) then TrimStart(s[1..]) else s
  }

  /** `trimEnd`: drops the trailing white space, nothing else. */
  function TrimEnd(s: string): (r: string)
    ensures |r| <= |s| && r == s[..|r|]
    ensures r != [] ==> !IsWhitespace(r[|r| - 1])
    ensures forall i :: |r| <= i < |s| ==> IsWhitespace(s[i])
  {
    if |s| > 0 && IsWhitespace(s[|s| - 1]) then TrimEnd(s[..|s| - 1]) else s
  }

  /** `trim`: a contiguous piece of `s`, empty exactly when `s` is blank. */
  function Trim(s: string): (r: string)
    ensures exists a :: 0 <= a <= |s| - |r| && Slice(s, a, |r|) == r
    ensures r == [] <==> IsBlank(s)
    ensures r != [] ==> !IsWhitespace(r[0]) && !IsWhitespace(r[|r| - 1])
  {
    var t := TrimStart(s);
    var r := TrimEnd(t);
    assert Slice(s, |s| - |t|, |r|) == r;
    TrimmedAwayIsBlank(s, t, r);
    r
  }

  lemma TrimmedAwayIsBlank(s: string, t: string, r: string)
    requires t == TrimStart(s) && r == TrimEnd(t)
    ensures r == [] ==> IsBlank(s)
  {
    if r == [] && t != [] {
      assert false;
    }
  }

  /** The `len` characters of `s` from position `a` on. */
  function Slice(s: string, a: nat, len: nat): string
    requires a + len <= |s|
  {
    s[a..a + len]
  }

  /** `s.includes(t)`. */
  predicate Contains(s: string, t: string) {
    exists i :: 0 <= i <= |s| - |t| && Slice(s, i, |t|) == t
  }

  /** `s.startsWith(p)`. */
  predicate StartsWith(s: string, p: string) {
    |p| <= |s| && s[..|p|] == p
  }

  /** `toLowerCase` on the ASCII letters; every other character is kept. */
  function LowerChar(c: char): char {
    if 'A' <= c <= 'Z' then (c as int - 'A' as int + 'a' as int) as char else c
  }

  function ToLower(s: string): (r: string)
    ensures |r| == |s|
    ensures forall i :: 0 <= i < |s| ==> r[i] == LowerChar(s[i])
  {
    if s == [] then [] else [LowerChar(s[0])] + ToLower(s[1..])
  }

  /** `s.split(c)` for a one-character separator: never an empty list. */
  function Split(s: string, c: char): (r: seq<string>)
    ensures |r| >= 1
    decreases |s|
  {
    if |s| == 0 then [""]
    else if s[0] == c then [""] + Split(s[1..], c)
    else
      var rest := Split(s[1..], c);
      [[s[0]] + rest[0]] + rest[1..]
  }

  /** `parts.join(sep)`. */
  function Join(parts: seq<string>, sep: string): string {
    if |parts| == 0 then ""
    else if |parts| == 1 then parts[0]
    else parts[0] + sep + Join(parts[1..], sep)
  }

  /** The pieces of Split never contain the separator. */
  lemma {:induction false} SplitPiecesLackSeparator(s: string, c: char)
    ensures forall k :: 0 <= k < |Split(s, c)| ==> c !in Split(s, c)[k]
    decreases |s|
  {
    if |s| > 0 {
      SplitPiecesLackSeparator(s[1..], c);
    }
  }

  lemma {:induction false} SplitWithoutSeparator(x: string, c: char)
    requires c !in x
    ensures Split(x, c) == [x]
    decreases |x|
  {
    if |x| > 0 {
      SplitWithoutSeparator(x[1..], c);
      assert [x[0]] + x[1..] == x;
    }
  }

  lemma {:induction false} SplitAtFirstSeparator(x: string, y: string, c: char)
    requires c !in x
    ensures Split(x + [c] + y, c) == [x] + Split(y, c)
    decreases |x|
  {
    var s := x + [c] + y;
    if |x| == 0 {
      assert s[1..] == y;
    } else {
      assert s[1..] == x[1..] + [c] + y;
      SplitAtFirstSeparator(x[1..], y, c);
      assert [x[0]] + x[1..] == x;
    }
  }

  /** Joining on a separator the pieces lack and splitting again gives the pieces back. */
  lemma {:induction false} SplitJoin(parts: seq<string>, c: char)
    requires |parts| >= 1
    requires forall k :: 0 <= k < |parts| ==> c !in parts[k]
    ensures Split(Join(parts, [c]), c) == parts
  {
    if |parts| == 1 {
      SplitWithoutSeparator(parts[0], c);
    } else {
      SplitJoin(parts[1..], c);
      SplitAtFirstSeparator(parts[0], Join(parts[1..], [c]), c);
      assert [parts[0]] + parts[1..] == parts;
    }
  }

  /** Splitting and joining again on the same character gives the string back. */
  lemma {:induction false} JoinSplit(s: string, c: char)
    ensures Join(Split(s, c), [c]) == s
    decreases |s|
  {
    if |s| > 0 {
      JoinSplit(s[1..], c);
      var rest := Split(s[1..], c);
      if s[0] != c {
        if |rest| == 1 {
          assert [s[0]] + s[1..] == s;
        } else {
          assert ([s[0]] + rest[0]) + [c] + Join(rest[1..], [c]) == [s[0]] + (rest[0] + [c] + Join(rest[1..], [c]));
          assert [s[0]] + s[1..] == s;
        }
      }
    }
  }

  /** The lines of `s` (split on '\n') that are not blank, in order and untrimmed:
      `s.split('\n').filter(e => e.trim())`. */
  function NonBlankLines(s: string): seq<string> {
    KeepNonBlank(Split(s, '\n'))
  }

  function KeepNonBlank(lines: seq<string>): (r: seq<string>)
    ensures |r| <= |lines|
    ensures forall k :: 0 <= k < |r| ==> !IsBlank(r[k])
  {
    if lines == [] then []
    else if IsBlank(lines[0]) then KeepNonBlank(lines[1..])
    else [lines[0]] + KeepNonBlank(lines[1..])
  }

  /** `xs` occurs in `ys` in order, possibly with gaps. */
  predicate IsSubsequence<T(==)>(xs: seq<T>, ys: seq<T>)
    decreases |ys|
  {
    if xs == [] then true
    else if ys == [] then false
    else if xs[0] == ys[0] then IsSubsequence(xs[1..], ys[1..])
    else IsSubsequence(xs, ys[1..])
  }

  /** KeepNonBlank drops exactly the blank lines and keeps the others in order. */
  lemma {:induction false} KeepNonBlankIsOrderedFilter(lines: seq<string>)
    ensures IsSubsequence(KeepNonBlank(lines), lines)
    ensures forall k :: 0 <= k < |lines| && !IsBlank(lines[k]) ==> lines[k] in KeepNonBlank(lines)
  {
    if lines != [] {
      KeepNonBlankIsOrderedFilter(lines[1..]);
      forall k | 0 <= k < |lines| && !IsBlank(lines[k])
        ensures lines[k] in KeepNonBlank(lines)
      {
        if k > 0 { assert lines[k] == lines[1..][k - 1]; }
      }
    }
  }

  lemma {:induction false} KeepNonBlankOfNonBlank(lines: seq<string>)
    requires forall k :: 0 <= k < |lines| ==> !IsBlank(lines[k])
    ensures KeepNonBlank(lines) == lines
  {
    if lines != [] {
      KeepNonBlankOfNonBlank(lines[1..]);
      assert [lines[0]] + lines[1..] == lines;
    }
  }

  /** Joining items with '\n' and taking the non-blank lines again gives the items back,
      provided no item holds a newline or is blank. */
  lemma NonBlankLinesOfJoin(items: seq<string>)
    requires forall k :: 0 <= k < |items| ==> '\n' !in items[k] && !IsBlank(items[k])
    ensures NonBlankLines(Join(items, "\n")) == items
  {
    if items == [] {
      assert Split("", '\n') == [""];
      assert IsBlank("");
    } else {
      SplitJoin(items, '\n');
      KeepNonBlankOfNonBlank(items);
    }
  }

  /** No line produced by NonBlankLines holds a newline or is blank. */
  lemma NonBlankLinesShape(s: string)
    ensures forall k :: 0 <= k < |NonBlankLines(s)| ==>
      '\n' !in NonBlankLines(s)[k] && !IsBlank(NonBlankLines(s)[k])
  {
    var pieces := Split(s, '\n');
    SplitPiecesLackSeparator(s, '\n');
    KeepNonBlankIsOrderedFilter(pieces);
    forall k | 0 <= k < |NonBlankLines(s)| ensures '\n' !in NonBlankLines(s)[k] {
      SubsequenceMembers(KeepNonBlank(pieces), pieces, k);
    }
  }

  lemma {:induction false} SubsequenceMembers<T>(xs: seq<T>, ys: seq<T>, k: nat)
    requires IsSubsequence(xs, ys) && k < |xs|
    ensures xs[k] in ys
    decreases |ys|
  {
    if xs[0] == ys[0] {
      if k > 0 { SubsequenceMembers(xs[1..], ys[1..], k - 1); }
    } else {
      SubsequenceMembers(xs, ys[1..], k);
    }
  }

  // ---- decimal rendering of whole numbers --------------------------------

  function DigitChar(d: nat): char
    requires d < 10
  {
    ('0' as int + d) as char
  }

  function DigitValue(c: char): int {
    c as int - '0' as int
  }

  predicate IsDigit(c: char) {
    '0' <= c <= '9'
  }

  /** `n.toString()` for a whole number. */
  function NatToString(n: nat): (r: string)
    ensures |r| >= 1
    ensures forall i :: 0 <= i < |r| ==> IsDigit(r[i])
  {
    if n < 10 then [DigitChar(n)] else NatToString(n / 10) + [DigitChar(n % 10)]
  }

  /** The number a string of decimal digits denotes. */
  function DigitsValue(s: string): int {
    if s == [] then 0 else DigitsValue(s[..|s| - 1]) * 10 + DigitValue(s[|s| - 1])
  }

  lemma {:induction false} NatToStringValue(n: nat)
    ensures DigitsValue(NatToString(n)) == n
  {
    if n >= 10 {
      NatToStringValue(n / 10);
      var r := NatToString(n);
      assert r[..|r| - 1] == NatToString(n / 10);
    }
  }

  /** `str.padStart(2, '0')`: a one-character string gets a leading zero. */
  function PadTwo(s: string): (r: string)
    ensures |s| >= 2 ==> r == s
    ensures |s| < 2 ==> |r| == 2 && r[2 - |s|..] == s
  {
    if |s| == 0 then "00" else if |s| == 1 then "0" + s else s
  }

  lemma {:induction false} LeadingZeroKeepsValue(s: string)
    ensures DigitsValue("0" + s) == DigitsValue(s)
    decreases |s|
  {
    if s != [] {
      var t := "0" + s;
      assert t[..|t| - 1] == "0" + s[..|s| - 1];
      LeadingZeroKeepsValue(s[..|s| - 1]);
    }
  }
}
