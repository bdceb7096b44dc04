/** The pieces of Go's string handling the agent relies on, written out:
    `strings.Split` / `strings.Join` on a one-character separator,
    `strings.TrimRight` with a one-character cutset, `strings.Index(...) != -1`,
    ASCII lower-casing, `bufio.ScanLines`, `strconv.ParseInt` in base 10 and
    decimal formatting (`%d` / `%v` of an integer). */
module Text {
  import opened Wrappers

  // ---------------------------------------------------------------------------
  // Characters

  /** RE2's `\s` class: tab, newline, form feed, carriage return and space. */
  predicate IsSpace(c: char) {
    c == ' ' || c == '\t' || c == '\n' || c == '\r' || c == '\U{000C}'
  }

  predicate IsDigit(c: char) { '0' <= c <= '9' }

  function LowerChar(c: char): char {
    if 'A' <= c <= 'Z' then (c as int + 32) as char else c
  }

  /** `strings.ToLower`, restricted to the ASCII letters (the only ones the
      agent ever lower-cases: MariaDB's `Yes`/`No` flags and host names). */
  function ToLower(s: string): (r: string)
    ensures |r| == |s|
    ensures forall i :: 0 <= i < |s| ==> r[i] == LowerChar(s[i])
  {
    if |s| == 0 then "" else [LowerChar(s[0])] + ToLower(s[1..])
  }

  // ---------------------------------------------------------------------------
  // Searching, splitting and joining

  /** Position of the first `c` in `s`, or -1. */
  function IndexOf(s: string, c: char): (i: int)
    ensures -1 <= i < |s|
    ensures i == -1 <==> c !in s
    ensures 0 <= i ==> s[i] == c && c !in s[..i]
  {
    if |s| == 0 then -1
    else if s[0] == c then 0
    else
      var j := IndexOf(s[1..], c);
      assert s[1..][..if j < 0 then 0 else j] == s[1..1 + if j < 0 then 0 else j];
      if j < 0 then -1 else j + 1
  }

  lemma {:induction false} IndexOfFirst(a: string, c: char, b: string)
    requires c !in a
    ensures IndexOf(a + [c] + b, c) == |a|
  {
    var s := a + [c] + b;
    assert s[|a|] == c;
  }

  /** `strings.Split(s, [c])`: the pieces between the occurrences of `c`. */
  function Split(s: string, c: char): (parts: seq<string>)
    ensures |parts| >= 1
    ensures forall k :: 0 <= k < |parts| ==> c !in parts[k]
    decreases |s|
  {
    var i := IndexOf(s, c);
    if i < 0 then [s] else [s[..i]] + Split(s[i + 1..], c)
  }

  /** `strings.Join(parts, sep)`. */
  function Join(parts: seq<string>, sep: string): string {
    if |parts| == 0 then ""
    else if |parts| == 1 then parts[0]
    else parts[0] + sep + Join(parts[1..], sep)
  }

  /** Joining with one more piece at the end. */
  lemma {:induction false} JoinSnoc(ps: seq<string>, p: string, sep: string)
    ensures Join(ps + [p], sep) == if |ps| == 0 then p else Join(ps, sep) + sep + p
    decreases |ps|
  {
    if |ps| > 1 {
      assert (ps + [p])[1..] == ps[1..] + [p];
      JoinSnoc(ps[1..], p, sep);
    } else if |ps| == 1 {
      assert (ps + [p])[1..] == [p];
    }
  }

  /** Joining the pieces of a split restores the string. */
  lemma {:induction false} JoinSplit(s: string, c: char)
    ensures Join(Split(s, c), [c]) == s
    decreases |s|
  {
    var i := IndexOf(s, c);
    if i >= 0 {
      var rest := Split(s[i + 1..], c);
      var parts := [s[..i]] + rest;
      assert parts[1..] == rest;
      assert Join(parts, [c]) == s[..i] + [c] + Join(rest, [c]);
      JoinSplit(s[i + 1..], c);
      assert s == s[..i] + [c] + s[i + 1..];
    }
  }

  /** Splitting a join of separator-free pieces gives the pieces back. */
  lemma {:induction false} SplitJoin(parts: seq<string>, c: char)
    requires |parts| >= 1
    requires forall k :: 0 <= k < |parts| ==> c !in parts[k]
    ensures Split(Join(parts, [c]), c) == parts
    decreases |parts|
  {
    if |parts| > 1 {
      var rest := Join(parts[1..], [c]);
      IndexOfFirst(parts[0], c, rest);
      var s := parts[0] + [c] + rest;
      assert s[..|parts[0]|] == parts[0];
      assert s[|parts[0]| + 1..] == rest;
      SplitJoin(parts[1..], c);
    }
  }

  /** `strings.Index(s, sub) != -1`. */
  predicate Contains(s: string, sub: string) {
    exists i :: 0 <= i <= |s| - |sub| && OccursAt(s, sub, i)
  }

  predicate OccursAt(s: string, sub: string, i: nat) {
    i + |sub| <= |s| && s[i..i + |sub|] == sub
  }

  /** `strings.TrimRight(s, [c])`: drop every trailing `c`. */
  function TrimRight(s: string, c: char): (r: string)
    ensures |r| <= |s| && r == s[..|r|]
    ensures |r| == 0 || r[|r| - 1] != c
    ensures forall k :: |r| <= k < |s| ==> s[k] == c
  {
    if |s| > 0 && s[|s| - 1] == c then
      var t := s[..|s| - 1];
      var r := TrimRight(t, c);
      assert t[..|r|] == s[..|r|];
      r
    else s
  }

  // ---------------------------------------------------------------------------
  // Lines

  function DropCR(s: string): string {
    if |s| > 0 && s[|s| - 1] == '\r' then s[..|s| - 1] else s
  }

  /** The lines `bufio.Scanner` with `ScanLines` yields: the text split at
      `\n`, one trailing `\r` dropped from each line, and no empty line after a
      final `\n`. */
  function ScanLines(s: string): (lines: seq<string>)
    ensures forall k :: 0 <= k < |lines| ==> '\n' !in lines[k]
    decreases |s|
  {
    if |s| == 0 then []
    else
      var i := IndexOf(s, '\n');
      if i < 0 then [DropCR(s)] else [DropCR(s[..i])] + ScanLines(s[i + 1..])
  }

  lemma {:induction false} ScanLinesOfJoin(lines: seq<string>)
    requires forall k :: 0 <= k < |lines| ==> '\n' !in lines[k] && '\r' !in lines[k]
    ensures ScanLines(JoinLines(lines)) == lines
    decreases |lines|
  {
    if |lines| > 0 {
      var s := JoinLines(lines);
      var rest := JoinLines(lines[1..]);
      IndexOfFirst(lines[0], '\n', rest);
      assert s[..|lines[0]|] == lines[0];
      assert s[|lines[0]| + 1..] == rest;
      if |lines[0]| > 0 {
        assert lines[0][|lines[0]| - 1] in lines[0];
      }
      ScanLinesOfJoin(lines[1..]);
    }
  }

  /** Every line terminated by `\n`, the way a command prints its output. */
  function JoinLines(lines: seq<string>): string {
    if |lines| == 0 then "" else lines[0] + "\n" + JoinLines(lines[1..])
  }

  // ---------------------------------------------------------------------------
  // Integers

  /** The `bitSize` argument of `strconv.ParseInt`. */
  datatype IntSize = Bits32 | Bits64

  function MinInt(b: IntSize): int {
    match b
    case Bits32 => -0x8000_0000
    case Bits64 => -0x8000_0000_0000_0000
  }

  function MaxInt(b: IntSize): int {
    match b
    case Bits32 => 0x7fff_ffff
    case Bits64 => 0x7fff_ffff_ffff_ffff
  }

  predicate InRange(b: IntSize, n: int) { MinInt(b) <= n <= MaxInt(b) }

  /** Go's fixed-width integers, as the ranges they hold. */
  type int32 = x: int | -0x8000_0000 <= x < 0x8000_0000
  type int64 = x: int | -0x8000_0000_0000_0000 <= x < 0x8000_0000_0000_0000

  /** Go's `int32(x)` conversion of a 64-bit value: keep the low 32 bits,
      two's complement. */
  function WrapInt32(x: int): (r: int32)
    ensures InRange(Bits32, x) ==> r == x
    ensures (r - x) % 0x1_0000_0000 == 0
  {
    var m := x % 0x1_0000_0000;
    if m >= 0x8000_0000 then m - 0x1_0000_0000 else m
  }

  /** Go's `int64` subtraction, which wraps around: the low 64 bits of the
      mathematical result, two's complement. */
  function WrapInt64(x: int): (r: int64)
    ensures InRange(Bits64, x) ==> r == x
    ensures (r - x) % 0x1_0000_0000_0000_0000 == 0
  {
    var m := x % 0x1_0000_0000_0000_0000;
    if m >= 0x8000_0000_0000_0000 then m - 0x1_0000_0000_0000_0000 else m
  }

  predicate AllDigits(s: string) {
    forall i :: 0 <= i < |s| ==> IsDigit(s[i])
  }

  function DigitValue(c: char): nat
    requires IsDigit(c)
  {
    c as int - '0' as int
  }

  function DecimalValue(s: string): nat
    requires AllDigits(s)
  {
    if |s| == 0 then 0 else DecimalValue(s[..|s| - 1]) * 10 + DigitValue(s[|s| - 1])
  }

  /** Base-10 syntax accepted by `strconv.ParseInt(s, 10, _)`: an optional sign
      followed by at least one digit (no underscores, no spaces). */
  predicate IntSyntax(s: string) {
    var d := if |s| > 0 && (s[0] == '+' || s[0] == '-') then s[1..] else s;
    |d| > 0 && AllDigits(d)
  }

  /** The mathematical value of a well-formed decimal. */
  function SyntaxValue(s: string): int
    requires IntSyntax(s)
  {
    if s[0] == '-' then 0 - DecimalValue(s[1..])
    else if s[0] == '+' then DecimalValue(s[1..])
    else DecimalValue(s)
  }

  /** `strconv.ParseInt(s, 10, b)` when its error is checked: the value when `s`
      is a decimal that fits, nothing otherwise. */
  function ParseInt(s: string, b: IntSize): (r: Option<int>)
    ensures r.Some? <==> IntSyntax(s) && InRange(b, SyntaxValue(s))
    ensures r.Some? ==> r.value == SyntaxValue(s) && InRange(b, r.value)
  {
    if IntSyntax(s) && InRange(b, SyntaxValue(s)) then Some(SyntaxValue(s)) else None
  }

  /** The value `strconv.ParseInt(s, 10, b)` returns when its error is
      ignored: 0 on a syntax error, the nearest bound on a range error. */
  function ParseIntValue(s: string, b: IntSize): (r: int)
    ensures InRange(b, r)
    ensures ParseInt(s, b).Some? ==> r == ParseInt(s, b).value
    ensures !IntSyntax(s) ==> r == 0
    ensures IntSyntax(s) && SyntaxValue(s) > MaxInt(b) ==> r == MaxInt(b)
    ensures IntSyntax(s) && SyntaxValue(s) < MinInt(b) ==> r == MinInt(b)
  {
    if !IntSyntax(s) then 0
    else if SyntaxValue(s) > MaxInt(b) then MaxInt(b)
    else if SyntaxValue(s) < MinInt(b) then MinInt(b)
    else SyntaxValue(s)
  }

  /** `x, err := ParseInt(s, 10, b); if err == nil { use x } else { use 0 }`. */
  function ParseIntOrZero(s: string, b: IntSize): (r: int)
    ensures InRange(b, r)
    ensures ParseInt(s, b).Some? ==> r == ParseInt(s, b).value
    ensures ParseInt(s, b).None? ==> r == 0
  {
    match ParseInt(s, b)
    case Some(v) => v
    case None => 0
  }

  function DigitChar(d: nat): (c: char)
    requires d < 10
    ensures IsDigit(c) && DigitValue(c) == d
  {
    ('0' as int + d) as char
  }

  function NatToDecimal(n: nat): (s: string)
    ensures |s| > 0 && AllDigits(s)
  {
    if n < 10 then [DigitChar(n)] else NatToDecimal(n / 10) + [DigitChar(n % 10)]
  }

  /** Decimal rendering of an integer, as `%d` and `%v` print it. */
  function FormatInt(n: int): string {
    if n < 0 then "-" + NatToDecimal(-n) else NatToDecimal(n)
  }

  /** The characters of a formatted integer are digits and an optional
      leading sign. */
  lemma FormatIntChars(n: int)
    ensures forall k :: 0 <= k < |FormatInt(n)| ==> FormatInt(n)[k] == '-' || IsDigit(FormatInt(n)[k])
  {
    if n < 0 {
      var d := NatToDecimal(-n);
      assert FormatInt(n) == "-" + d;
      assert forall k :: 1 <= k < |FormatInt(n)| ==> FormatInt(n)[k] == d[k - 1];
    }
  }

  lemma {:induction false} DecimalOfNat(n: nat)
    ensures DecimalValue(NatToDecimal(n)) == n
  {
    if n >= 10 {
      DecimalOfNat(n / 10);
      var s := NatToDecimal(n);
      assert s[..|s| - 1] == NatToDecimal(n / 10);
    }
  }

  /** Formatting then parsing an integer of the right width gives it back:
      the values the agent formats into SQL and command lines are read back
      unchanged. */
  lemma ParseFormatInt(n: int, b: IntSize)
    requires InRange(b, n)
    ensures ParseInt(FormatInt(n), b) == Some(n)
  {
    var s := FormatInt(n);
    if n < 0 {
      DecimalOfNat(-n);
      assert s[1..] == NatToDecimal(-n);
    } else {
      DecimalOfNat(n);
    }
  }
}
