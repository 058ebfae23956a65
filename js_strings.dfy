/**
 * The parts of JavaScript's string semantics the guards and the bot rely on:
 * `startsWith`, `split` on a one-character separator with indexing that can
 * fall off the end (`undefined`), `parseInt` without a radix, and the decimal
 * text of a non-negative integer as a template literal prints it.
 */
module JsStrings {
  import opened Base

  /** `s.startsWith(prefix)`. */
  predicate StartsWith(s: string, prefix: string)
  {
    |prefix| <= |s| && s[..|prefix|] == prefix
  }

  /** The first position of `c` in `s`, if any (`s.indexOf(c)`, -1 as None). */
  function IndexOf(s: string, c: char): (r: Option<nat>)
    ensures r.Some? ==> r.value < |s| && s[r.value] == c && c !in s[..r.value]
    ensures r.None? <==> c !in s
  {
    if s == [] then None
    else if s[0] == c then Some(0)
    else
      match IndexOf(s[1..], c)
      case None => None
      case Some(i) =>
        assert s[..i + 1] == [s[0]] + s[1..][..i];
        Some(i + 1)
  }

  /** `s.split(sep)` for a one-character separator: the text between separators. */
  function Split(s: string, sep: char): (pieces: seq<string>)
    ensures |pieces| >= 1
    decreases |s|
  {
    match IndexOf(s, sep)
    case None => [s]
    case Some(i) => [s[..i]] + Split(s[i + 1..], sep)
  }

  /** `pieces.join(sep)`: the inverse of `Split`. */
  function Join(pieces: seq<string>, sep: char): string
    decreases |pieces|
  {
    if |pieces| == 0 then ""
    else if |pieces| == 1 then pieces[0]
    else pieces[0] + [sep] + Join(pieces[1..], sep)
  }

  /** `s.split(sep)[k]`, which is `undefined` past the last piece. */
  function Piece(s: string, sep: char, k: nat): (r: Option<string>)
    ensures r.Some? <==> k < |Split(s, sep)|
  {
    var pieces := Split(s, sep);
    if k < |pieces| then Some(pieces[k]) else None
  }

  /** Splitting loses nothing: joining the pieces gives back the string. */
  lemma {:induction false} SplitJoin(s: string, sep: char)
    ensures Join(Split(s, sep), sep) == s
    decreases |s|
  {
    match IndexOf(s, sep)
    case None =>
    case Some(i) =>
      var rest := s[i + 1..];
      var tail := Split(rest, sep);
      var pieces := Split(s, sep);
      assert pieces == [s[..i]] + tail;
      assert pieces[0] == s[..i] && pieces[1..] == tail && |pieces| >= 2;
      SplitJoin(rest, sep);
      calc {
        Join(pieces, sep);
        pieces[0] + [sep] + Join(pieces[1..], sep);
        s[..i] + [sep] + rest;
        { assert s == s[..i] + [s[i]] + s[i + 1..]; }
        s;
      }
  }

  /** No piece of a split holds the separator. */
  lemma {:induction false} SplitPiecesFree(s: string, sep: char, k: nat)
    requires k < |Split(s, sep)|
    ensures sep !in Split(s, sep)[k]
    decreases |s|
  {
    match IndexOf(s, sep)
    case None =>
    case Some(i) =>
      if k > 0 {
        SplitPiecesFree(s[i + 1..], sep, k - 1);
      }
  }

  /** A string without the separator is a single piece. */
  lemma SplitWithout(s: string, sep: char)
    requires sep !in s
    ensures Split(s, sep) == [s]
  {
  }

  /** `IndexOf` finds the first occurrence. */
  lemma {:induction false} IndexOfFirst(s: string, c: char, j: nat)
    requires j < |s| && s[j] == c && c !in s[..j]
    ensures IndexOf(s, c) == Some(j)
  {
    if j > 0 {
      assert s[0] == s[..j][0];
      assert s[1..][..j - 1] == s[..j][1..];
      IndexOfFirst(s[1..], c, j - 1);
    }
  }

  /** A separator after a separator-free prefix ends the first piece there. */
  lemma SplitAfter(first: string, sep: char, rest: string)
    requires sep !in first
    ensures Split(first + [sep] + rest, sep) == [first] + Split(rest, sep)
  {
    var s := first + [sep] + rest;
    assert s[..|first|] == first;
    IndexOfFirst(s, sep, |first|);
    assert s[|first| + 1..] == rest;
  }

  /** The pieces of `first + sep + rest` when neither part holds the separator. */
  lemma SplitTwo(first: string, sep: char, rest: string)
    requires sep !in first && sep !in rest
    ensures Split(first + [sep] + rest, sep) == [first, rest]
    ensures Piece(first + [sep] + rest, sep, 1) == Some(rest)
  {
    SplitAfter(first, sep, rest);
    SplitWithout(rest, sep);
  }

  /** Joining separator-free pieces and splitting again gives the pieces back. */
  lemma {:induction false} JoinSplit(pieces: seq<string>, sep: char)
    requires |pieces| >= 1
    requires forall i :: 0 <= i < |pieces| ==> sep !in pieces[i]
    ensures Split(Join(pieces, sep), sep) == pieces
    decreases |pieces|
  {
    if |pieces| == 1 {
      SplitWithout(pieces[0], sep);
    } else {
      JoinSplit(pieces[1..], sep);
      SplitAfter(pieces[0], sep, Join(pieces[1..], sep));
    }
  }

  // ---------------------------------------------------------------- parseInt

  /** The white space and line terminators `parseInt` skips at the start. */
  predicate IsJsSpace(c: char)
  {
    || c == '\t' || c == '\n' || c == '\U{B}' || c == '\U{C}' || c == '\r'
    || c == ' ' || c == '\U{A0}' || c == '\U{1680}'
    || ('\U{2000}' <= c <= '\U{200A}')
    || c == '\U{2028}' || c == '\U{2029}' || c == '\U{202F}' || c == '\U{205F}'
    || c == '\U{3000}' || c == '\U{FEFF}'
  }

  /** `s` without its leading white space. */
  function TrimStart(s: string): (t: string)
    ensures |t| <= |s| && t == s[|s| - |t|..]
    ensures t == [] || !IsJsSpace(t[0])
    ensures forall k :: 0 <= k < |s| - |t| ==> IsJsSpace(s[k])
  {
    if s != [] && IsJsSpace(s[0]) then TrimStart(s[1..]) else s
  }

  /** The value of `c` as a digit of base 36 (0-9, then a/A to z/Z), if it is one. */
  function DigitOf(c: char): Option<nat>
  {
    if '0' <= c <= '9' then Some(c as int - '0' as int)
    else if 'a' <= c <= 'z' then Some(c as int - 'a' as int + 10)
    else if 'A' <= c <= 'Z' then Some(c as int - 'A' as int + 10)
    else None
  }

  predicate IsDigit(c: char, radix: nat)
  {
    DigitOf(c).Some? && DigitOf(c).value < radix
  }

  /** The length of the longest prefix of `s` made of digits of `radix`. */
  function DigitRun(s: string, radix: nat): (n: nat)
    ensures n <= |s|
    ensures forall k :: 0 <= k < n ==> IsDigit(s[k], radix)
    ensures n < |s| ==> !IsDigit(s[n], radix)
  {
    if s != [] && IsDigit(s[0], radix) then 1 + DigitRun(s[1..], radix) else 0
  }

  /** The number the digits `ds` denote in base `radix`, most significant first. */
  function DigitsValue(ds: string, radix: nat): nat
    requires forall k :: 0 <= k < |ds| ==> IsDigit(ds[k], radix)
  {
    if ds == [] then 0
    else
      var last := ds[|ds| - 1];
      assert IsDigit(last, radix);
      Shift(DigitsValue(ds[..|ds| - 1], radix), radix, DigitOf(last).value)
  }

  /** Appending digit `d` to the digits of `v` in base `radix`. */
  function Shift(v: nat, radix: nat, d: nat): nat
  {
    v * radix + d
  }

  /**
   * `parseInt(s)` with no radix: skip leading white space, take an optional
   * sign, then read the digits (`None` is `NaN`).
   */
  function ParseInt(s: string): (r: Option<int>)
  {
    var t := TrimStart(s);
    if |t| > 0 && t[0] == '-' then
      match ParseUnsigned(t[1..])
      case None => None
      case Some(m) => Some(-m)
    else if |t| > 0 && t[0] == '+' then ParseUnsigned(t[1..])
    else ParseUnsigned(t)
  }

  /** Base 16 after a `0x`/`0X` prefix, base 10 otherwise. */
  function ParseUnsigned(u: string): Option<int>
  {
    if StartsWith(u, "0x") || StartsWith(u, "0X") then ParseDigits(u[2..], 16)
    else ParseDigits(u, 10)
  }

  /** The value of the longest run of digits at the start of `v`; `None` when there is none. */
  function ParseDigits(v: string, radix: nat): Option<int>
  {
    var n := DigitRun(v, radix);
    if n == 0 then None else Some(DigitsValue(v[..n], radix))
  }

  /** The decimal digit character for `d`. */
  function DecimalDigit(d: nat): (c: char)
    requires d < 10
    ensures IsDigit(c, 10) && DigitOf(c) == Some(d)
  {
    ('0' as int + d) as char
  }

  /** `${n}` for a non-negative integer: its decimal digits without leading zeros. */
  function NatToString(n: nat): (s: string)
    ensures |s| >= 1
    ensures forall k :: 0 <= k < |s| ==> IsDigit(s[k], 10)
    decreases n
  {
    if n < 10 then [DecimalDigit(n)]
    else NatToString(n / 10) + [DecimalDigit(n % 10)]
  }

  /** The digits of `NatToString(n)` denote `n`. */
  lemma {:induction false} NatToStringValue(n: nat)
    ensures DigitsValue(NatToString(n), 10) == n
    decreases n
  {
    var s := NatToString(n);
    if n >= 10 {
      NatToStringValue(n / 10);
      assert s[..|s| - 1] == NatToString(n / 10);
    }
  }

  /** A decimal digit is no white space, sign or hexadecimal marker. */
  lemma DecimalDigitChar(c: char)
    requires IsDigit(c, 10)
    ensures !IsJsSpace(c) && c != '-' && c != '+' && c != 'x' && c != 'X'
  {
  }

  /** A string of decimal digits is read whole, in base 10. */
  lemma ParseDecimalDigits(s: string)
    requires |s| >= 1
    requires forall k :: 0 <= k < |s| ==> IsDigit(s[k], 10)
    ensures ParseInt(s) == Some(DigitsValue(s, 10))
  {
    DecimalDigitChar(s[0]);
    assert TrimStart(s) == s;
    if |s| >= 2 {
      DecimalDigitChar(s[1]);
      assert s[..2][1] == s[1];
    }
    assert !StartsWith(s, "0x") && !StartsWith(s, "0X");
    assert ParseInt(s) == ParseDigits(s, 10);
    assert DigitRun(s, 10) == |s|;
    assert s[..|s|] == s;
  }

  /** `parseInt` reads back the number a template literal printed. */
  lemma ParseIntNatToString(n: nat)
    ensures ParseInt(NatToString(n)) == Some(n)
  {
    ParseDecimalDigits(NatToString(n));
    NatToStringValue(n);
  }

  /** A digit string never holds a separator that is not a digit. */
  lemma NoSeparatorInNumber(n: nat, sep: char)
    requires !IsDigit(sep, 10)
    ensures sep !in NatToString(n)
  {
  }
}
