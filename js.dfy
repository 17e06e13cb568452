/**
 * The few pieces of JavaScript string and number semantics that the modelled
 * helpers rely on: the white-space class, `String.prototype.length` (UTF-16
 * code units), decimal rendering of integers in template literals, and
 * `parseInt` with no radix argument.
 */
module Js {
  import opened Wrappers

  /** JavaScript white space and line terminators: the regular-expression class `\s`,
      which is also the set `parseInt` skips at the start of its argument. */
  predicate IsWhitespace(c: char)
  {
    c == '\t' || c == '\n' || c == '\U{000B}' || c == '\U{000C}' || c == '\r' || c == ' ' ||
    c == '\U{00A0}' || c == '\U{1680}' || ('\U{2000}' <= c <= '\U{200A}') ||
    c == '\U{2028}' || c == '\U{2029}' || c == '\U{202F}' || c == '\U{205F}' ||
    c == '\U{3000}' || c == '\U{FEFF}'
  }

  /** The regular-expression class `\d`: ASCII digits only. */
  predicate IsDigit(c: char)
  {
    '0' <= c <= '9'
  }

  predicate AllDigits(s: string)
  {
    forall i :: 0 <= i < |s| ==> IsDigit(s[i])
  }

  function DigitValue(c: char): (d: nat)
    requires IsDigit(c)
    ensures d < 10
  {
    c as int - '0' as int
  }

  function DigitChar(d: nat): (c: char)
    requires d < 10
    ensures IsDigit(c) && DigitValue(c) == d
  {
    (d + '0' as int) as char
  }

  /** The value of a hexadecimal digit `0-9a-fA-F`, if `c` is one. */
  function HexValue(c: char): (r: Option<nat>)
    ensures r.Some? ==> r.value < 16
    ensures IsDigit(c) ==> r == Some(DigitValue(c))
  {
    if IsDigit(c) then Some(DigitValue(c))
    else if 'a' <= c <= 'f' then Some(c as int - 'a' as int + 10)
    else if 'A' <= c <= 'F' then Some(c as int - 'A' as int + 10)
    else None
  }

  /** Number of UTF-16 code units, which is what JavaScript's `length` counts:
      a character outside the Basic Multilingual Plane takes two. */
  function Utf16Length(s: string): (n: nat)
    ensures |s| <= n <= 2 * |s|
  {
    if |s| == 0 then 0
    else Utf16Length(s[..|s| - 1]) + (if s[|s| - 1] as int > 0xFFFF then 2 else 1)
  }

  /** Strings made only of Basic Multilingual Plane characters have as many
      code units as characters. */
  lemma {:induction false} Utf16LengthOfBmp(s: string)
    requires forall i :: 0 <= i < |s| ==> s[i] as int <= 0xFFFF
    ensures Utf16Length(s) == |s|
  {
    if |s| > 0 {
      Utf16LengthOfBmp(s[..|s| - 1]);
    }
  }

  // ----- integers as decimal text -----

  /** The value of a string of decimal digits, most significant first. */
  function DecimalValue(s: string): nat
    requires AllDigits(s)
  {
    if |s| == 0 then 0 else 10 * DecimalValue(s[..|s| - 1]) + DigitValue(s[|s| - 1])
  }

  /** The value of a string of hexadecimal digits, most significant first. */
  function HexNumberValue(s: string): nat
    requires forall i :: 0 <= i < |s| ==> HexValue(s[i]).Some?
  {
    if |s| == 0 then 0 else 16 * HexNumberValue(s[..|s| - 1]) + HexValue(s[|s| - 1]).value
  }

  /** What `${n}` renders for a non-negative integer: its shortest decimal numeral. */
  function NatToString(n: nat): (s: string)
    ensures |s| >= 1 && AllDigits(s)
    ensures s[0] == '0' ==> n == 0 && s == "0"
  {
    if n < 10 then [DigitChar(n)] else NatToString(n / 10) + [DigitChar(n % 10)]
  }

  lemma {:induction false} DecimalValueOfNatToString(n: nat)
    ensures DecimalValue(NatToString(n)) == n
  {
    if n >= 10 {
      var s := NatToString(n);
      assert s[..|s| - 1] == NatToString(n / 10);
      DecimalValueOfNatToString(n / 10);
    }
  }

  // ----- parseInt -----

  /** `s` with its leading white space removed. */
  function TrimStart(s: string): (t: string)
    ensures |t| <= |s| && t == s[|s| - |t|..]
    ensures |t| > 0 ==> !IsWhitespace(t[0])
    ensures forall i :: 0 <= i < |s| - |t| ==> IsWhitespace(s[i])
  {
    if |s| > 0 && IsWhitespace(s[0]) then TrimStart(s[1..]) else s
  }

  /** The longest prefix of `s` made of decimal digits. */
  function DigitPrefix(s: string): (d: string)
    ensures AllDigits(d) && d <= s
    ensures |d| < |s| ==> !IsDigit(s[|d|])
  {
    if |s| > 0 && IsDigit(s[0]) then [s[0]] + DigitPrefix(s[1..]) else []
  }

  /** The longest prefix of `s` made of hexadecimal digits. */
  function HexPrefix(s: string): (h: string)
    ensures h <= s
    ensures forall i :: 0 <= i < |h| ==> HexValue(h[i]).Some?
    ensures |h| < |s| ==> HexValue(s[|h|]).None?
  {
    if |s| > 0 && HexValue(s[0]).Some? then [s[0]] + HexPrefix(s[1..]) else []
  }

  /**
   * `parseInt(s)` with no radix: skip leading white space, take an optional
   * sign, read base 16 after a "0x"/"0X" prefix and base 10 otherwise, and stop
   * at the first character that is not a digit of that base. `None` is NaN
   * (no digit at all).
   */
  function ParseInt(s: string): (r: Option<int>)
    ensures |TrimStart(s)| == 0 ==> r.None?
    ensures var t := TrimStart(s);
            |t| > 0 && !IsDigit(t[0]) && t[0] != '-' && t[0] != '+' ==> r.None?
    ensures r.Some? && r.value < 0 ==> TrimStart(s)[0] == '-'
  {
    var t := TrimStart(s);
    var negative := |t| > 0 && t[0] == '-';
    var rest := if |t| > 0 && (t[0] == '-' || t[0] == '+') then t[1..] else t;
    if |rest| >= 2 && rest[0] == '0' && (rest[1] == 'x' || rest[1] == 'X') then
      var h := HexPrefix(rest[2..]);
      var value: int := HexNumberValue(h);
      if |h| == 0 then None else Some(if negative then -value else value)
    else
      var d := DigitPrefix(rest);
      var value: int := DecimalValue(d);
      if |d| == 0 then None else Some(if negative then -value else value)
  }

  lemma {:induction false} DigitPrefixOfDigits(s: string)
    requires AllDigits(s)
    ensures DigitPrefix(s) == s
  {
    if |s| > 0 {
      DigitPrefixOfDigits(s[1..]);
    }
  }

  /** Rendering a non-negative integer and parsing it back gives the integer. */
  lemma {:induction false} ParseIntOfNatToString(n: nat)
    ensures ParseInt(NatToString(n)) == Some(n)
  {
    var s := NatToString(n);
    assert IsDigit(s[0]);
    assert !IsWhitespace(s[0]);
    assert TrimStart(s) == s;
    assert !(|s| >= 2 && s[0] == '0');
    DigitPrefixOfDigits(s);
    DecimalValueOfNatToString(n);
  }

  /** The digits read are exactly the leading decimal run; a numeral followed by
      other text parses to the numeral's value. */
  lemma {:induction false} DigitPrefixOfConcat(d: string, tail: string)
    requires AllDigits(d)
    requires |tail| == 0 || !IsDigit(tail[0])
    ensures DigitPrefix(d + tail) == d
  {
    if |d| > 0 {
      assert (d + tail)[1..] == d[1..] + tail;
      DigitPrefixOfConcat(d[1..], tail);
    }
  }

  /** `parseInt` reads a numeral and ignores what follows it, unless that turns
      a lone "0" into a "0x" prefix. */
  lemma {:induction false} ParseIntOfNumeralPrefix(n: nat, tail: string)
    requires |tail| == 0 || (!IsDigit(tail[0]) && !(n == 0 && (tail[0] == 'x' || tail[0] == 'X')))
    ensures ParseInt(NatToString(n) + tail) == Some(n)
  {
    var d := NatToString(n);
    var s := d + tail;
    assert s[0] == d[0] && IsDigit(s[0]);
    assert !IsWhitespace(s[0]);
    assert TrimStart(s) == s;
    if |d| >= 2 {
      assert s[1] == d[1] && IsDigit(s[1]);
    } else if |s| >= 2 && s[0] == '0' {
      assert s[1] == tail[0];
    }
    DigitPrefixOfConcat(d, tail);
    DecimalValueOfNatToString(n);
  }

  /** A minus sign in front of a numeral negates it. */
  lemma {:induction false} ParseIntOfNegative(n: nat)
    ensures ParseInt("-" + NatToString(n)) == Some(-(n as int))
  {
    var d := NatToString(n);
    var s := ['-'] + d;
    assert s == "-" + d;
    assert s[0] == '-' && !IsWhitespace(s[0]);
    assert TrimStart(s) == s;
    assert s[1..] == d;
    assert IsDigit(d[0]);
    assert !(|d| >= 2 && d[0] == '0');
    DigitPrefixOfDigits(d);
    DecimalValueOfNatToString(n);
    assert DecimalValue(DigitPrefix(d)) == n;
  }

}
