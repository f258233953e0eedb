/** The pieces of JavaScript's string and number conversions that the
    screens depend on: prefix tests, parseInt, parseFloat, String(n) for
    integers and String.prototype.trim. */
module Js {

  datatype Option<T> = None | Some(value: T)

  /** A JavaScript number as parseFloat produces it: a finite value or NaN. */
  datatype Num = Finite(value: real) | NaN

  /** String.prototype.startsWith. */
  predicate StartsWith(s: string, prefix: string) {
    |prefix| <= |s| && s[..|prefix|] == prefix
  }

  /** A string whose first character differs from a prefix's does not
      start with it. */
  lemma FirstCharDiffers(s: string, prefix: string)
    requires |s| > 0 && |prefix| > 0 && s[0] != prefix[0]
    ensures !StartsWith(s, prefix)
  {
    if |prefix| <= |s| {
      assert s[..|prefix|][0] == s[0];
    }
  }

  predicate IsDigit(c: char) {
    '0' <= c <= '9'
  }

  predicate AllDigits(s: string) {
    forall i :: 0 <= i < |s| ==> IsDigit(s[i])
  }

  function DigitValue(c: char): (d: nat)
    requires IsDigit(c)
    ensures d < 10
  {
    c as int - '0' as int
  }

  function DigitChar(d: nat): (c: char)
    requires d < 10
    ensures IsDigit(c) && DigitValue(c) == d
  {
    ('0' as int + d) as char
  }

  /** The number of decimal digits at the start of s. */
  function DigitRun(s: string): (n: nat)
    ensures n <= |s|
    ensures AllDigits(s[..n])
    ensures n < |s| ==> !IsDigit(s[n])
  {
    if s == [] || !IsDigit(s[0]) then 0
    else
      var k := DigitRun(s[1..]);
      assert s[..k + 1] == [s[0]] + s[1..][..k];
      k + 1
  }

  /** The value of a string of decimal digits, most significant first. */
  function DigitsValue(s: string): nat
    requires AllDigits(s)
  {
    if s == [] then 0 else 10 * DigitsValue(s[..|s| - 1]) + DigitValue(s[|s| - 1])
  }

  /** The value of the digits after a decimal point: "25" is 0.25. */
  function FractionValue(s: string): (x: real)
    requires AllDigits(s)
    ensures 0.0 <= x < 1.0
  {
    if s == [] then 0.0 else (DigitValue(s[0]) as real + FractionValue(s[1..])) / 10.0
  }

  /** The text after one leading sign character, if there is one. */
  function Unsigned(s: string): (r: string)
    ensures r == s || (|s| > 0 && r == s[1..] && (s[0] == '-' || s[0] == '+'))
  {
    if |s| > 0 && (s[0] == '-' || s[0] == '+') then s[1..] else s
  }

  /** The text after the leading white space, which parseInt and
      parseFloat skip. */
  function Unspaced(s: string): string
  {
    s[LeadingSpaces(s)..]
  }

  /** What parseInt(t, 10) reads from text that does not start with white
      space: an optional sign, then the longest run of digits; None stands
      for NaN. */
  function SignedDecimal(t: string): (r: Option<int>)
    ensures r.None? <==> (Unsigned(t) == [] || !IsDigit(Unsigned(t)[0]))
  {
    var body := Unsigned(t);
    var n := DigitRun(body);
    if n == 0 then None
    else
      var v: int := DigitsValue(body[..n]);
      Some(if t[0] == '-' then -v else v)
  }

  /** parseInt(s, 10): leading white space skipped, then SignedDecimal. */
  function ParseInt(s: string): (r: Option<int>)
    ensures r.None? <==> (Unsigned(Unspaced(s)) == [] || !IsDigit(Unsigned(Unspaced(s))[0]))
  {
    SignedDecimal(Unspaced(s))
  }

  predicate IsHexDigit(c: char) {
    IsDigit(c) || 'a' <= c <= 'f' || 'A' <= c <= 'F'
  }

  predicate AllHexDigits(s: string) {
    forall i :: 0 <= i < |s| ==> IsHexDigit(s[i])
  }

  function HexDigitValue(c: char): (d: nat)
    requires IsHexDigit(c)
    ensures d < 16
  {
    if IsDigit(c) then DigitValue(c)
    else if 'a' <= c <= 'f' then c as int - 'a' as int + 10
    else c as int - 'A' as int + 10
  }

  /** The number of hexadecimal digits at the start of s. */
  function HexRun(s: string): (n: nat)
    ensures n <= |s|
    ensures AllHexDigits(s[..n])
    ensures n < |s| ==> !IsHexDigit(s[n])
  {
    if s == [] || !IsHexDigit(s[0]) then 0
    else
      var k := HexRun(s[1..]);
      assert s[..k + 1] == [s[0]] + s[1..][..k];
      k + 1
  }

  /** The value of a string of hexadecimal digits, most significant first. */
  function HexDigitsValue(s: string): nat
    requires AllHexDigits(s)
  {
    if s == [] then 0 else 16 * HexDigitsValue(s[..|s| - 1]) + HexDigitValue(s[|s| - 1])
  }

  /** "0x" or "0X", which switches parseInt without a radix to base 16. */
  predicate HexPrefix(body: string) {
    |body| >= 2 && body[0] == '0' && (body[1] == 'x' || body[1] == 'X')
  }

  /** parseInt(s) without a radix: as parseInt(s, 10), except that a "0x"
      or "0X" after the sign makes the digits that follow hexadecimal. */
  function ParseIntAuto(s: string): (r: Option<int>)
    ensures !HexPrefix(Unsigned(Unspaced(s))) ==> r == ParseInt(s)
    ensures HexPrefix(Unsigned(Unspaced(s))) ==> (r.None? <==> HexRun(Unsigned(Unspaced(s))[2..]) == 0)
  {
    var t := Unspaced(s);
    var body := Unsigned(t);
    if !HexPrefix(body) then SignedDecimal(t)
    else
      var digits := body[2..];
      var n := HexRun(digits);
      if n == 0 then None
      else
        var v: int := HexDigitsValue(digits[..n]);
        Some(if t[0] == '-' then -v else v)
  }

  /** `parseInt(s) || 0`. */
  function ParseIntAutoOrZero(s: string): (n: int)
    ensures ParseIntAuto(s).Some? ==> n == ParseIntAuto(s).value
    ensures ParseIntAuto(s).None? ==> n == 0
  {
    match ParseIntAuto(s)
    case Some(v) => v
    case None => 0
  }

  /** parseFloat(s) for plain decimal notation: leading white space is
      skipped, then an optional sign, digits, an optional point and more
      digits, with at least one digit in all. The longest such prefix is
      read; NaN when there is none. */
  function ParseFloat(s: string): (r: Num)
    ensures r.NaN? <==>
      var body := Unsigned(Unspaced(s));
      var ip := DigitRun(body);
      ip == 0 && !(ip < |body| && body[ip] == '.' && DigitRun(body[ip + 1..]) > 0)
  {
    SignedFloat(Unspaced(s))
  }

  /** What parseFloat reads from text that does not start with white space:
      an optional sign, digits, and an optional point with more digits. */
  function SignedFloat(t: string): (r: Num)
    ensures r.NaN? <==>
      var body := Unsigned(t);
      var ip := DigitRun(body);
      ip == 0 && !(ip < |body| && body[ip] == '.' && DigitRun(body[ip + 1..]) > 0)
  {
    var body := Unsigned(t);
    var ip := DigitRun(body);
    var hasPoint := ip < |body| && body[ip] == '.';
    var fp := if hasPoint then DigitRun(body[ip + 1..]) else 0;
    if ip == 0 && fp == 0 then NaN
    else
      var frac := if hasPoint then body[ip + 1..][..fp] else "";
      var mag := DigitsValue(body[..ip]) as real + FractionValue(frac);
      Finite(if t[0] == '-' then -mag else mag)
  }

  /** `parseFloat(s) || 0`. */
  function ParseFloatOrZero(s: string): (x: real)
    ensures ParseFloat(s).Finite? ==> x == ParseFloat(s).value
    ensures ParseFloat(s).NaN? ==> x == 0.0
  {
    match ParseFloat(s)
    case Finite(v) => v
    case NaN => 0.0
  }

  /** String(n) for a natural number. */
  function NatToString(n: nat): (s: string)
    ensures |s| > 0 && AllDigits(s)
    ensures DigitsValue(s) == n
  {
    if n < 10 then [DigitChar(n)]
    else
      var prefix := NatToString(n / 10);
      var s := prefix + [DigitChar(n % 10)];
      assert s[..|s| - 1] == prefix;
      s
  }

  /** String(n) for an integer. */
  function IntToString(n: int): (s: string)
    ensures |s| > 0
    ensures n >= 0 ==> s == NatToString(n)
    ensures n < 0 ==> s == "-" + NatToString(-n)
  {
    if n < 0 then "-" + NatToString(-n) else NatToString(n)
  }

  lemma {:induction false} DigitRunOfDigits(ds: string, tail: string)
    requires AllDigits(ds)
    requires tail == [] || !IsDigit(tail[0])
    ensures DigitRun(ds + tail) == |ds|
  {
    if ds != [] {
      assert (ds + tail)[1..] == ds[1..] + tail;
      DigitRunOfDigits(ds[1..], tail);
    }
  }

  /** Text that does not start with white space is read as it is. */
  lemma UnspacedKeeps(s: string)
    requires s == [] || !IsSpace(s[0])
    ensures Unspaced(s) == s
  {
    assert s[0..] == s;
  }

  /** White space in front of a number changes nothing for parseInt and
      parseFloat: parseInt(" 5") is parseInt("5"). */
  lemma SpacesSkipped(lead: string, s: string)
    requires forall k :: 0 <= k < |lead| ==> IsSpace(lead[k])
    ensures ParseInt(lead + s) == ParseInt(s) && ParseIntAuto(lead + s) == ParseIntAuto(s)
    ensures ParseFloat(lead + s) == ParseFloat(s)
  {
    UnspacedPrefix(lead, s);
  }

  lemma {:induction false} UnspacedPrefix(lead: string, s: string)
    requires forall k :: 0 <= k < |lead| ==> IsSpace(lead[k])
    ensures Unspaced(lead + s) == Unspaced(s)
  {
    if lead != [] {
      var u := lead + s;
      assert u[0] == lead[0];
      assert u[1..] == lead[1..] + s;
      UnspacedPrefix(lead[1..], s);
      assert Unspaced(u) == u[1..][LeadingSpaces(u[1..])..];
    } else {
      assert lead + s == s;
    }
  }

  /** parseInt reads back what String(n) writes, also when other text
      follows that does not start with a digit (parseInt("12.5") == 12). */
  lemma ParseIntRoundTrip(n: int, tail: string)
    requires tail == [] || !IsDigit(tail[0])
    ensures ParseInt(IntToString(n) + tail) == Some(n)
  {
    var digits := NatToString(if n < 0 then -n else n);
    assert IsDigit(digits[0]);
    UnspacedKeeps(IntToString(n) + tail);
    SignedDecimalRoundTrip(n, tail);
  }

  lemma SignedDecimalRoundTrip(n: int, tail: string)
    requires tail == [] || !IsDigit(tail[0])
    ensures SignedDecimal(IntToString(n) + tail) == Some(n)
  {
    var digits := NatToString(if n < 0 then -n else n);
    var s := IntToString(n) + tail;
    DigitRunOfDigits(digits, tail);
    if n < 0 {
      assert s == "-" + (digits + tail);
      assert Unsigned(s) == digits + tail;
    } else {
      assert s == digits + tail;
      assert Unsigned(s) == digits + tail;
    }
    assert (digits + tail)[..|digits|] == digits;
  }

  /** parseInt without a radix also reads back what String(n) writes: a
      decimal numeral never starts with "0x". */
  lemma ParseIntAutoRoundTrip(n: int)
    ensures ParseIntAuto(IntToString(n)) == Some(n)
  {
    var digits := NatToString(if n < 0 then -n else n);
    var s := IntToString(n);
    assert IsDigit(digits[0]);
    UnspacedKeeps(s);
    assert Unsigned(s) == digits;
    assert |digits| >= 2 ==> IsDigit(digits[1]);
    SignedDecimalRoundTrip(n, []);
    assert s + [] == s;
  }

  /** Without a radix, "0x10" is sixteen, where parseInt(s, 10) stops at
      the "x" and reads 0. */
  lemma HexWithoutRadix()
    ensures ParseIntAuto("0x10") == Some(16)
    ensures ParseInt("0x10") == Some(0)
  {
    var s := "0x10";
    UnspacedKeeps(s);
    assert Unsigned(s) == s;
    assert s[2..] == "10";
    HexTen();
    assert "10"[..2] == "10";
    DecimalZeroX();
  }

  /** "10" is two hexadecimal digits worth sixteen. */
  lemma HexTen()
    ensures HexRun("10") == 2
    ensures HexDigitsValue("10") == 16
  {
    assert "10"[1..] == "0";
    assert "0"[1..] == "";
    assert "10"[..1] == "1";
    assert "1"[..0] == "";
  }

  /** In base ten "0x10" stops at the "x". */
  lemma DecimalZeroX()
    ensures SignedDecimal("0x10") == Some(0)
  {
    var s := "0x10";
    assert Unsigned(s) == s;
    assert DigitRun(s) == 1 by {
      assert s[1..] == "x10";
    }
    assert s[..1] == "0";
    assert "0"[..0] == "";
  }

  /** "0" and "-0" both read as zero; "abc" is NaN. */
  lemma ParseIntZeroes()
    ensures ParseInt("0") == Some(0) && ParseInt("-0") == Some(0)
    ensures ParseInt("abc").None?
  {
    UnspacedKeeps("0");
    UnspacedKeeps("-0");
    UnspacedKeeps("abc");
    assert Unsigned("-0") == "0";
    assert DigitRun("0") == 1 by {
      assert "0"[1..] == "";
    }
    assert "0"[..1] == "0";
    assert DigitsValue("0") == 0 by {
      assert "0"[..0] == "";
    }
  }

  /** parseFloat reads back what String(n) writes for an integer. */
  lemma ParseFloatOfInt(n: int)
    ensures ParseFloat(IntToString(n)) == Finite(n as real)
  {
    var s := IntToString(n);
    assert IsDigit(NatToString(if n < 0 then -n else n)[0]);
    UnspacedKeeps(s);
    SignedFloatOfInt(n);
  }

  lemma SignedFloatOfInt(n: int)
    ensures SignedFloat(IntToString(n)) == Finite(n as real)
  {
    var digits := NatToString(if n < 0 then -n else n);
    var s := IntToString(n);
    DigitRunOfDigits(digits, []);
    assert digits + [] == digits;
    assert Unsigned(s) == digits;
    assert digits[..|digits|] == digits;
  }

  /** The characters String.prototype.trim removes: ECMAScript WhiteSpace
      and LineTerminator code points. */
  predicate IsSpace(c: char) {
    var k := c as int;
    k == 0x20 || (0x09 <= k <= 0x0D) || k == 0xA0 || k == 0x1680
    || (0x2000 <= k <= 0x200A) || k == 0x2028 || k == 0x2029
    || k == 0x202F || k == 0x205F || k == 0x3000 || k == 0xFEFF
  }

  /** Number of white-space characters at the start of s. */
  function LeadingSpaces(s: string): (k: nat)
    ensures k <= |s|
    ensures forall i :: 0 <= i < k ==> IsSpace(s[i])
    ensures k < |s| ==> !IsSpace(s[k])
  {
    if s == [] || !IsSpace(s[0]) then 0 else 1 + LeadingSpaces(s[1..])
  }

  /** Number of white-space characters at the end of s. */
  function TrailingSpaces(s: string): (k: nat)
    ensures k <= |s|
    ensures forall i :: |s| - k <= i < |s| ==> IsSpace(s[i])
    ensures k < |s| ==> !IsSpace(s[|s| - 1 - k])
  {
    if s == [] || !IsSpace(s[|s| - 1]) then 0 else 1 + TrailingSpaces(s[..|s| - 1])
  }

  /** String.prototype.trim: the slice of s after its leading white space
      (LeadingSpaces) with only white space after it, and neither starting
      nor ending with white space. */
  function Trim(s: string): (r: string)
    ensures r == "" <==> forall i :: 0 <= i < |s| ==> IsSpace(s[i])
    ensures r != "" ==> !IsSpace(r[0]) && !IsSpace(r[|r| - 1])
    ensures |r| <= |s|
    ensures LeadingSpaces(s) + |r| <= |s| && r == s[LeadingSpaces(s)..LeadingSpaces(s) + |r|]
    ensures forall k :: LeadingSpaces(s) + |r| <= k < |s| ==> IsSpace(s[k])
  {
    var a := LeadingSpaces(s);
    var rest := s[a..];
    var b := TrailingSpaces(rest);
    assert a < |s| ==> rest[0] == s[a] && !IsSpace(rest[0]) && b < |rest|;
    assert rest[..|rest| - b] == s[a..|s| - b];
    assert forall k :: |s| - b <= k < |s| ==> s[k] == rest[k - a];
    rest[..|rest| - b]
  }

  /** trim leaves a string alone that neither starts nor ends with white space. */
  lemma TrimKeeps(s: string)
    requires s == "" || (!IsSpace(s[0]) && !IsSpace(s[|s| - 1]))
    ensures Trim(s) == s
  {
  }

  /** trim is idempotent. */
  lemma TrimIdempotent(s: string)
    ensures Trim(Trim(s)) == Trim(s)
  {
    TrimKeeps(Trim(s));
  }

  /** Index of the first occurrence of c in s, or |s| when there is none. */
  function IndexOf(s: string, c: char): (k: nat)
    ensures k <= |s|
    ensures forall j :: 0 <= j < k ==> s[j] != c
    ensures k < |s| ==> s[k] == c
  {
    if s == [] || s[0] == c then 0 else 1 + IndexOf(s[1..], c)
  }
}
