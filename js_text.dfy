/** The two conversions between JavaScript numbers and text that the admin
    actions rely on: the global `parseInt` with no radix (the stock rule) and
    the decimal rendering of a non-negative integer in a template string (the
    upload file name). A JavaScript NaN is `None`. Numbers are unbounded
    integers here: JavaScript's doubles agree with them only below 10^21 (where
    `${n}` switches to exponent notation) and, for `parseInt`, up to about 16
    digits (where it rounds). */
module JsText {
  import opened Common

  /** The white space `parseInt` skips before the number (WhiteSpace and
      LineTerminator of ECMAScript). */
  predicate IsJsSpace(c: char)
  {
    c == '\t' || c == '\n' || c == '\U{B}' || c == '\U{C}' || c == '\r' || c == ' '
    || c == '\U{A0}' || c == '\U{1680}' || ('\U{2000}' <= c <= '\U{200A}')
    || c == '\U{2028}' || c == '\U{2029}' || c == '\U{202F}' || c == '\U{205F}'
    || c == '\U{3000}' || c == '\U{FEFF}'
  }

  /** `s` without its leading white space. */
  function TrimStart(s: string): (t: string)
    ensures |t| <= |s| && t == s[|s| - |t|..]
    ensures t == [] || !IsJsSpace(t[0])
  {
    if s != [] && IsJsSpace(s[0]) then TrimStart(s[1..]) else s
  }

  /** The value of `c` as a digit of the radix (10 or 16), or -1 when it is not one. */
  function DigitValue(c: char, radix: nat): int
  {
    var d :=
      if '0' <= c <= '9' then c as int - '0' as int
      else if 'a' <= c <= 'z' then c as int - 'a' as int + 10
      else if 'A' <= c <= 'Z' then c as int - 'A' as int + 10
      else 36;
    if d < radix then d else -1
  }

  /** Every character of `s` is a digit of the radix. */
  predicate AllDigits(s: string, radix: nat)
  {
    forall i :: 0 <= i < |s| ==> DigitValue(s[i], radix) >= 0
  }

  /** Length of the longest prefix of `s` made of digits of the radix. */
  function DigitRun(s: string, radix: nat): (n: nat)
    ensures n <= |s|
    ensures AllDigits(s[..n], radix)
    ensures n < |s| ==> DigitValue(s[n], radix) < 0
  {
    if s == [] || DigitValue(s[0], radix) < 0 then 0 else 1 + DigitRun(s[1..], radix)
  }

  /** The number a string of digits denotes, most significant digit first. */
  function DigitsValue(s: string, radix: nat): nat
    requires AllDigits(s, radix)
  {
    if s == [] then 0
    else DigitsValue(s[..|s| - 1], radix) * radix + DigitValue(s[|s| - 1], radix)
  }

  /** The number after the sign: radix 16 after a `0x`/`0X` prefix, else
      radix 10, then the longest run of digits; NaN when that run is empty. */
  function ParseMagnitude(u: string): Option<nat>
  {
    var hex := |u| >= 2 && u[0] == '0' && (u[1] == 'x' || u[1] == 'X');
    var radix := if hex then 16 else 10;
    var body := if hex then u[2..] else u;
    var n := DigitRun(body, radix);
    if n == 0 then None else Some(DigitsValue(body[..n], radix))
  }

  /** The global `parseInt(s)` with no radix argument: skip white space, read
      an optional sign, then the magnitude. */
  function ParseInt(s: string): Option<int>
  {
    ParseSigned(TrimStart(s))
  }

  /** The number at the start of `t`, after an optional sign. */
  function ParseSigned(t: string): Option<int>
  {
    if t != [] && t[0] == '-' then
      match ParseMagnitude(t[1..])
      case None => None
      case Some(m) => Some(-(m as int))
    else if t != [] && t[0] == '+' then ParseMagnitude(t[1..])
    else ParseMagnitude(t)
  }

  function DigitChar(d: nat): char
    requires d < 10
  {
    ('0' as int + d) as char
  }

  /** `${n}` for a non-negative integer `n` below 10^21: its decimal digits,
      without leading zeros. */
  function Decimal(n: nat): string
  {
    if n < 10 then [DigitChar(n)] else Decimal(n / 10) + [DigitChar(n % 10)]
  }

  /** `Decimal(n)` is a non-empty string of decimal digits that denotes `n`,
      and only the number zero is written with a leading `0`. */
  lemma {:induction false} DecimalDigits(n: nat)
    ensures |Decimal(n)| >= 1
    ensures AllDigits(Decimal(n), 10)
    ensures DigitsValue(Decimal(n), 10) == n
    ensures Decimal(n)[0] == '0' ==> n == 0
  {
    if n >= 10 {
      DecimalDigits(n / 10);
      var d := Decimal(n);
      assert d[..|d| - 1] == Decimal(n / 10);
    }
  }

  /** A decimal digit is neither white space, nor a sign, nor a `-`. */
  lemma DigitIsPlain(c: char)
    requires DigitValue(c, 10) >= 0
    ensures '0' <= c <= '9'
    ensures !IsJsSpace(c) && c != '-' && c != '+'
  {
  }

  /** Text that starts with neither white space nor a sign is read as a magnitude. */
  lemma ParseIntUnsigned(s: string)
    requires s != [] && !IsJsSpace(s[0]) && s[0] != '-' && s[0] != '+'
    ensures ParseInt(s) == ParseMagnitude(s)
  {
    assert TrimStart(s) == s;
  }

  /** Digits followed by a non-`x` never form a `0x` prefix. */
  lemma NoHexPrefix(digits: string, rest: string)
    requires |digits| >= 1 && AllDigits(digits, 10)
    requires rest == [] || (rest[0] != 'x' && rest[0] != 'X')
    ensures var s := digits + rest; !(|s| >= 2 && s[0] == '0' && (s[1] == 'x' || s[1] == 'X'))
  {
    var s := digits + rest;
    if |s| >= 2 {
      if |digits| >= 2 {
        assert s[1] == digits[1];
        DigitIsPlain(digits[1]);
      } else {
        assert s[1] == rest[0];
      }
    }
  }

  /** Without a `0x` prefix the magnitude is read in radix 10. */
  lemma DecimalMagnitude(u: string)
    requires !(|u| >= 2 && u[0] == '0' && (u[1] == 'x' || u[1] == 'X'))
    requires DigitRun(u, 10) > 0
    ensures ParseMagnitude(u) == Some(DigitsValue(u[..DigitRun(u, 10)], 10))
  {
  }

  /** A run of decimal digits followed by text that does not continue the
      number reads back as its value: `parseInt` stops at the first
      non-digit. */
  lemma {:induction false} ParseDigitsThen(digits: string, rest: string)
    requires |digits| >= 1
    requires AllDigits(digits, 10)
    requires rest == [] || (DigitValue(rest[0], 10) < 0 && rest[0] != 'x' && rest[0] != 'X')
    ensures ParseInt(digits + rest) == Some(DigitsValue(digits, 10))
  {
    var s := digits + rest;
    assert s[0] == digits[0];
    DigitIsPlain(digits[0]);
    ParseIntUnsigned(s);
    NoHexPrefix(digits, rest);
    DigitRunOfDigits(digits, rest);
    assert s[..|digits|] == digits;
    DecimalMagnitude(s);
  }

  lemma {:induction false} DigitRunOfDigits(digits: string, rest: string)
    requires AllDigits(digits, 10)
    requires rest == [] || DigitValue(rest[0], 10) < 0
    ensures DigitRun(digits + rest, 10) == |digits|
  {
    if digits != [] {
      assert (digits + rest)[1..] == digits[1..] + rest;
      DigitRunOfDigits(digits[1..], rest);
    }
  }

  /** Round trip: `parseInt(`${n}`)` is `n` (in JavaScript, for the integers
      doubles hold exactly). */
  lemma DecimalRoundTrip(n: nat)
    ensures ParseInt(Decimal(n)) == Some(n)
  {
    DecimalDigits(n);
    ParseDigitsThen(Decimal(n), []);
    assert Decimal(n) + [] == Decimal(n);
  }
}
