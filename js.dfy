/** The few pieces of JavaScript value semantics the handlers depend on:
    absent values, truthiness in `||` / `&&` / `!` tests, `a || b` defaulting,
    `String(x)` / template-literal conversion, `parseInt(x, 10)` and
    `parseInt(x)` without a radix, and the
    string prefix and suffix tests. */
module Js {

  datatype Option<+T> = None | Some(value: T)

  datatype Result<+T, +E> = Success(value: T) | Failure(error: E)

  /** A JavaScript number as the handlers meet it: an integer or NaN.
      Negative zero is folded into 0; every use here (truthiness, `String`,
      JSON) treats the two alike. */
  datatype Number = Finite(value: int) | NaN

  /** A JSON value as it arrives in a parsed request body. `Object` stands
      for any object; arrays and non-integral numbers are not modelled. */
  datatype JsonValue = Undefined | Null | Bool(b: bool) | Num(n: int) | Str(s: string) | Object

  // ----- truthiness -----

  /** `!!s` for a string that may be undefined or null: only "" is falsy. */
  predicate Truthy(s: Option<string>) {
    s.Some? && s.value != ""
  }

  /** `!!n` for a number-valued field that may be absent (JSON cannot carry NaN). */
  predicate TruthyInt(n: Option<int>) {
    n.Some? && n.value != 0
  }

  /** `!!n`: 0 and NaN are falsy. */
  predicate TruthyNumber(n: Number) {
    n.Finite? && n.value != 0
  }

  /** `s || fallback` where the fallback is a string. */
  function OrElse(s: Option<string>, fallback: string): string {
    if Truthy(s) then s.value else fallback
  }

  /** `n || fallback` where the fallback is an integer. */
  function NumberOr(n: Number, fallback: int): int {
    if TruthyNumber(n) then n.value else fallback
  }

  // ----- strings -----

  predicate StartsWith(s: string, prefix: string) {
    |prefix| <= |s| && s[..|prefix|] == prefix
  }

  predicate EndsWith(s: string, suffix: string) {
    |suffix| <= |s| && s[|s| - |suffix|..] == suffix
  }

  /** A possibly-absent string inside a template literal: `${undefined}` is "undefined". */
  function Interpolate(s: Option<string>): string {
    if s.Some? then s.value else "undefined"
  }

  // ----- number to string -----

  function DigitChar(d: int): char
    requires 0 <= d < 10
  {
    (d + '0' as int) as char
  }

  predicate IsDigit(c: char) {
    '0' <= c <= '9'
  }

  /** Decimal digits of a natural number, most significant first, no leading zeros. */
  function NatToString(n: nat): string
    decreases n
  {
    if n < 10 then [DigitChar(n)] else NatToString(n / 10) + [DigitChar(n % 10)]
  }

  /** `String(n)` for an integral number, as all its decimal digits; this is
      JavaScript's output for magnitudes below 10^21 (exponent form above). */
  function IntToString(n: int): string {
    if n < 0 then "-" + NatToString(-n) else NatToString(n)
  }

  /** `String(n)` / `${n}` for a number that may be NaN. */
  function NumberToString(n: Number): string {
    match n
    case Finite(v) => IntToString(v)
    case NaN => "NaN"
  }

  /** `String(v)` for a parsed JSON value. */
  function ToString(v: JsonValue): string {
    match v
    case Undefined => "undefined"
    case Null => "null"
    case Bool(b) => if b then "true" else "false"
    case Num(n) => IntToString(n)
    case Str(s) => s
    case Object => "[object Object]"
  }

  // ----- parseInt(x, 10) -----

  /** The characters `parseInt` skips before the number: white space and line terminators. */
  predicate IsWhiteSpace(c: char) {
    c == ' ' || c == '\t' || c == '\n' || c == '\r' || c == '\U{000B}' || c == '\U{000C}'
    || c == '\U{00A0}' || c == '\U{1680}' || ('\U{2000}' <= c <= '\U{200A}')
    || c == '\U{2028}' || c == '\U{2029}' || c == '\U{202F}' || c == '\U{205F}'
    || c == '\U{3000}' || c == '\U{FEFF}'
  }

  function TrimStart(s: string): (r: string)
    ensures |r| <= |s| && r == s[|s| - |r|..]
    ensures r != [] ==> !IsWhiteSpace(r[0])
  {
    if s != [] && IsWhiteSpace(s[0]) then TrimStart(s[1..]) else s
  }

  /** Length of the longest all-digit prefix of `s`. */
  function DigitRun(s: string): (n: nat)
    ensures n <= |s|
    ensures forall i :: 0 <= i < n ==> IsDigit(s[i])
    ensures n < |s| ==> !IsDigit(s[n])
  {
    if s != [] && IsDigit(s[0]) then 1 + DigitRun(s[1..]) else 0
  }

  function DigitValue(c: char): nat
    requires IsDigit(c)
  {
    c as int - '0' as int
  }

  /** The value of a string of decimal digits. */
  function DigitsValue(s: string): nat
    requires forall i :: 0 <= i < |s| ==> IsDigit(s[i])
  {
    if s == [] then 0 else DigitsValue(s[..|s| - 1]) * 10 + DigitValue(s[|s| - 1])
  }

  /** `parseInt(input, 10)`: skip leading white space, take an optional sign,
      then the longest run of decimal digits; NaN when there is none. */
  function ParseInt(input: string): (r: Number)
    ensures r.Finite? ==> exists i :: 0 <= i < |input| && IsDigit(input[i])
  {
    var s := TrimStart(input);
    if s != [] && s[0] == '-' then SignedDigits(s[1..], true)
    else if s != [] && s[0] == '+' then SignedDigits(s[1..], false)
    else SignedDigits(s, false)
  }

  /** The number denoted by the leading digits of `body`, negated when a minus sign preceded them. */
  function SignedDigits(body: string, negative: bool): Number {
    var n := DigitRun(body);
    if n == 0 then NaN
    else
      var v: int := DigitsValue(body[..n]);
      Finite(if negative then -v else v)
  }

  // ----- parseInt(x) without a radix -----

  predicate IsHexDigit(c: char) {
    IsDigit(c) || ('a' <= c <= 'f') || ('A' <= c <= 'F')
  }

  function HexDigitValue(c: char): (v: nat)
    requires IsHexDigit(c)
    ensures v < 16
  {
    if IsDigit(c) then c as int - '0' as int
    else if 'a' <= c <= 'f' then c as int - 'a' as int + 10
    else c as int - 'A' as int + 10
  }

  /** Length of the longest all-hex-digit prefix of `s`. */
  function HexRun(s: string): (n: nat)
    ensures n <= |s|
    ensures forall i :: 0 <= i < n ==> IsHexDigit(s[i])
    ensures n < |s| ==> !IsHexDigit(s[n])
  {
    if s != [] && IsHexDigit(s[0]) then 1 + HexRun(s[1..]) else 0
  }

  /** The value of a string of hexadecimal digits. */
  function HexValue(s: string): nat
    requires forall i :: 0 <= i < |s| ==> IsHexDigit(s[i])
  {
    if s == [] then 0 else HexValue(s[..|s| - 1]) * 16 + HexDigitValue(s[|s| - 1])
  }

  /** The number denoted by the leading hex digits of `body`, negated when a minus sign preceded them. */
  function SignedHexDigits(body: string, negative: bool): Number {
    var n := HexRun(body);
    if n == 0 then NaN
    else
      var v: int := HexValue(body[..n]);
      Finite(if negative then -v else v)
  }

  /** The text after the white space and the optional sign. */
  function Unsigned(input: string): string {
    var s := TrimStart(input);
    if s != [] && (s[0] == '-' || s[0] == '+') then s[1..] else s
  }

  predicate HasHexPrefix(s: string) {
    |s| >= 2 && s[0] == '0' && (s[1] == 'x' || s[1] == 'X')
  }

  /** `parseInt(input)` with no radix: after the white space and the sign, a
      `0x` or `0X` prefix selects base 16; anything else is read in base 10. */
  function ParseIntNoRadix(input: string): Number {
    var s := TrimStart(input);
    var body := Unsigned(input);
    if HasHexPrefix(body) then SignedHexDigits(body[2..], s != [] && s[0] == '-')
    else ParseInt(input)
  }

  /** `parseInt(v)` applied to a JSON value: the value is first converted with `String`. */
  function ParseIntValue(v: JsonValue): Number {
    ParseIntNoRadix(ToString(v))
  }

  // ----- lemmas -----

  lemma {:induction false} NatToStringDigits(n: nat)
    ensures NatToString(n) != []
    ensures forall i :: 0 <= i < |NatToString(n)| ==> IsDigit(NatToString(n)[i])
    decreases n
  {
    if n >= 10 {
      NatToStringDigits(n / 10);
    }
  }

  lemma {:induction false} NatToStringValue(n: nat)
    ensures forall i :: 0 <= i < |NatToString(n)| ==> IsDigit(NatToString(n)[i])
    ensures DigitsValue(NatToString(n)) == n
    decreases n
  {
    NatToStringDigits(n);
    if n >= 10 {
      NatToStringValue(n / 10);
      var s := NatToString(n);
      assert s[..|s| - 1] == NatToString(n / 10);
    }
  }

  /** Reading back what `String` wrote: `parseInt(String(n)) == n` for every integer. */
  lemma ParseIntOfIntToString(n: int)
    ensures ParseInt(IntToString(n)) == Finite(n)
  {
    var m: nat := if n < 0 then -n else n;
    NatToStringValue(m);
    NatToStringDigits(m);
    if n < 0 {
      ParseIntOfDigits(NatToString(m), true);
    } else {
      ParseIntOfDigits(NatToString(m), false);
    }
  }

  lemma ParseIntOfDigits(digits: string, negative: bool)
    requires digits != []
    requires forall i :: 0 <= i < |digits| ==> IsDigit(digits[i])
    ensures ParseInt(if negative then "-" + digits else digits)
         == Finite(if negative then -(DigitsValue(digits) as int) else DigitsValue(digits))
  {
    var s := if negative then "-" + digits else digits;
    assert s[0] == '-' || IsDigit(s[0]);
    TrimStartNoWhiteSpace(s);
    assert negative ==> s[1..] == digits;
    SignedDigitsOfDigits(digits, negative);
  }

  lemma SignedDigitsOfDigits(digits: string, negative: bool)
    requires digits != []
    requires forall i :: 0 <= i < |digits| ==> IsDigit(digits[i])
    ensures SignedDigits(digits, negative)
         == Finite(if negative then -(DigitsValue(digits) as int) else DigitsValue(digits))
  {
    DigitRunOfDigits(digits);
    assert digits[..|digits|] == digits;
  }

  lemma TrimStartNoWhiteSpace(s: string)
    requires s != [] && (s[0] == '-' || IsDigit(s[0]))
    ensures TrimStart(s) == s
  {
    NotWhiteSpace(s[0]);
  }

  lemma NotWhiteSpace(c: char)
    requires c == '-' || IsDigit(c)
    ensures !IsWhiteSpace(c)
  {
  }

  lemma {:induction false} DigitRunOfDigits(s: string)
    requires forall i :: 0 <= i < |s| ==> IsDigit(s[i])
    ensures DigitRun(s) == |s|
  {
    if s != [] {
      assert IsDigit(s[0]);
      DigitRunOfDigits(s[1..]);
    }
  }

  /** Without a radix, text that does not start with `0x`/`0X` after its
      sign is read exactly as in base 10; in particular `String(n)` reads back
      as `n`. */
  lemma {:induction false} NoRadixOfIntToString(n: int)
    ensures ParseIntNoRadix(IntToString(n)) == ParseInt(IntToString(n)) == Finite(n)
  {
    var m: nat := if n < 0 then -n else n;
    NatToStringDigits(m);
    var s := IntToString(n);
    TrimStartNoWhiteSpace(s);
    assert Unsigned(s) == NatToString(m);
    assert !HasHexPrefix(Unsigned(s)) by {
      if |NatToString(m)| >= 2 {
        assert IsDigit(NatToString(m)[1]);
      }
    }
    ParseIntOfIntToString(n);
  }

  /** Without a radix a `0x`/`0X` prefix reads hexadecimal, after white space
      and a sign, and a bare prefix is NaN; base 10 stops at the `x`. */
  lemma HexPrefixRead()
    ensures ParseIntNoRadix("0x1A") == Finite(26)
    ensures ParseIntNoRadix("-0X10") == Finite(-16)
    ensures ParseIntNoRadix("0x") == NaN
    ensures ParseInt("0x1A") == Finite(0)
  {
    HexLowerCase();
    HexUpperCaseNegative();
    HexBarePrefix();
  }

  lemma HexLowerCase()
    ensures ParseIntNoRadix("0x1A") == Finite(26)
    ensures ParseInt("0x1A") == Finite(0)
  {
    NotWhiteSpace('0');
    assert TrimStart("0x1A") == "0x1A";
    assert Unsigned("0x1A") == "0x1A";
    assert "0x1A"[2..] == "1A";
    assert HexRun("1A") == 2;
    assert "1A"[..2] == "1A";
    assert "1A"[..1] == "1";
    assert HexValue("1A") == HexValue("1") * 16 + 10;
    assert DigitRun("0x1A") == 1;
    assert "0x1A"[..1] == "0";
  }

  lemma HexUpperCaseNegative()
    ensures ParseIntNoRadix("-0X10") == Finite(-16)
  {
    NotWhiteSpace('-');
    assert TrimStart("-0X10") == "-0X10";
    assert Unsigned("-0X10") == "0X10";
    assert "0X10"[2..] == "10";
    assert HexRun("10") == 2;
    assert "10"[..2] == "10";
    assert "10"[..1] == "1";
    assert HexValue("10") == HexValue("1") * 16 + 0;
  }

  lemma HexBarePrefix()
    ensures ParseIntNoRadix("0x") == NaN
  {
    NotWhiteSpace('0');
    assert TrimStart("0x") == "0x";
    assert Unsigned("0x") == "0x";
    assert "0x"[2..] == [];
  }

  /** `parseInt` of a JSON number gives that number back. */
  lemma ParseIntValueOfNumber(n: int)
    ensures ParseIntValue(Num(n)) == Finite(n)
  {
    NoRadixOfIntToString(n);
  }

  /** Strings that hold no digit after the optional sign parse to NaN, so
      `parseInt(x) || d` falls back to `d` for them. */
  lemma ParseIntOfNonNumeric(v: JsonValue)
    requires v.Undefined? || v.Null? || v.Bool? || v.Object?
    ensures ParseIntValue(v) == NaN
  {
    var s := ToString(v);
    assert s[0] in "unt[f";
    NotWhiteSpaceLetter(s[0]);
    assert TrimStart(s) == s;
    assert Unsigned(s) == s;
    assert !HasHexPrefix(s);
    assert DigitRun(s) == 0;
  }

  lemma NotWhiteSpaceLetter(c: char)
    requires c in "unt[f"
    ensures !IsWhiteSpace(c) && c != '-' && c != '+' && !IsDigit(c)
  {
  }
}
