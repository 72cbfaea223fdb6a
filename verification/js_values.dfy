/** The loosely typed field values the storefront stores on product records, and the
    JavaScript coercions it applies to them: `Number(v)`, truthiness, `Number(v) || 0`
    and `v || 0`. A field holds a number when it came from the API or from a form
    that converted its input, and the raw input string when an editor stored
    `e.target.value` as it was. */
module JsValues {
  import opened Strings
  import opened Wrappers

  datatype JsValue = Undefined | Num(x: real) | NaN | Text(s: string)

  /** The result of `Number(v)`: a finite number or NaN (infinities are not modelled). */
  datatype Number = Finite(r: real) | NotANumber

  predicate IsDigit(c: char) {
    '0' <= c <= '9'
  }

  predicate AllDigits(s: string) {
    forall i :: 0 <= i < |s| ==> IsDigit(s[i])
  }

  function DigitValue(c: char): nat
    requires IsDigit(c)
  {
    c as int - '0' as int
  }

  function DigitChar(d: nat): (c: char)
    requires d < 10
    ensures IsDigit(c) && DigitValue(c) == d
  {
    ('0' as int + d) as char
  }

  /** The value of a run of decimal digits, most significant first. */
  function DigitsValue(s: string): nat
    requires AllDigits(s)
    decreases |s|
  {
    if s == [] then 0 else DigitsValue(s[..|s| - 1]) * 10 + DigitValue(s[|s| - 1])
  }

  /** The divisor that scales `n` digits after the decimal point; it exceeds `n`, so never 0. */
  function Pow10(n: nat): (r: nat)
    ensures r > n
  {
    if n == 0 then 1 else 10 * Pow10(n - 1)
  }

  /** Index of the first `c` in `s`, if any. */
  function IndexOf(s: string, c: char): (r: Option<nat>)
    ensures r.Some? ==> r.value < |s| && s[r.value] == c && c !in s[..r.value]
    ensures r.None? ==> c !in s
    decreases |s|
  {
    if s == [] then None
    else if s[0] == c then Some(0)
    else match IndexOf(s[1..], c)
      case None => None
      case Some(k) => assert s[1..][..k] == s[1..k + 1]; Some(k + 1)
  }

  /** An unsigned decimal literal `digits`, `digits.`, `.digits` or `digits.digits`. */
  function UnsignedDecimal(s: string): Option<real> {
    match IndexOf(s, '.')
    case None =>
      if s != [] && AllDigits(s) then Some(DigitsValue(s) as real) else None
    case Some(k) =>
      var whole, frac := s[..k], s[k + 1..];
      if (whole != [] || frac != []) && AllDigits(whole) && AllDigits(frac)
      then Some(DigitsValue(whole) as real + DigitsValue(frac) as real / Pow10(|frac|) as real)
      else None
  }

  /** `Number(s)` for a string: surrounding whitespace is ignored, the empty string is 0,
      an optionally signed decimal literal is its value, anything else is NaN. */
  function StringToNumber(s: string): Number {
    var t := Trim(s);
    if t == [] then Finite(0.0)
    else
      var neg := t[0] == '-';
      var body := if t[0] == '-' || t[0] == '+' then t[1..] else t;
      match UnsignedDecimal(body)
      case None => NotANumber
      case Some(x) => Finite(if neg then -x else x)
  }

  function ToNumber(v: JsValue): Number {
    match v
    case Undefined => NotANumber
    case Num(x) => Finite(x)
    case NaN => NotANumber
    case Text(s) => StringToNumber(s)
  }

  /** The value a number field takes after `Number(...)`. */
  function FromNumber(n: Number): JsValue {
    match n
    case Finite(x) => Num(x)
    case NotANumber => NaN
  }

  /** JavaScript truthiness: `undefined`, `0`, `NaN` and `""` are falsy. */
  predicate Truthy(v: JsValue) {
    match v
    case Undefined => false
    case Num(x) => x != 0.0
    case NaN => false
    case Text(s) => s != []
  }

  /** `Number(v) > 0`; NaN compares false. */
  predicate IsPositive(v: JsValue) {
    ToNumber(v).Finite? && ToNumber(v).r > 0.0
  }

  /** `Number(v) || 0`: the numeric value, with NaN (and so `undefined` and
      non-numeric text) counting as 0. */
  function NumberOr0(v: JsValue): (r: real)
    ensures r > 0.0 <==> IsPositive(v)
    ensures ToNumber(v).NotANumber? ==> r == 0.0
    ensures v.Num? ==> r == v.x
  {
    match ToNumber(v)
    case Finite(x) => x
    case NotANumber => 0.0
  }

  /** The decimal spelling JavaScript gives a non-negative integer, which is what a
      number input shows for a stored count and hands back on edit. */
  function NatToString(n: nat): string
    decreases n
  {
    if n < 10 then [DigitChar(n)] else NatToString(n / 10) + [DigitChar(n % 10)]
  }

  lemma {:induction false} NatToStringDigits(n: nat)
    ensures NatToString(n) != [] && AllDigits(NatToString(n))
    ensures DigitsValue(NatToString(n)) == n
    decreases n
  {
    if n >= 10 {
      NatToStringDigits(n / 10);
      var s := NatToString(n);
      assert s[..|s| - 1] == NatToString(n / 10);
    }
  }

  lemma TrimWithoutWhitespace(s: string)
    requires forall i :: 0 <= i < |s| ==> !IsWhitespace(s[i])
    ensures Trim(s) == s
  {
    if s != [] {
      assert !IsWhitespace(s[0]) && !IsWhitespace(s[|s| - 1]);
    }
    TrimTrimmed(s);
  }

  /** A run of digits has no whitespace and no decimal point, so it reads as its digit value. */
  lemma DigitsUnsigned(s: string)
    requires s != [] && AllDigits(s)
    ensures forall k :: 0 <= k < |s| ==> !IsWhitespace(s[k])
    ensures UnsignedDecimal(s) == Some(DigitsValue(s) as real)
  {
    forall k | 0 <= k < |s| ensures !IsWhitespace(s[k]) && s[k] != '.' {
      assert IsDigit(s[k]);
    }
    assert '.' !in s;
  }

  /** A non-empty run of digits is a decimal literal with its digit value. */
  lemma DigitsAreDecimal(s: string)
    requires s != [] && AllDigits(s)
    ensures StringToNumber(s) == Finite(DigitsValue(s) as real)
  {
    DigitsUnsigned(s);
    TrimWithoutWhitespace(s);
    assert IsDigit(s[0]);
  }

  /** A sign in front of a run of digits: "-" negates its value and "+" keeps it. */
  lemma SignedDigits(s: string)
    requires s != [] && AllDigits(s)
    ensures StringToNumber("-" + s) == Finite(-(DigitsValue(s) as real))
    ensures StringToNumber("+" + s) == Finite(DigitsValue(s) as real)
  {
    SignedRun('-', s);
    SignedRun('+', s);
  }

  lemma SignedRun(sign: char, s: string)
    requires sign == '-' || sign == '+'
    requires s != [] && AllDigits(s)
    ensures StringToNumber([sign] + s) == Finite(if sign == '-' then -(DigitsValue(s) as real) else DigitsValue(s) as real)
  {
    var t := [sign] + s;
    SignedTrim(sign, s);
    assert t[1..] == s;
    DigitsUnsigned(s);
  }

  lemma SignedTrim(sign: char, s: string)
    requires sign == '-' || sign == '+'
    requires s != [] && AllDigits(s)
    ensures Trim([sign] + s) == [sign] + s
  {
    var t := [sign] + s;
    assert t[|t| - 1] == s[|s| - 1];
    assert IsDigit(s[|s| - 1]);
    TrimTrimmed(t);
  }

  /** Reading back the spelling of a count gives the count: a quantity that was shown in
      a number input and handed back unchanged as text coerces to the same number. */
  lemma NumberOfNatText(n: nat)
    ensures ToNumber(Text(NatToString(n))) == Finite(n as real)
  {
    NatToStringDigits(n);
    DigitsAreDecimal(NatToString(n));
  }
}
