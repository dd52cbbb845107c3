/**
 * JavaScript numbers as the bridge meets them: `parseInt` on the window
 * bounds text, and the decimal text a number becomes inside a template
 * literal (`${n}`). Only integral values are modelled.
 */
module Numbers {
  import opened Text
  import opened Wrappers

  /** The value of `c` as a digit in base `radix` (10 or 16), if it is one. */
  function DigitValue(c: char, radix: nat): (d: int)
    ensures -1 <= d < radix || d == -1
  {
    if '0' <= c <= '9' then (if (c as int - '0' as int) < radix then c as int - '0' as int else -1)
    else if radix == 16 && 'a' <= c <= 'f' then c as int - 'a' as int + 10
    else if radix == 16 && 'A' <= c <= 'F' then c as int - 'A' as int + 10
    else -1
  }

  predicate IsDigit(c: char, radix: nat) {
    DigitValue(c, radix) >= 0
  }

  /** The longest prefix of `s` made of base-`radix` digits. */
  function DigitPrefix(s: string, radix: nat): (ds: string)
    ensures |ds| <= |s| && ds == s[..|ds|]
    ensures forall i | 0 <= i < |ds| :: IsDigit(ds[i], radix)
    ensures |ds| < |s| ==> !IsDigit(s[|ds|], radix)
    decreases |s|
  {
    if s != [] && IsDigit(s[0], radix) then [s[0]] + DigitPrefix(s[1..], radix) else []
  }

  /** The number a string of base-`radix` digits denotes, most significant digit first. */
  function ValueOf(ds: string, radix: nat): nat
    requires forall i | 0 <= i < |ds| :: IsDigit(ds[i], radix)
    decreases |ds|
  {
    if ds == [] then 0
    else
      assert IsDigit(ds[|ds| - 1], radix);
      ValueOf(ds[..|ds| - 1], radix) * radix + DigitValue(ds[|ds| - 1], radix)
  }

  /** A JavaScript number restricted to the values the bridge produces. */
  datatype JsNumber = Num(value: int) | NaN

  /** The digits after the sign: a `0x`/`0X` prefix selects base 16; no digit at all gives NaN. */
  function ParseMagnitude(u: string): Option<nat> {
    var hex := |u| >= 2 && u[0] == '0' && (u[1] == 'x' || u[1] == 'X');
    var radix := if hex then 16 else 10;
    var digits := DigitPrefix(if hex then u[2..] else u, radix);
    if digits == [] then None else Some(ValueOf(digits, radix))
  }

  /**
   * `parseInt(s)` without a radix: leading whitespace is skipped, one sign is
   * read, and the longest run of digits that follows is the value.
   */
  function ParseInt(s: string): JsNumber {
    var t := TrimStart(s);
    var negative := |t| > 0 && t[0] == '-';
    var u := if |t| > 0 && (t[0] == '-' || t[0] == '+') then t[1..] else t;
    match ParseMagnitude(u)
    case None => NaN
    case Some(m) => Num(if negative then -(m as int) else m)
  }

  function DigitChar(d: nat): (c: char)
    requires d < 10
    ensures IsDigit(c, 10) && DigitValue(c, 10) == d
  {
    ('0' as int + d) as char
  }

  /** The decimal numeral of `n`, with no leading zero. */
  function NatToString(n: nat): (r: string)
    ensures |r| > 0
    ensures forall i | 0 <= i < |r| :: IsDigit(r[i], 10)
    ensures r[0] == '0' ==> n == 0
    decreases n
  {
    (if n < 10 then [] else NatToString(n / 10)) + [DigitChar(n % 10)]
  }

  /** `${n}` for an integral number; `-0` is written `0`. */
  function IntToString(n: int): string {
    if n < 0 then "-" + NatToString(-n) else NatToString(n)
  }

  /** `${x}` for the result of `parseInt`. */
  function NumberText(x: JsNumber): string {
    match x
    case Num(n) => IntToString(n)
    case NaN => "NaN"
  }

  lemma {:induction false} ValueOfNatToString(n: nat)
    ensures ValueOf(NatToString(n), 10) == n
    decreases n
  {
    var r := NatToString(n);
    var prefix := if n < 10 then [] else NatToString(n / 10);
    assert r[..|r| - 1] == prefix;
    if n >= 10 {
      ValueOfNatToString(n / 10);
    }
  }

  lemma {:induction false} DigitPrefixOfDigits(s: string, radix: nat)
    requires forall i | 0 <= i < |s| :: IsDigit(s[i], radix)
    ensures DigitPrefix(s, radix) == s
    decreases |s|
  {
    if s != [] {
      DigitPrefixOfDigits(s[1..], radix);
    }
  }

  lemma ParseMagnitudeOfNatToString(m: nat)
    ensures ParseMagnitude(NatToString(m)) == Some(m)
  {
    var digits := NatToString(m);
    ValueOfNatToString(m);
    DigitPrefixOfDigits(digits, 10);
    if |digits| >= 2 {
      assert IsDigit(digits[1], 10);
    }
  }

  lemma DecimalDigitPlain(c: char)
    requires IsDigit(c, 10)
    ensures '0' <= c <= '9' && !IsJsWhitespace(c)
  {
  }

  lemma TrimStartOfNumeral(m: nat)
    ensures TrimStart(NatToString(m)) == NatToString(m)
  {
    DecimalDigitPlain(NatToString(m)[0]);
  }

  /** `parseInt` of text that starts with neither whitespace nor a sign reads its magnitude. */
  lemma ParseIntUnsigned(s: string)
    requires TrimStart(s) == s && s != [] && s[0] != '-' && s[0] != '+'
    ensures ParseInt(s) == match ParseMagnitude(s) case None => NaN case Some(m) => Num(m)
  {
  }

  /** `parseInt` of a minus sign before a magnitude reads the negated magnitude. */
  lemma ParseIntMinus(u: string, m: nat)
    requires ParseMagnitude(u) == Some(m)
    ensures ParseInt("-" + u) == Num(-(m as int))
  {
    var s := "-" + u;
    assert TrimStart(s) == s;
    assert s[1..] == u;
  }

  lemma ParseIntOfNatToString(m: nat)
    ensures ParseInt(NatToString(m)) == Num(m)
  {
    var digits := NatToString(m);
    TrimStartOfNumeral(m);
    ParseMagnitudeOfNatToString(m);
    DecimalDigitPlain(digits[0]);
    ParseIntUnsigned(digits);
  }

  lemma ParseIntOfNegated(m: nat)
    ensures ParseInt("-" + NatToString(m)) == Num(-(m as int))
  {
    ParseMagnitudeOfNatToString(m);
    ParseIntMinus(NatToString(m), m);
  }

  /** Reading back the text of an integer gives the integer. */
  lemma ParseIntOfIntToString(n: int)
    ensures ParseInt(IntToString(n)) == Num(n)
  {
    if n < 0 {
      var m: nat := -n;
      assert IntToString(n) == "-" + NatToString(m);
      ParseIntOfNegated(m);
    } else {
      assert IntToString(n) == NatToString(n);
      ParseIntOfNatToString(n);
    }
  }

  /** Every character of an integer's text is a digit, or its leading minus sign. */
  lemma IntToStringChars(n: int)
    ensures forall i | 0 <= i < |IntToString(n)| :: IntToString(n)[i] == '-' || IsDigit(IntToString(n)[i], 10)
    ensures IsDigit(IntToString(n)[|IntToString(n)| - 1], 10)
  {
    if n < 0 {
      var digits := NatToString(-n);
      assert forall i | 1 <= i < |IntToString(n)| :: IntToString(n)[i] == digits[i - 1];
    }
  }

  /** The text of an integer has no surrounding whitespace and no comma. */
  lemma IntToStringPlain(n: int)
    ensures Trim(IntToString(n)) == IntToString(n)
    ensures ',' !in IntToString(n)
  {
    var s := IntToString(n);
    IntToStringChars(n);
    assert !IsJsWhitespace(s[0]) && !IsJsWhitespace(s[|s| - 1]);
    TrimUnchanged(s);
  }
}
