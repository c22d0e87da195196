/**
 * The values a parsed JSON request body carries, and the two ways the server
 * turns such a value into text: the validators' conversion (an absent value
 * becomes "") and JavaScript's property-key conversion used by `users[value]`
 * (an absent value becomes "undefined").
 *
 * Numbers are the integers JavaScript represents exactly (the safe
 * integers), for which `String(n)` is the plain decimal numeral.
 *
 * Assumptions, since the validator library is not part of this model:
 * alphabetic means ASCII letters only, numeric means an optional sign
 * followed by one or more decimal digits.
 */
module Values {
  import opened Wrappers

  /** The largest integer a JavaScript number holds exactly, 2^53 - 1. */
  const MaxSafeInteger: int := 0x1F_FFFF_FFFF_FFFF

  /** The integers a JSON number parses to without rounding or exponent form. */
  type SafeInteger = n: int | -MaxSafeInteger <= n <= MaxSafeInteger

  /** A field value of a JSON body: a string or an integral number. */
  datatype Value = Text(s: string) | Number(n: SafeInteger)

  /** A request body, and so a stored user record: field name to value. */
  type Record = map<string, Value>

  /** The value of field `key`, or None when the body does not carry it. */
  function Field(body: Record, key: string): (v: Option<Value>) {
    if key in body then Some(body[key]) else None
  }

  predicate IsDigit(c: char) {
    '0' <= c <= '9'
  }

  predicate IsLetter(c: char) {
    ('A' <= c <= 'Z') || ('a' <= c <= 'z')
  }

  predicate AllDigits(s: string) {
    forall i :: 0 <= i < |s| ==> IsDigit(s[i])
  }

  function DigitChar(d: nat): (c: char)
    requires d < 10
    ensures IsDigit(c)
    ensures c as int - '0' as int == d
  {
    ('0' as int + d) as char
  }

  function DigitValue(c: char): (d: nat)
    requires IsDigit(c)
    ensures d < 10 && DigitChar(d) == c
  {
    c as int - '0' as int
  }

  /** The decimal digits of `n`, most significant first, with no leading zero. */
  function Digits(n: nat): (s: string)
    ensures |s| >= 1 && AllDigits(s)
    ensures s[0] == '0' ==> n == 0 && |s| == 1
    decreases n
  {
    if n < 10 then [DigitChar(n)] else Digits(n / 10) + [DigitChar(n % 10)]
  }

  /** How a JavaScript safe integer prints: `String(n)`. */
  function DecimalText(n: int): (s: string) {
    if n < 0 then "-" + Digits(-n) else Digits(n)
  }

  /** The number a run of decimal digits denotes; the empty run denotes 0. */
  function DigitsValue(s: string): (n: nat)
    requires AllDigits(s)
    decreases |s|
  {
    if s == [] then 0 else 10 * DigitsValue(s[..|s| - 1]) + DigitValue(s[|s| - 1])
  }

  /**
   * The array index a property key names: a decimal numeral without a sign
   * and without a leading zero ("0" itself aside). "01", "+1" and "-0" name
   * ordinary properties, not indices.
   */
  function ParseIndex(key: string): (i: Option<nat>) {
    if |key| > 0 && AllDigits(key) && (key[0] != '0' || |key| == 1)
    then Some(DigitsValue(key))
    else None
  }

  /** The validators' view of a value: absent becomes the empty string. */
  function AsText(v: Option<Value>): (s: string) {
    match v
    case None => ""
    case Some(Text(s)) => s
    case Some(Number(n)) => DecimalText(n)
  }

  /** The property key `users[value]` looks up: absent becomes "undefined". */
  function PropertyKey(v: Option<Value>): (key: string) {
    match v
    case None => "undefined"
    case Some(Text(s)) => s
    case Some(Number(n)) => DecimalText(n)
  }

  /** Non-empty and ASCII letters only. */
  predicate IsAlphaText(s: string) {
    |s| > 0 && forall i :: 0 <= i < |s| ==> IsLetter(s[i])
  }

  /** An optional sign followed by one or more decimal digits. */
  predicate IsNumericText(s: string) {
    var unsigned := if |s| > 0 && (s[0] == '+' || s[0] == '-') then s[1..] else s;
    |unsigned| > 0 && AllDigits(unsigned)
  }

  /** Reading back the digits of `n` gives `n`. */
  lemma {:induction false} DigitsValueOfDigits(n: nat)
    ensures DigitsValue(Digits(n)) == n
    decreases n
  {
    var s := Digits(n);
    if n >= 10 {
      assert s[..|s| - 1] == Digits(n / 10);
      DigitsValueOfDigits(n / 10);
    }
  }

  /** A numeral whose first digit is not zero denotes a positive number. */
  lemma {:induction false} LeadingDigitPositive(s: string)
    requires |s| > 0 && AllDigits(s) && s[0] != '0'
    ensures DigitsValue(s) > 0
    decreases |s|
  {
    if |s| > 1 {
      LeadingDigitPositive(s[..|s| - 1]);
    }
  }

  /** A canonical numeral is the rendering of the number it denotes. */
  lemma {:induction false} DigitsOfDigitsValue(s: string)
    requires |s| > 0 && AllDigits(s) && (s[0] != '0' || |s| == 1)
    ensures Digits(DigitsValue(s)) == s
    decreases |s|
  {
    if |s| > 1 {
      var p := s[..|s| - 1];
      LeadingDigitPositive(p);
      DigitsOfDigitsValue(p);
      assert s == p + [s[|s| - 1]];
    }
  }

  /** Parsing an index key undoes printing a natural number, and nothing else parses. */
  lemma ParseIndexExactly(key: string, n: nat)
    ensures ParseIndex(key) == Some(n) <==> key == Digits(n)
  {
    if key == Digits(n) {
      DigitsValueOfDigits(n);
    }
    if ParseIndex(key) == Some(n) {
      DigitsOfDigitsValue(key);
    }
  }

  /** The key of a number is an index exactly when the number is non-negative. */
  lemma NumberKeyIndex(n: SafeInteger)
    ensures ParseIndex(PropertyKey(Some(Number(n)))) == if n >= 0 then Some(n) else None
  {
    if n >= 0 {
      ParseIndexExactly(Digits(n), n);
    }
  }

  /** Every safe integer prints as a numeric string. */
  lemma DecimalTextIsNumeric(n: SafeInteger)
    ensures IsNumericText(DecimalText(n))
  {
  }

  /** A key that names an index is itself numeric, whatever value it came from. */
  lemma IndexKeyIsNumeric(v: Option<Value>)
    ensures ParseIndex(PropertyKey(v)).Some? ==> IsNumericText(AsText(v))
  {
  }
}
