/**
 * The validation rules the order controller names (`required`, `array`,
 * `numeric`, `in:`), each as a predicate on one request value, with PHP's
 * own notions of a blank string and of a numeric string written out.
 */
module Validation {
  import opened Values

  /** The characters PHP's trim() removes when given no list of its own. */
  const TRIM_CHARS: set<char> := {' ', '\t', '\n', '\r', '\0', '\U{0B}'}

  /** The white space PHP 8 accepts before and after a numeric string. */
  const NUMERIC_SPACE: set<char> := {' ', '\t', '\n', '\r', '\U{0B}', '\U{0C}'}

  predicate IsDigit(c: char) {
    '0' <= c <= '9'
  }

  /** trim(s) is the empty string. */
  predicate Blank(s: string) {
    forall k :: 0 <= k < |s| ==> s[k] in TRIM_CHARS
  }

  /**
   * The `required` rule: null (which is also what a missing field reads as),
   * a string that trims to nothing and an array with no element all fail;
   * every other value passes, false and 0 included.
   */
  predicate Required(v: Value) {
    match v
    case Null => false
    case Str(s) => !Blank(s)
    case Arr(items) => |items| > 0
    case Obj(fields) => |fields| > 0
    case _ => true
  }

  /** The `array` rule: a PHP array, which a JSON list and a JSON object both decode to. */
  predicate IsArray(v: Value) {
    v.Arr? || v.Obj?
  }

  /** The `numeric` rule, PHP's is_numeric: an integer, a float, or a numeric string. */
  predicate IsNumeric(v: Value) {
    match v
    case Int(_) => true
    case Float(_) => true
    case Str(s) => NumericString(s)
    case _ => false
  }

  /**
   * The `in:` rule: the value, cast to a string, is one of `allowed`; an array
   * never passes. The cast gives "1" or "" for a boolean and the decimal
   * digits of an integer. The string form of a float is not modelled: a float
   * is taken never to be in the list, which holds for every list of words.
   */
  predicate InList(v: Value, allowed: set<string>) {
    match v
    case Str(s) => s in allowed
    case Bool(b) => (if b then "1" else "") in allowed
    case Int(i) => DecimalString(i) in allowed
    case _ => false
  }

  /** The decimal digits of n, most significant first, without leading zeros. */
  function Digits(n: nat): (d: string)
    ensures |d| > 0
    ensures forall k :: 0 <= k < |d| ==> IsDigit(d[k])
  {
    var last := ['0' + (n % 10) as char];
    if n < 10 then last else Digits(n / 10) + last
  }

  /** PHP's (string) cast of an integer. */
  function DecimalString(i: int): string {
    if i < 0 then "-" + Digits(-i) else Digits(i)
  }

  /** A cast integer begins with a minus sign or a digit, never with a letter. */
  lemma DecimalStringHead(i: int)
    ensures |DecimalString(i)| > 0
    ensures DecimalString(i)[0] == '-' || IsDigit(DecimalString(i)[0])
  {
  }

  /** The length of the run of digits of s that starts at position i. */
  function DigitRun(s: string, i: nat): (n: nat)
    requires i <= |s|
    ensures i + n <= |s|
    ensures forall k :: i <= k < i + n ==> IsDigit(s[k])
    ensures i + n < |s| ==> !IsDigit(s[i + n])
    decreases |s| - i
  {
    if i < |s| && IsDigit(s[i]) then 1 + DigitRun(s, i + 1) else 0
  }

  /** s with the leading characters from cs removed. */
  function StripLeading(s: string, cs: set<char>): (t: string)
    ensures |t| <= |s| && t == s[|s| - |t|..]
    ensures forall k :: 0 <= k < |s| - |t| ==> s[k] in cs
    ensures |t| > 0 ==> t[0] !in cs
  {
    if |s| > 0 && s[0] in cs then StripLeading(s[1..], cs) else s
  }

  /** s with the trailing characters from cs removed. */
  function StripTrailing(s: string, cs: set<char>): (t: string)
    ensures |t| <= |s| && t == s[..|t|]
    ensures forall k :: |t| <= k < |s| ==> s[k] in cs
    ensures |t| > 0 ==> t[|t| - 1] !in cs
  {
    if |s| > 0 && s[|s| - 1] in cs then StripTrailing(s[..|s| - 1], cs) else s
  }

  /** s[i..] is empty, or an exponent: 'e' or 'E', an optional sign, one digit or more. */
  predicate ExponentRest(s: string, i: nat)
    requires i <= |s|
  {
    i == |s| ||
    (s[i] in "eE" &&
     var j := if i + 1 < |s| && s[i + 1] in "+-" then i + 2 else i + 1;
     j < |s| && j + DigitRun(s, j) == |s|)
  }

  /**
   * An unsigned decimal number: digits, optionally a point and more digits
   * (with at least one digit on either side of it), then an optional exponent.
   */
  predicate UnsignedNumber(s: string) {
    var a := DigitRun(s, 0);
    if a < |s| && s[a] == '.' then
      var b := DigitRun(s, a + 1);
      (a > 0 || b > 0) && ExponentRest(s, a + 1 + b)
    else
      a > 0 && ExponentRest(s, a)
  }

  /**
   * A numeric string in PHP 8: optional white space, an optional sign, an
   * unsigned decimal number, optional white space. Hexadecimal, octal and
   * binary forms are not numeric.
   */
  predicate NumericString(s: string) {
    var t := StripTrailing(StripLeading(s, NUMERIC_SPACE), NUMERIC_SPACE);
    if |t| > 0 && t[0] in "+-" then UnsignedNumber(t[1..]) else UnsignedNumber(t)
  }

  /** Every numeric string holds a digit: "", " ", ".", "e5" and plain words are not numeric. */
  lemma NumericStringHasDigit(s: string)
    requires NumericString(s)
    ensures exists k :: 0 <= k < |s| && IsDigit(s[k])
  {
  }

  /** A non-empty string of decimal digits is numeric. */
  lemma DigitsAreNumeric(s: string)
    requires |s| > 0
    requires forall k :: 0 <= k < |s| ==> IsDigit(s[k])
    ensures NumericString(s)
  {
  }
}
