/**
 * `pluralize`: a count followed by the singular or the plural of a word,
 * the singular chosen when the count converts to the number 1. The
 * conversion of a string count follows the JavaScript `Number` function on
 * exact values.
 */
module Utils {
  import opened Wrappers
  import opened JsStrings
  import opened JsArrays

  /** The count argument: `number | string`; numbers are modelled as integers. */
  datatype Count = Num(n: int) | Str(s: string)

  /** The word argument: a word that takes an `s`, or a `[singular, plural]` tuple. */
  datatype Word = Single(word: string) | Pair(singular: string, plural: string)

  /** The result of `Number(...)`: a finite value, or `NaN` and the infinities, which never equal 1. */
  datatype NumberValue = Finite(value: real) | NotFinite

  function Pow10(e: nat): (r: real)
    ensures r >= 1.0
  {
    if e == 0 then 1.0 else 10.0 * Pow10(e - 1)
  }

  /** `m` times ten to the power `e`. */
  function Scale(m: real, e: int): real {
    if e >= 0 then m * Pow10(e) else m / Pow10(-e)
  }

  /** The value of a digit in base 2, 8 or 16, or -1 when it is not one. */
  function DigitInBase(c: char, base: nat): int {
    var d :=
      if '0' <= c <= '9' then c as int - '0' as int
      else if 'a' <= c <= 'f' then c as int - 'a' as int + 10
      else if 'A' <= c <= 'F' then c as int - 'A' as int + 10
      else -1;
    if 0 <= d < base then d else -1
  }

  /** The value of a string of digits in `base`, or `None` when a character is not a digit. */
  function BaseValue(s: string, base: nat): Option<nat> {
    if s == [] then Some(0)
    else
      var init := BaseValue(s[..|s| - 1], base);
      var d := DigitInBase(s[|s| - 1], base);
      if init.None? || d < 0 then None else Some(init.value * base + d)
  }

  /** `0x`, `0o` and `0b` literals: at least one digit, no sign. */
  function NonDecimal(digits: string, base: nat): NumberValue {
    if digits == [] then NotFinite
    else match BaseValue(digits, base)
      case None => NotFinite
      case Some(v) => Finite(v as real)
  }

  function IsExponentMark(c: char): bool { c == 'e' || c == 'E' }
  function IsDecimalPoint(c: char): bool { c == '.' }

  /** The exponent after `e`: an optional sign, then at least one digit. */
  function ParseExponent(s: string): Option<int> {
    var (sign, digits) :=
      if |s| > 0 && s[0] == '+' then (1, s[1..])
      else if |s| > 0 && s[0] == '-' then (-1, s[1..])
      else (1, s);
    if digits == [] || !AllDigits(digits) then None else Some(sign * DigitsValue(digits))
  }

  /** An unsigned decimal literal: digits, an optional point and fraction (not both empty), an optional exponent. */
  function ParseUnsignedDecimal(b: string): Option<real> {
    var e := FindIndex(b, IsExponentMark);
    var mantissa := if e < 0 then b else b[..e];
    var exponent := if e < 0 then Some(0) else ParseExponent(b[e + 1..]);
    var p := FindIndex(mantissa, IsDecimalPoint);
    var whole := if p < 0 then mantissa else mantissa[..p];
    var fraction := if p < 0 then "" else mantissa[p + 1..];
    if exponent.None? || !AllDigits(whole) || !AllDigits(fraction) || (whole == [] && fraction == []) then None
    else
      var m := DigitsValue(whole) as real + DigitsValue(fraction) as real / Pow10(|fraction|);
      Some(Scale(m, exponent.value))
  }

  /** A decimal literal with an optional sign, or `Infinity`. */
  function SignedDecimal(t: string): NumberValue {
    var negative := |t| > 0 && t[0] == '-';
    var body := if |t| > 0 && (t[0] == '+' || t[0] == '-') then t[1..] else t;
    if body == "Infinity" then NotFinite
    else match ParseUnsignedDecimal(body)
      case None => NotFinite
      case Some(v) => Finite(if negative then -v else v)
  }

  /** A trimmed numeric string: empty, a `0x`/`0o`/`0b` literal, or a signed decimal. */
  function NumericLiteral(t: string): NumberValue {
    if t == [] then Finite(0.0)
    else if |t| >= 2 && t[0] == '0' && (t[1] == 'x' || t[1] == 'X') then NonDecimal(t[2..], 16)
    else if |t| >= 2 && t[0] == '0' && (t[1] == 'o' || t[1] == 'O') then NonDecimal(t[2..], 8)
    else if |t| >= 2 && t[0] == '0' && (t[1] == 'b' || t[1] == 'B') then NonDecimal(t[2..], 2)
    else SignedDecimal(t)
  }

  /** `Number(s)` for a string: surrounding whitespace is ignored, and the empty string is 0. */
  function StringToNumber(s: string): (v: NumberValue)
    ensures AllWhitespace(s) ==> v == Finite(0.0)
  {
    TrimEmptyIff(s);
    NumericLiteral(Trim(s))
  }

  /** `Number(count)`: a number is itself, and a blank string is 0. */
  function NumberOf(count: Count): (v: NumberValue)
    ensures count.Num? ==> v == Finite(count.n as real)
    ensures count.Str? && AllWhitespace(count.s) ==> v == Finite(0.0)
  {
    match count
    case Num(n) => Finite(n as real)
    case Str(s) => StringToNumber(s)
  }

  /** `Number(count) === 1`. */
  predicate IsOne(count: Count) {
    NumberOf(count) == Finite(1.0)
  }

  /** `${count}` in a template. */
  function CountText(count: Count): string {
    match count
    case Num(n) => IntToString(n)
    case Str(s) => s
  }

  function SingularOf(word: Word): string {
    match word
    case Single(w) => w
    case Pair(singular, _) => singular
  }

  /** The plural: the tuple's second element, or the word with an `s`. */
  function PluralOf(word: Word): string {
    match word
    case Single(w) => w + "s"
    case Pair(_, plural) => plural
  }

  /** The text before the space: the count, or nothing when it is not included. */
  function CountPrefix(count: Count, includeCount: bool): string {
    if includeCount then CountText(count) else ""
  }

  /** `pluralize(count, word, includeCount)`. */
  function Pluralize(count: Count, word: Word, includeCount: bool := true): (r: string)
    ensures IsOne(count) ==> r == CountPrefix(count, includeCount) + " " + SingularOf(word)
    ensures !IsOne(count) ==> r == CountPrefix(count, includeCount) + " " + PluralOf(word)
  {
    var numericCount := NumberOf(count);
    var prefix := if includeCount then CountText(count) else "";
    match word
    case Pair(singular, plural) =>
      var selectedWord := if numericCount == Finite(1.0) then singular else plural;
      prefix + " " + selectedWord
    case Single(w) =>
      if numericCount == Finite(1.0) then prefix + " " + w else prefix + " " + w + "s"
  }

  /** Leaving the count out still leaves the space in front of the word. */
  lemma CountLeftOutLeavesSpace(count: Count, word: Word)
    ensures Pluralize(count, word, false)[0] == ' '
    ensures Pluralize(count, word, false)[1..] == if IsOne(count) then SingularOf(word) else PluralOf(word)
  {
  }

  /** A number count is singular exactly when it is 1. */
  lemma NumberCountSingularIff(n: int)
    ensures IsOne(Num(n)) <==> n == 1
  {
  }

  lemma {:induction false} DigitsAreNotMarks(s: string)
    requires AllDigits(s)
    ensures FindIndex(s, IsExponentMark) == -1
    ensures FindIndex(s, IsDecimalPoint) == -1
    ensures forall i :: 0 <= i < |s| ==> !IsWhitespace(s[i])
  {
  }

  lemma TrimDigits(s: string)
    requires AllDigits(s)
    ensures Trim(s) == s
  {
    DigitsAreNotMarks(s);
  }

  lemma ParseDigits(s: string)
    requires s != [] && AllDigits(s)
    ensures ParseUnsignedDecimal(s) == Some(DigitsValue(s) as real)
  {
    DigitsAreNotMarks(s);
    assert s[..|s|] == s;
  }

  lemma DigitsAreDecimal(s: string)
    requires s != [] && AllDigits(s)
    ensures SignedDecimal(s) == Finite(DigitsValue(s) as real)
  {
    ParseDigits(s);
    assert IsDigit(s[0]);
  }

  lemma NoPrefixOnDigits(s: string)
    requires s != [] && AllDigits(s)
    ensures NumericLiteral(s) == SignedDecimal(s)
  {
    assert |s| >= 2 ==> IsDigit(s[1]);
  }

  /** `Number` of a plain string of decimal digits is its decimal value. */
  lemma StringToNumberOfDigits(s: string)
    requires s != [] && AllDigits(s)
    ensures StringToNumber(s) == Finite(DigitsValue(s) as real)
  {
    TrimDigits(s);
    DigitsAreDecimal(s);
    NoPrefixOnDigits(s);
  }

  /** A plain string of decimal digits is singular exactly when its value is 1, leading zeros allowed. */
  lemma DigitStringSingularIff(s: string)
    requires s != [] && AllDigits(s)
    ensures IsOne(Str(s)) <==> DigitsValue(s) == 1
  {
    StringToNumberOfDigits(s);
  }

  /** A sign followed by decimal digits: what `${n}` gives for a negative `n`. */
  predicate IsNegativeNumeral(t: string) {
    |t| >= 2 && t[0] == '-' && AllDigits(t[1..])
  }

  /** Such a numeral has no white space around it for `Number` to ignore. */
  lemma TrimSigned(t: string)
    requires IsNegativeNumeral(t)
    ensures StringToNumber(t) == NumericLiteral(t)
  {
    DigitsAreNotMarks(t[1..]);
    assert t[|t| - 1] == t[1..][|t| - 2];
    TrimKeeps(t);
  }

  lemma NegativeDecimal(t: string)
    requires IsNegativeNumeral(t)
    ensures SignedDecimal(t) == Finite(-(DigitsValue(t[1..]) as real))
  {
    var d := t[1..];
    assert d != "Infinity" by {
      assert IsDigit(d[0]);
    }
    ParseDigits(d);
  }

  lemma SignIsDecimal(t: string)
    requires t != [] && t[0] == '-'
    ensures NumericLiteral(t) == SignedDecimal(t)
  {
  }

  /** `Number` of a `-` followed by decimal digits is minus their value. */
  lemma NegativeDigits(t: string)
    requires IsNegativeNumeral(t)
    ensures StringToNumber(t) == Finite(-(DigitsValue(t[1..]) as real))
  {
    SignIsDecimal(t);
    NegativeDecimal(t);
    TrimSigned(t);
  }

  /** The count as the text shows it converts back to the same number, negative counts included. */
  lemma CountTextReadsBack(n: int)
    ensures StringToNumber(CountText(Num(n))) == NumberOf(Num(n))
  {
    var d := NatToString(if n < 0 then -n else n);
    NatToStringRoundTrip(if n < 0 then -n else n);
    if n >= 0 {
      StringToNumberOfDigits(d);
    } else {
      var t := "-" + d;
      assert t[1..] == d;
      NegativeDigits(t);
    }
  }

  /** The string `"1"` and the number 1 both select the singular. */
  lemma OneIsSingular()
    ensures IsOne(Num(1)) && IsOne(Str("1"))
  {
    assert AllDigits("1");
    assert DigitsValue("1") == DigitsValue("1"[..0]) * 10 + DigitValue('1');
    DigitStringSingularIff("1");
  }

  /** The empty string converts to 0, so an empty count takes the plural. */
  lemma EmptyCountIsPlural(word: Word, includeCount: bool)
    ensures Pluralize(Str(""), word, includeCount) == CountPrefix(Str(""), includeCount) + " " + PluralOf(word)
  {
    assert AllWhitespace("");
    assert NumberOf(Str("")) == Finite(0.0);
    assert !IsOne(Str(""));
  }
}
