/** The JavaScript conversions the route handlers apply to query-string parameters:
    `Number(text)`, `parseInt(text)` and the truthiness test `!x`. Only plain decimal text is
    given a numeric meaning; everything else reads as NaN. */
module JsValues {
  import opened Wrappers

  /** A JavaScript number as the handlers can obtain it from text: NaN or an integer. */
  datatype JsNumber = NaN | Int(n: int)

  predicate IsDigit(c: char) { '0' <= c <= '9' }

  predicate AllDigits(s: string) { forall i :: 0 <= i < |s| ==> IsDigit(s[i]) }

  function DigitValue(c: char): (d: nat)
    requires IsDigit(c)
    ensures d < 10
  {
    (c as int) - ('0' as int)
  }

  function DigitChar(d: nat): (c: char)
    requires d < 10
    ensures IsDigit(c) && DigitValue(c) == d
  {
    (('0' as int) + d) as char
  }

  /** `Number(text)`: the empty text is 0, a text of decimal digits is its value, and any other
      character makes the whole text NaN. */
  function ToNumber(s: string): (r: JsNumber)
    ensures r.Int? <==> AllDigits(s)
    ensures r.Int? ==> r.n >= 0
    ensures s == "" ==> r == Int(0)
  {
    if s == [] then Int(0)
    else
      var prefix := ToNumber(s[..|s| - 1]);
      assert forall i :: 0 <= i < |s| - 1 ==> s[..|s| - 1][i] == s[i];
      if prefix.Int? && IsDigit(s[|s| - 1]) then Int(10 * prefix.n + DigitValue(s[|s| - 1]))
      else NaN
  }

  /** `Number(searchParams.get(name))`: a missing parameter is `Number(null)`, which is 0. */
  function NumberOfParam(p: Option<string>): (r: JsNumber)
    ensures p.None? ==> r == Int(0)
    ensures p.Some? ==> r == ToNumber(p.value)
  {
    match p
    case None => Int(0)
    case Some(s) => ToNumber(s)
  }

  /** The longest run of digits at the start of a text. */
  function LeadingDigits(s: string): (r: string)
    ensures |r| <= |s| && r == s[..|r|]
    ensures AllDigits(r)
    ensures |r| < |s| ==> !IsDigit(s[|r|])
  {
    if s == [] || !IsDigit(s[0]) then []
    else [s[0]] + LeadingDigits(s[1..])
  }

  /** `parseInt(text)`: the value of the leading digits, NaN when the text does not start with
      a digit. */
  function ParseInt(s: string): (r: JsNumber)
    ensures r.Int? <==> |s| > 0 && IsDigit(s[0])
    ensures r.Int? ==> r.n >= 0
  {
    var d := LeadingDigits(s);
    if d == [] then NaN else ToNumber(d)
  }

  /** The decimal rendering of a natural number, without leading zeros. */
  function Decimal(n: nat): (s: string)
    ensures |s| >= 1 && AllDigits(s)
    ensures |s| > 1 ==> s[0] != '0'
    decreases n
  {
    if n < 10 then [DigitChar(n)] else Decimal(n / 10) + [DigitChar(n % 10)]
  }

  /** `Number` reads back every decimal rendering: the two are inverse on natural numbers. */
  lemma {:induction false} ToNumberDecimal(n: nat)
    ensures ToNumber(Decimal(n)) == Int(n)
    decreases n
  {
    var s := Decimal(n);
    if n < 10 {
      assert s[..|s| - 1] == [];
    } else {
      ToNumberDecimal(n / 10);
      assert s[..|s| - 1] == Decimal(n / 10);
    }
  }

  /** On a text made only of digits, `parseInt` and `Number` agree. */
  lemma {:induction false} ParseIntOfDigits(s: string)
    requires s != [] && AllDigits(s)
    ensures ParseInt(s) == ToNumber(s)
  {
    LeadingDigitsOfDigits(s);
  }

  lemma {:induction false} LeadingDigitsOfDigits(s: string)
    requires AllDigits(s)
    ensures LeadingDigits(s) == s
  {
    if s != [] {
      LeadingDigitsOfDigits(s[1..]);
    }
  }

  /** `parseInt` ignores whatever follows the leading digits. */
  lemma {:induction false} ParseIntIgnoresSuffix(n: nat, rest: string)
    requires rest == [] || !IsDigit(rest[0])
    ensures ParseInt(Decimal(n) + rest) == Int(n)
  {
    var d := Decimal(n);
    LeadingDigitsOfPrefix(d, rest);
    ToNumberDecimal(n);
  }

  lemma {:induction false} LeadingDigitsOfPrefix(d: string, rest: string)
    requires AllDigits(d)
    requires rest == [] || !IsDigit(rest[0])
    ensures LeadingDigits(d + rest) == d
  {
    if d == [] {
    } else {
      assert (d + rest)[1..] == d[1..] + rest;
      LeadingDigitsOfPrefix(d[1..], rest);
    }
  }

  /** JavaScript truthiness of a number: 0 and NaN are falsy. */
  predicate Truthy(x: JsNumber) { x.Int? && x.n != 0 }

  /** JavaScript truthiness of an optional text: null, undefined and "" are falsy. */
  predicate TruthyText(s: Option<string>) { s.Some? && s.value != "" }

  /** JavaScript truthiness of an optional numeric JSON field: undefined, null and 0 are falsy. */
  predicate TruthyId(x: Option<int>) { x.Some? && x.value != 0 }
}
