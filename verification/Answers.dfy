/** Answer values as the JSON layers store them, with the JavaScript
    comparisons and conversions that the services apply to them. */
module Answers {
  import opened Wrappers
  import opened Strings

  /** Opaque stands for an array or an object; its text is what String()
      prints for it. */
  datatype Value =
    | Undefined
    | Null
    | Num(n: real)
    | Bool(b: bool)
    | Text(s: string)
    | Opaque(text: string)

  datatype Answer = Answer(
    value: Value,
    reasoning: Option<string>,
    confidence: Option<real>,
    overrideReason: Option<string>)

  /** The operator ===. Two separately parsed arrays or objects are never
      identical, whatever they contain. */
  predicate StrictEq(a: Value, b: Value) {
    a == b && !a.Opaque?
  }

  /** String(v). How JavaScript prints a number is the parameter show. */
  function TextOf(show: real -> string, v: Value): string {
    match v
    case Undefined => "undefined"
    case Null => "null"
    case Num(n) => show(n)
    case Bool(b) => if b then "true" else "false"
    case Text(s) => s
    case Opaque(t) => t
  }

  /** A falsy reason is a missing or an empty one. */
  predicate HasReason(reason: Option<string>) {
    reason.Some? && reason.value != ""
  }

  // ---------------------------------------------------------------------
  // parseFloat: skip white space, then read the longest decimal prefix.

  predicate IsDigit(c: char) { '0' <= c <= '9' }

  /** The number that a row of digits denotes. */
  function Natural(digits: string): nat
    requires forall c :: c in digits ==> IsDigit(c)
  {
    if digits == "" then 0
    else
      var last := digits[|digits| - 1];
      assert last in digits && IsDigit(last);
      Natural(digits[..|digits| - 1]) * 10 + (last as int - '0' as int)
  }

  function LeadingDigits(s: string): (digits: string)
    ensures |digits| <= |s| && digits == s[..|digits|]
    ensures forall c :: c in digits ==> IsDigit(c)
  {
    if s != "" && IsDigit(s[0]) then [s[0]] + LeadingDigits(s[1..]) else ""
  }

  /** The digits before and after the dot, and what follows them. */
  datatype Numeral = Numeral(whole: string, fraction: string, rest: string)

  function ReadNumeral(s: string): (n: Numeral)
    ensures forall c :: c in n.whole + n.fraction ==> IsDigit(c)
  {
    var whole := LeadingDigits(s);
    var rest := s[|whole|..];
    if rest == "" || rest[0] != '.' then Numeral(whole, "", rest)
    else
      var fraction := LeadingDigits(rest[1..]);
      Numeral(whole, fraction, rest[1 + |fraction|..])
  }

  /** An exponent part such as e-3; 0 when there is none. */
  function ReadExponent(s: string): int {
    if |s| < 2 || s[0] !in {'e', 'E'} then 0
    else
      var k: int := Natural(LeadingDigits(if s[1] in {'+', '-'} then s[2..] else s[1..]));
      if s[1] == '-' then -k else k
  }

  function TenTo(k: int): real
    decreases if k < 0 then -k else k
  {
    if k == 0 then 1.0 else if k > 0 then TenTo(k - 1) * 10.0 else TenTo(k + 1) / 10.0
  }

  function Shifted(n: nat, places: int): real {
    n as real * TenTo(places)
  }

  function ParseUnsigned(s: string): Option<real> {
    var n := ReadNumeral(s);
    if n.whole + n.fraction == "" then None
    else Some(Shifted(Natural(n.whole + n.fraction), ReadExponent(n.rest) - |n.fraction|))
  }

  /** None where JavaScript gives NaN. */
  function ParseFloat(text: string): Option<real> {
    var s := TrimStart(text);
    if s != "" && s[0] == '-' then
      match ParseUnsigned(s[1..]) { case None => None case Some(v) => Some(-v) }
    else if s != "" && s[0] == '+' then ParseUnsigned(s[1..])
    else ParseUnsigned(s)
  }
}
