/** What parseFloat reads (scoring.service.ts applies it to the text of a
    choice): a number that was written down, with white space before it and
    other text after it, and nothing where no number begins. */
module NumberReading {
  import opened Wrappers
  import opened Strings
  import opened Answers

  /** A natural number in decimal. */
  function Written(n: nat): string {
    if n < 10 then [('0' as int + n) as char] else Written(n / 10) + [('0' as int + n % 10) as char]
  }

  predicate AllDigits(s: string) {
    forall c :: c in s ==> IsDigit(c)
  }

  lemma {:induction false} WrittenReads(n: nat)
    ensures AllDigits(Written(n)) && Natural(Written(n)) == n && Written(n) != ""
  {
    if n < 10 {
      assert Written(n)[..0] == "";
    } else {
      WrittenReads(n / 10);
      assert Written(n)[..|Written(n)| - 1] == Written(n / 10);
    }
  }

  /** One step of the exponent is one shift of the dot. */
  lemma {:induction false} TenTimes(k: int)
    ensures TenTo(0) == 1.0 && TenTo(k) > 0.0 && TenTo(k + 1) == 10.0 * TenTo(k)
    decreases if k < 0 then -k else k
  {
    if k > 0 { TenTimes(k - 1); }
    if k < 0 { TenTimes(k + 1); }
  }

  /** The rest of the text does not go on with the digits before it. */
  predicate NoDigit(tail: string) {
    tail == "" || !IsDigit(tail[0])
  }

  lemma {:induction false} ReadsDigits(digits: string, tail: string)
    requires AllDigits(digits) && NoDigit(tail)
    ensures LeadingDigits(digits + tail) == digits && (digits + tail)[|digits|..] == tail
  {
    if digits == "" {
      assert digits + tail == tail;
    } else {
      assert (digits + tail)[1..] == digits[1..] + tail;
      ReadsDigits(digits[1..], tail);
    }
  }

  lemma {:induction false} SkipsSpace(spaces: string, s: string)
    requires AllSpace(spaces) && (s == "" || !IsSpace(s[0]))
    ensures TrimStart(spaces + s) == s
  {
    if spaces == "" {
      assert spaces + s == s;
    } else {
      assert (spaces + s)[1..] == spaces[1..] + s;
      SkipsSpace(spaces[1..], s);
    }
  }

  /** A number as it may be written: a sign, digits, a fraction, an exponent.
      The digits or the fraction may be missing, but not both. */
  datatype Sign = Unsigned | Plus | Minus

  datatype Exponent = NoExponent | Tens(upper: bool, sign: Sign, power: nat)

  datatype Decimal = Decimal(sign: Sign, whole: string, fraction: Option<string>, exponent: Exponent) {
    predicate Valid() {
      AllDigits(whole + fraction.GetOr("")) && whole + fraction.GetOr("") != ""
    }

    function PrintUnsigned(): string {
      whole + (if fraction.Some? then "." + fraction.value else "") + ExponentText(exponent)
    }

    /** Its digits as one whole number, moved by the exponent and by the
        length of the fraction. */
    function Magnitude(): real
      requires Valid()
    {
      Shifted(Natural(whole + fraction.GetOr("")), PowerOf(exponent) - |fraction.GetOr("")|)
    }

    function Meaning(): real
      requires Valid()
    {
      Signed(sign, Magnitude())
    }
  }

  function Signed(sign: Sign, magnitude: real): real {
    if sign == Minus then -magnitude else magnitude
  }

  function SignText(sign: Sign): string {
    match sign case Unsigned => "" case Plus => "+" case Minus => "-"
  }

  function ExponentText(e: Exponent): string {
    match e
    case NoExponent => ""
    case Tens(upper, sign, power) => (if upper then "E" else "e") + SignText(sign) + Written(power)
  }

  function PowerOf(e: Exponent): int {
    match e
    case NoExponent => 0
    case Tens(_, sign, power) => if sign == Minus then 0 - power as int else power
  }

  /** What follows the number cannot be part of it. */
  predicate Ends(d: Decimal, tail: string) {
    && NoDigit(tail)
    && (d.exponent.NoExponent? ==> tail == "" || tail[0] !in {'e', 'E'})
    && (d.exponent.NoExponent? && d.fraction.None? ==> tail == "" || tail[0] != '.')
  }

  lemma ReadsPower(head: string, digits: string, tail: string)
    requires head in {"e", "E", "e+", "E+", "e-", "E-"} && AllDigits(digits) && digits != "" && NoDigit(tail)
    ensures ReadExponent(head + digits + tail)
         == if |head| == 2 && head[1] == '-' then 0 - Natural(digits) as int else Natural(digits)
  {
    var s := head + digits + tail;
    ReadsDigits(digits, tail);
    assert s[|head|..] == digits + tail;
    assert s[0] == head[0];
    assert s[1] == if |head| == 2 then head[1] else digits[0];
  }

  lemma ReadsExponent(e: Exponent, tail: string)
    requires NoDigit(tail) && (e.NoExponent? ==> tail == "" || tail[0] !in {'e', 'E'})
    ensures ReadExponent(ExponentText(e) + tail) == PowerOf(e)
  {
    if e.Tens? {
      WrittenReads(e.power);
      var head := (if e.upper then "E" else "e") + SignText(e.sign);
      assert e.sign == Unsigned ==> head == if e.upper then "E" else "e";
      assert e.sign == Plus ==> head == if e.upper then "E+" else "e+";
      assert e.sign == Minus ==> head == if e.upper then "E-" else "e-";
      ReadsPower(head, Written(e.power), tail);
    } else {
      assert ExponentText(e) + tail == tail;
    }
  }

  lemma ExponentStarts(d: Decimal, tail: string)
    requires Ends(d, tail)
    ensures var after := ExponentText(d.exponent) + tail;
            NoDigit(after) && (d.fraction.None? ==> after == "" || after[0] != '.')
  {
    if d.exponent.NoExponent? { assert ExponentText(d.exponent) + tail == tail; }
  }

  lemma ReadsDotted(whole: string, digits: string, after: string)
    requires AllDigits(whole) && AllDigits(digits) && NoDigit(after)
    ensures ReadNumeral(whole + ("." + (digits + after))) == Numeral(whole, digits, after)
  {
    var rest := "." + (digits + after);
    ReadsDigits(whole, rest);
    assert rest[1..] == digits + after;
    ReadsDigits(digits, after);
    assert rest[1 + |digits|..] == (digits + after)[|digits|..];
  }

  lemma PlainText(whole: string, power: string, tail: string)
    ensures whole + "" + power + tail == whole + (power + tail)
  {
  }

  lemma DottedText(whole: string, digits: string, power: string, tail: string)
    ensures whole + ("." + digits) + power + tail == whole + ("." + (digits + (power + tail)))
  {
    assert ("." + digits) + (power + tail) == "." + (digits + (power + tail));
  }

  lemma ReadsPieces(d: Decimal, tail: string)
    requires d.Valid() && Ends(d, tail)
    ensures ReadNumeral(d.PrintUnsigned() + tail)
         == Numeral(d.whole, d.fraction.GetOr(""), ExponentText(d.exponent) + tail)
  {
    ExponentStarts(d, tail);
    DigitParts(d.whole, d.fraction.GetOr(""));
    match d.fraction
    case Some(digits) =>
      DottedText(d.whole, digits, ExponentText(d.exponent), tail);
      ReadsDotted(d.whole, digits, ExponentText(d.exponent) + tail);
    case None =>
      PlainText(d.whole, ExponentText(d.exponent), tail);
      ReadsDigits(d.whole, ExponentText(d.exponent) + tail);
  }

  lemma DigitParts(s: string, t: string)
    requires AllDigits(s + t)
    ensures AllDigits(s) && AllDigits(t)
  {
    assert forall c :: c in s || c in t ==> c in s + t;
  }

  lemma StartsPlain(d: Decimal, tail: string)
    requires d.Valid()
    ensures var s := d.PrintUnsigned() + tail; s != "" && !IsSpace(s[0]) && s[0] !in {'+', '-'}
  {
    if d.whole != "" {
      assert (d.PrintUnsigned() + tail)[0] == d.whole[0];
      assert d.whole[0] in d.whole + d.fraction.GetOr("");
    } else {
      assert d.whole + d.fraction.GetOr("") == d.fraction.GetOr("");
      assert (d.PrintUnsigned() + tail)[0] == '.';
    }
  }

  lemma ReadsSigned(spaces: string, sign: Sign, u: string, magnitude: real)
    requires AllSpace(spaces) && u != "" && !IsSpace(u[0]) && u[0] !in {'+', '-'}
    requires ParseUnsigned(u) == Some(magnitude)
    ensures ParseFloat(spaces + (SignText(sign) + u)) == Some(Signed(sign, magnitude))
  {
    if sign == Unsigned { assert SignText(sign) + u == u; }
    else { assert (SignText(sign) + u)[1..] == u; }
    SkipsSpace(spaces, SignText(sign) + u);
  }

  lemma ReadsMagnitude(d: Decimal, tail: string)
    requires d.Valid() && Ends(d, tail)
    ensures ParseUnsigned(d.PrintUnsigned() + tail) == Some(d.Magnitude())
  {
    ReadsPieces(d, tail);
    ReadsExponent(d.exponent, tail);
    var n := ReadNumeral(d.PrintUnsigned() + tail);
    assert n.whole + n.fraction == d.whole + d.fraction.GetOr("");
    assert ReadExponent(n.rest) - |n.fraction| == PowerOf(d.exponent) - |d.fraction.GetOr("")|;
  }

  /** A number that was written down is read back, whatever stands around it. */
  lemma ReadsBack(spaces: string, d: Decimal, tail: string)
    requires AllSpace(spaces) && d.Valid() && Ends(d, tail)
    ensures ParseFloat(spaces + (SignText(d.sign) + (d.PrintUnsigned() + tail))) == Some(d.Meaning())
  {
    StartsPlain(d, tail);
    ReadsMagnitude(d, tail);
    ReadsSigned(spaces, d.sign, d.PrintUnsigned() + tail, d.Magnitude());
  }

  /** Nothing is read exactly where no digit follows the white space, a sign
      and a dot, each of which may be missing. */
  lemma NothingReadIff(text: string)
    ensures var s := TrimStart(text);
            var u := if s != "" && s[0] in {'+', '-'} then s[1..] else s;
            ParseFloat(text).None? <==> (u == "" || !IsDigit(u[0])) && (|u| < 2 || u[0] != '.' || !IsDigit(u[1]))
  {
  }
}
