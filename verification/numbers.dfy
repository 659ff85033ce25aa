/** JavaScript numbers as the client meets them: multiples of 0.01, held as
    the integer count of hundredths (a price of 49.99 is 4999). `String(x)`
    writes such a number back as decimal text, and `parseFloat` reads decimal
    text, exponent included, truncated to hundredths. */
module Numbers {
  import opened Wrappers
  import opened Text

  /** `n * 10^p`, truncated toward zero when `p` is negative. */
  function Shift(n: nat, p: int): nat
    decreases if p >= 0 then p else -p
  {
    if p == 0 then n
    else if p > 0 then Shift(n * 10, p - 1)
    else Shift(n / 10, p + 1)
  }

  /** The fraction digits `String` writes for `r` hundredths: none for a whole
      number, and no trailing zero. */
  function FractionText(r: nat): string
    requires r < 100
  {
    if r == 0 then ""
    else if r % 10 == 0 then "." + [DigitChar(r / 10)]
    else "." + [DigitChar(r / 10), DigitChar(r % 10)]
  }

  /** `String(x)` for a non-negative `x` of `c` hundredths. */
  function PlainText(c: nat): (t: string)
    ensures |t| > 0 && IsDigit(t[0])
  {
    NatToString(c / 100) + FractionText(c % 100)
  }

  /** `String(x)` for `x` of `c` hundredths: a minus sign for a negative value. */
  function ToText(c: int): (t: string)
    ensures |t| > 0
    ensures t[0] == '-' <==> c < 0
    ensures c >= 0 ==> IsDigit(t[0])
  {
    if c < 0 then "-" + PlainText(-c) else PlainText(c)
  }

  /** The digits after a leading decimal point; empty when there is no point
      or no digit after it. */
  function FractionPart(rest: string): string {
    if |rest| > 0 && rest[0] == '.' then rest[1..][..LeadingDigits(rest[1..])] else ""
  }

  /** What follows the decimal point and its digits. */
  function AfterFraction(rest: string): string {
    if |rest| > 0 && rest[0] == '.' then rest[1 + LeadingDigits(rest[1..])..] else rest
  }

  /** The exponent `e`/`E`, optional sign, digits; 0 when the text does not
      start with an exponent that has at least one digit. */
  function ExponentOf(after: string): int {
    if |after| > 0 && (after[0] == 'e' || after[0] == 'E') then
      var v := after[1..];
      var w := if |v| > 0 && (v[0] == '-' || v[0] == '+') then v[1..] else v;
      var k := LeadingDigits(w);
      if k == 0 then 0
      else if v[0] == '-' then -(DigitsValue(w[..k]) as int)
      else DigitsValue(w[..k])
    else 0
  }

  /** The digits before the decimal point. */
  function IntegerDigits(u: string): string {
    u[..LeadingDigits(u)]
  }

  /** What follows the digits before the decimal point. */
  function AfterInteger(u: string): string {
    u[LeadingDigits(u)..]
  }

  /** An unsigned decimal literal at the start of `u`: digits, optionally a
      point and more digits, optionally an exponent; at least one digit before
      the exponent. The value is in hundredths, truncated toward zero. */
  function ParseUnsigned(u: string): Option<nat> {
    Assemble(IntegerDigits(u), FractionPart(AfterInteger(u)), ExponentOf(AfterFraction(AfterInteger(u))))
  }

  /** The literal with integer digits `ints`, fraction digits `frac` and
      exponent `e`, in hundredths; none without a digit. */
  function Assemble(ints: string, frac: string, e: int): Option<nat> {
    if |ints| == 0 && |frac| == 0 then None
    else Some(Shift(DigitsValue(ints + frac), e + 2 - |frac|))
  }

  /** An optional sign followed by an unsigned literal. */
  function ParseSigned(t: string): Option<int> {
    if |t| > 0 && (t[0] == '-' || t[0] == '+') then
      match ParseUnsigned(t[1..])
      case Some(v) => Some(if t[0] == '-' then -(v as int) else v)
      case None => None
    else
      match ParseUnsigned(t)
      case Some(v) => Some(v)
      case None => None
  }

  /** `parseFloat(s)` in hundredths, after the leading white space. `None`
      stands for a result that is not a finite number (NaN, or a spelled-out
      `Infinity`); `JSON.stringify` writes both as `null`. */
  function ParseNumber(s: string): Option<int> {
    ParseSigned(TrimStart(s))
  }

  /** A literal is read iff the text starts with a digit, or with a point
      followed by a digit. */
  lemma LiteralStart(u: string)
    ensures ParseUnsigned(u).Some? <==> |u| > 0 && (IsDigit(u[0]) || (u[0] == '.' && |u| > 1 && IsDigit(u[1])))
  {
    var rest := AfterInteger(u);
    if |u| > 0 && !IsDigit(u[0]) {
      assert IntegerDigits(u) == "" && rest == u;
      if u[0] == '.' && |u| > 1 {
        assert u[1..][0] == u[1];
      }
    }
  }

  /** Which texts `parseFloat` reads as a number at all: after the leading
      white space and an optional sign, a digit, or a point and a digit. A
      negative result needs a minus sign. */
  lemma ParseNumberDefined(s: string)
    ensures var t := TrimStart(s);
            var signed := |t| > 0 && (t[0] == '-' || t[0] == '+');
            var u := if signed then t[1..] else t;
            && (ParseNumber(s).Some? <==> |u| > 0 && (IsDigit(u[0]) || (u[0] == '.' && |u| > 1 && IsDigit(u[1]))))
            && (ParseNumber(s).Some? && ParseNumber(s).value < 0 ==> signed && t[0] == '-')
  {
    var t := TrimStart(s);
    if |t| > 0 && (t[0] == '-' || t[0] == '+') {
      LiteralStart(t[1..]);
    } else {
      LiteralStart(t);
    }
  }

  lemma ParseEmptyIsNaN()
    ensures ParseNumber("") == None
  {
  }

  /** `parseFloat("49.99")` is 49.99. */
  lemma ParseFractionExample()
    ensures ParseNumber("49.99") == Some(4999)
  {
    assert ToText(4999) == "49.99" by {
      assert NatToString(49) == "49" by {
        assert NatToString(4) == "4";
      }
      assert FractionText(99) == ".99";
    }
    ParseOfToText(4999);
  }

  /** `parseFloat("1e3")` is 1000. */
  lemma ParseExponentExample()
    ensures ParseNumber("1e3") == Some(100000)
  {
    var u := "1e3";
    assert u[1..] == "e3" && "e3"[1..] == "3" && "3"[1..] == "" && "3"[..1] == "3";
    assert LeadingDigits(u) == 1;
    assert IntegerDigits(u) == "1" && AfterInteger(u) == "e3";
    assert FractionPart("e3") == "" && AfterFraction("e3") == "e3";
    assert ExponentOf("e3") == 3;
    assert DigitsValue("1" + "") == 1;
    assert Shift(1, 5) == Shift(10, 4) == Shift(100, 3) == Shift(1000, 2) == Shift(10000, 1) == 100000;
    assert ParseUnsigned(u) == Some(100000);
    NoLeadingSpace(u);
  }

  /** `parseFloat("abc")` is NaN. */
  lemma ParseLettersIsNaN()
    ensures ParseNumber("abc") == None
  {
    assert TrimStart("abc") == "abc";
    assert IntegerDigits("abc") == "" && AfterInteger("abc") == "abc";
  }

  /** `parseFloat(String(x)) == x`: a number written by `String` reads back as itself. */
  lemma ParseOfToText(c: int)
    ensures ParseNumber(ToText(c)) == Some(c)
  {
    if c < 0 {
      ParseOfNegative(c);
    } else {
      ParseOfPlain(c);
    }
  }

  lemma ParseOfPlain(c: nat)
    ensures ParseNumber(ToText(c)) == Some(c)
  {
    UnsignedOfPlain(c);
    NumberOfDigits(PlainText(c), c);
  }

  lemma ParseOfNegative(c: int)
    requires c < 0
    ensures ParseNumber(ToText(c)) == Some(c)
  {
    NegativeOfMagnitude(c, -c);
  }

  lemma NegativeOfMagnitude(c: int, m: nat)
    requires c < 0 && m == -c
    ensures ParseNumber(ToText(c)) == Some(c)
  {
    assert ToText(c) == "-" + PlainText(m);
    UnsignedOfPlain(m);
    NumberOfMinus(PlainText(m), m);
  }

  /** A literal that starts with a digit reads as itself. */
  lemma NumberOfDigits(p: string, m: nat)
    requires |p| > 0 && IsDigit(p[0])
    requires ParseUnsigned(p) == Some(m)
    ensures ParseNumber(p) == Some(m)
  {
    NoLeadingSpace(p);
  }

  /** A minus sign negates the literal after it. */
  lemma NumberOfMinus(p: string, m: nat)
    requires ParseUnsigned(p) == Some(m)
    ensures ParseNumber("-" + p) == Some(-(m as int))
  {
    NoLeadingSpace("-" + p);
    assert ("-" + p)[1..] == p;
  }

  /** The value of a literal in terms of its parts. */
  lemma ParseUnsignedParts(u: string, ints: string, frac: string, after: string)
    requires IntegerDigits(u) == ints
    requires FractionPart(AfterInteger(u)) == frac
    requires AfterFraction(AfterInteger(u)) == after
    ensures ParseUnsigned(u) == Assemble(ints, frac, ExponentOf(after))
  {
  }

  /** A whole number written in digits reads as that many hundreds of hundredths. */
  lemma UnsignedWhole(a: string)
    requires |a| > 0 && forall i :: 0 <= i < |a| ==> IsDigit(a[i])
    ensures ParseUnsigned(a) == Some(DigitsValue(a) * 100)
  {
    assert a + "" == a;
    IntegerPartOf(a, "");
    ParseUnsignedParts(a, a, "", "");
    AssembleWhole(a);
  }

  lemma AssembleWhole(a: string)
    requires |a| > 0
    ensures Assemble(a, "", 0) == Some(DigitsValue(a) * 100)
  {
    assert a + "" == a;
    var v := DigitsValue(a);
    assert Shift(v, 2) == Shift(v * 10, 1) == Shift(v * 10 * 10, 0);
  }

  /** Digits, a point, more digits, then anything that is not an exponent:
      the fraction digits scale the value down. */
  lemma UnsignedFraction(a: string, ds: string, tail: string)
    requires forall i :: 0 <= i < |a| ==> IsDigit(a[i])
    requires forall i :: 0 <= i < |ds| ==> IsDigit(ds[i])
    requires |tail| == 0 || (!IsDigit(tail[0]) && tail[0] != 'e' && tail[0] != 'E')
    ensures ParseUnsigned(a + ("." + ds + tail)) == Assemble(a, ds, 0)
  {
    var b := "." + ds + tail;
    IntegerPartOf(a, b);
    FractionPartOf(ds, tail);
    ParseUnsignedParts(a + b, a, ds, tail);
  }

  lemma IntegerPartOf(a: string, b: string)
    requires forall i :: 0 <= i < |a| ==> IsDigit(a[i])
    requires |b| == 0 || !IsDigit(b[0])
    ensures IntegerDigits(a + b) == a && AfterInteger(a + b) == b
  {
    LeadingDigitsConcat(a, b);
    assert (a + b)[..|a|] == a;
  }

  lemma FractionPartOf(ds: string, tail: string)
    requires forall i :: 0 <= i < |ds| ==> IsDigit(ds[i])
    requires |tail| == 0 || !IsDigit(tail[0])
    ensures FractionPart("." + ds + tail) == ds && AfterFraction("." + ds + tail) == tail
  {
    var b := "." + ds + tail;
    assert b[1..] == ds + tail;
    LeadingDigitsConcat(ds, tail);
    assert (ds + tail)[..|ds|] == ds;
    assert b[1 + |ds|..] == tail;
  }

  /** A whole number followed by one fraction digit. */
  lemma UnsignedOneDecimal(q: nat, r: nat)
    requires 0 < r < 100 && r % 10 == 0
    ensures ParseUnsigned(NatToString(q) + ("." + [DigitChar(r / 10)])) == Some(q * 100 + r)
  {
    var a := NatToString(q);
    var ds := [DigitChar(r / 10)];
    assert "." + ds + "" == "." + ds;
    UnsignedFraction(a, ds, "");
    AssembleOne(q, r / 10);
  }

  lemma AssembleOne(q: nat, d1: nat)
    requires d1 < 10
    ensures Assemble(NatToString(q), [DigitChar(d1)], 0) == Some(q * 100 + d1 * 10)
  {
    var a := NatToString(q);
    DigitsOfNat(q);
    DigitsValueSnoc(a, d1);
    assert Shift(q * 10 + d1, 1) == (q * 10 + d1) * 10;
  }

  /** A whole number followed by two fraction digits. */
  lemma UnsignedTwoDecimals(q: nat, r: nat)
    requires 0 < r < 100 && r % 10 != 0
    ensures ParseUnsigned(NatToString(q) + ("." + [DigitChar(r / 10), DigitChar(r % 10)])) == Some(q * 100 + r)
  {
    var a := NatToString(q);
    var ds := [DigitChar(r / 10), DigitChar(r % 10)];
    assert "." + ds + "" == "." + ds;
    UnsignedFraction(a, ds, "");
    AssembleTwo(q, r / 10, r % 10);
  }

  lemma AssembleTwo(q: nat, d1: nat, d2: nat)
    requires d1 < 10 && d2 < 10
    ensures Assemble(NatToString(q), [DigitChar(d1), DigitChar(d2)], 0) == Some(q * 100 + d1 * 10 + d2)
  {
    var a := NatToString(q);
    DigitsOfNat(q);
    DigitsValueSnoc(a, d1);
    DigitsValueSnoc(a + [DigitChar(d1)], d2);
    assert a + [DigitChar(d1), DigitChar(d2)] == a + [DigitChar(d1)] + [DigitChar(d2)];
    assert Shift(q * 100 + d1 * 10 + d2, 0) == q * 100 + d1 * 10 + d2;
  }

  lemma UnsignedOfPlain(c: nat)
    ensures ParseUnsigned(PlainText(c)) == Some(c)
  {
    UnsignedOfParts(c / 100, c % 100);
  }

  /** `q` whole units and `r` hundredths, written and read back. */
  lemma UnsignedOfParts(q: nat, r: nat)
    requires r < 100
    ensures ParseUnsigned(NatToString(q) + FractionText(r)) == Some(q * 100 + r)
  {
    if r == 0 {
      var a := NatToString(q);
      assert a + FractionText(r) == a;
      DigitsOfNat(q);
      UnsignedWhole(a);
    } else if r % 10 == 0 {
      UnsignedOneDecimal(q, r);
    } else {
      UnsignedTwoDecimals(q, r);
    }
  }
}
