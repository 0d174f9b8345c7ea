// Canonical decimal text (identity.py) and the exact NUMERIC(38,9) guard (warehouse/model.py).
//
// A Python Decimal is a sign, a coefficient and a power of ten; several triples denote the
// same number. Every comparison of values below is done in exact integer units, never in
// floating point.
module Decimals {
  import opened Base

  datatype Decimal = Finite(negative: bool, coefficient: nat, exponent: int) | NonFinite

  datatype DecimalError = NonFiniteValue | NotExactlyNumeric

  // ---------- powers of ten and digit strings ----------

  function Pow10(n: nat): (r: nat)
    ensures r >= 1
    ensures n > 0 ==> r % 10 == 0
  {
    if n == 0 then 1 else 10 * Pow10(n - 1)
  }

  function Digit(d: nat): (c: char)
    requires d < 10
  {
    "0123456789"[d]
  }

  function DigitValue(c: char): nat {
    if '0' <= c <= '9' then c as int - '0' as int else 0
  }

  predicate AllDigits(s: string) {
    forall i | 0 <= i < |s| :: '0' <= s[i] <= '9'
  }

  function Digits(n: nat): (s: string)
    ensures |s| > 0 && AllDigits(s)
    ensures n > 0 ==> s[0] != '0'
    ensures DigitValue(s[|s| - 1]) == n % 10
  {
    if n < 10 then [Digit(n)] else Digits(n / 10) + [Digit(n % 10)]
  }

  function NatOf(s: string): nat {
    if s == [] then 0 else 10 * NatOf(s[..|s| - 1]) + DigitValue(s[|s| - 1])
  }

  function Zeros(n: nat): (s: string)
    ensures |s| == n && AllDigits(s)
    ensures forall i | 0 <= i < n :: s[i] == '0'
  {
    seq(n, i => '0')
  }

  // ---------- the encoder ----------

  /** Python's format(value, "f") without the sign: place the point among the digits. */
  function FixedPoint(ds: string, exponent: int): (s: string)
    ensures |s| >= |ds|
  {
    if exponent >= 0 then ds + Zeros(exponent)
    else if |ds| > -exponent then ds[..|ds| + exponent] + "." + ds[|ds| + exponent..]
    else "0." + Zeros(-exponent - |ds|) + ds
  }

  function StripRight(s: string, c: char): string {
    if s != [] && s[|s| - 1] == c then StripRight(s[..|s| - 1], c) else s
  }

  function StripLeft(s: string, c: char): string {
    if s != [] && s[0] == c then StripLeft(s[1..], c) else s
  }

  function Trim(text: string): string {
    if '.' in text then StripRight(StripRight(text, '0'), '.') else text
  }

  function DecimalText(d: Decimal): Result<string, DecimalError> {
    if d.NonFinite? then Err(NonFiniteValue)
    else if d.coefficient == 0 then Ok("0")
    else Ok((if d.negative then "-" else "") + Trim(FixedPoint(Digits(d.coefficient), d.exponent)))
  }

  // ---------- str.partition, the reader, and the NUMERIC guard ----------

  function Whole(s: string): string {
    if s == [] || s[0] == '.' then [] else [s[0]] + Whole(s[1..])
  }

  function Fraction(s: string): string {
    if s == [] then [] else if s[0] == '.' then s[1..] else Fraction(s[1..])
  }

  /** Reads canonical text back as a number. */
  function Parse(text: string): Decimal {
    var negative := text != [] && text[0] == '-';
    var body := if negative then text[1..] else text;
    Finite(negative, NatOf(Whole(body) + Fraction(body)), -|Fraction(body)|)
  }

  /** At most 29 digits before the point and 9 after it, leading zeros not counted. */
  predicate NumericText(text: string) {
    var body := StripLeft(text, '-');
    |StripLeft(Whole(body), '0')| <= 29 && |Fraction(body)| <= 9
  }

  /** Returns its argument unchanged or refuses it; it never rounds. */
  function Numeric(d: Decimal): Result<Decimal, DecimalError> {
    match DecimalText(d)
    case Err(e) => Err(e)
    case Ok(text) => if NumericText(text) then Ok(d) else Err(NotExactlyNumeric)
  }

  // ---------- numeric meaning ----------

  function Signed(d: Decimal): int
    requires d.Finite?
  {
    if d.negative then -(d.coefficient as int) else d.coefficient
  }

  /** The value of `d` in units of 10^-places, for any `places` fine enough to make it whole. */
  function Units(d: Decimal, places: int): int
    requires d.Finite? && d.exponent + places >= 0
  {
    Signed(d) * Pow10(d.exponent + places)
  }

  function Finer(x: Decimal, y: Decimal): int
    requires x.Finite? && y.Finite?
  {
    if x.exponent <= y.exponent then -x.exponent else -y.exponent
  }

  predicate SameNumber(x: Decimal, y: Decimal)
    requires x.Finite? && y.Finite?
  {
    Units(x, Finer(x, y)) == Units(y, Finer(x, y))
  }

  function Magnitude(k: int): nat {
    if k < 0 then -k else k
  }

  /** The number k / 10^9. */
  function Nanos(k: int): Decimal {
    Finite(k < 0, Magnitude(k), -9)
  }

  /** `d` is a whole number of 10^-9, of magnitude below 10^whole. */
  ghost predicate FitsDigits(d: Decimal, whole: nat)
    requires d.Finite?
  {
    exists k: int :: Magnitude(k) < Pow10(whole + 9) && SameNumber(d, Nanos(k))
  }

  /** `d` is one of the numbers NUMERIC(38,9) holds exactly. */
  ghost predicate FitsNumeric(d: Decimal)
    requires d.Finite?
  {
    FitsDigits(d, 29)
  }

  // ---------- arithmetic of units ----------

  lemma {:induction false} Pow10Add(a: nat, b: nat)
    ensures Pow10(a + b) == Pow10(a) * Pow10(b)
  {
    if a > 0 {
      Pow10Add(a - 1, b);
      assert Pow10(a + b) == 10 * (Pow10(a - 1) * Pow10(b));
    }
  }

  lemma {:induction false} Pow10Monotone(a: nat, b: nat)
    requires a <= b
    ensures Pow10(a) <= Pow10(b)
    decreases b
  {
    if a < b {
      Pow10Monotone(a, b - 1);
    }
  }

  lemma {:induction false} ScaleUp(gap: nat, m: nat)
    ensures (gap + 1) * m >= m
  {
    if gap > 0 {
      ScaleUp(gap - 1, m);
    }
  }

  lemma ScaleCompare(a: int, b: int, m: nat)
    requires m >= 1
    ensures a * m == b * m <==> a == b
    ensures a * m < b * m <==> a < b
  {
    if a < b {
      ScaleUp(b - a - 1, m);
      assert (b - a) * m == b * m - a * m;
    } else if b < a {
      ScaleUp(a - b - 1, m);
      assert (a - b) * m == a * m - b * m;
    }
  }

  lemma Swap(a: int, b: int)
    ensures a * (10 * b) == 10 * (a * b)
  {
  }

  lemma Associate(a: int, b: int, c: int)
    ensures a * (b * c) == (a * b) * c
  {
  }

  lemma UnitsRefine(d: Decimal, places: int, extra: nat)
    requires d.Finite? && d.exponent + places >= 0
    ensures Units(d, places + extra) == Units(d, places) * Pow10(extra)
  {
    Pow10Add(d.exponent + places, extra);
    Associate(Signed(d), Pow10(d.exponent + places), Pow10(extra));
    assert d.exponent + (places + extra) == d.exponent + places + extra;
  }

  /** Two decimals are the same number at one common scale exactly when they are at every scale. */
  lemma SameAtAnyScale(x: Decimal, y: Decimal, places: int)
    requires x.Finite? && y.Finite? && x.exponent + places >= 0 && y.exponent + places >= 0
    ensures SameNumber(x, y) <==> Units(x, places) == Units(y, places)
  {
    var f := Finer(x, y);
    UnitsRefine(x, f, places - f);
    UnitsRefine(y, f, places - f);
    ScaleCompare(Units(x, f), Units(y, f), Pow10(places - f));
  }

  lemma SameNumberTransitive(x: Decimal, y: Decimal, z: Decimal)
    requires x.Finite? && y.Finite? && z.Finite?
    requires SameNumber(x, y) && SameNumber(y, z)
    ensures SameNumber(x, z)
  {
    var places := Finer(x, y) + Finer(y, z) + (if x.exponent < 0 then -x.exponent else x.exponent)
                  + (if y.exponent < 0 then -y.exponent else y.exponent) * 2
                  + (if z.exponent < 0 then -z.exponent else z.exponent);
    SameAtAnyScale(x, y, places);
    SameAtAnyScale(y, z, places);
    SameAtAnyScale(x, z, places);
  }

  // ---------- the normal form: no trailing zero in the coefficient ----------

  predicate Normal(d: Decimal) {
    d.Finite? && (if d.coefficient == 0 then !d.negative && d.exponent == 0 else d.coefficient % 10 != 0)
  }

  function Normalize(d: Decimal): (r: Decimal)
    requires d.Finite?
    ensures Normal(r)
    decreases d.coefficient
  {
    if d.coefficient == 0 then Finite(false, 0, 0)
    else if d.coefficient % 10 == 0 then Normalize(Finite(d.negative, d.coefficient / 10, d.exponent + 1))
    else d
  }

  function Shift(d: Decimal): Decimal
    requires d.Finite?
  {
    Finite(d.negative, d.coefficient / 10, d.exponent + 1)
  }

  lemma ShiftSameNumber(d: Decimal)
    requires d.Finite? && d.coefficient % 10 == 0
    ensures SameNumber(Shift(d), d)
  {
    assert Pow10(1) == 10 && Pow10(0) == 1;
    assert Signed(Shift(d)) * 10 == Signed(d);
  }

  lemma {:induction false} NormalizeSameNumber(d: Decimal)
    requires d.Finite?
    ensures SameNumber(Normalize(d), d)
    decreases d.coefficient
  {
    if d.coefficient != 0 && d.coefficient % 10 == 0 {
      NormalizeSameNumber(Shift(d));
      ShiftSameNumber(d);
      SameNumberTransitive(Normalize(d), Shift(d), d);
    }
  }

  lemma MultipleOfTen(c: nat, gap: nat)
    requires gap > 0
    ensures (c * Pow10(gap)) % 10 == 0
  {
    Swap(c, Pow10(gap - 1));
    assert c * Pow10(gap) == 10 * (c * Pow10(gap - 1));
  }

  /** A number whose coefficient is not a multiple of ten cannot be written with a larger exponent. */
  lemma NormalExponent(x: Decimal, y: Decimal)
    requires x.Finite? && y.Finite? && y.coefficient % 10 != 0 && SameNumber(x, y)
    ensures x.exponent <= y.exponent
  {
    if y.exponent < x.exponent {
      MultipleOfTen(x.coefficient, x.exponent - y.exponent);
      Negate(x.coefficient, Pow10(x.exponent - y.exponent));
    }
  }

  lemma ZeroOnly(x: Decimal, y: Decimal)
    requires x.Finite? && y.Finite? && SameNumber(x, y)
    ensures x.coefficient == 0 <==> y.coefficient == 0
  {
    var f := Finer(x, y);
    ScaleCompare(Signed(x), 0, Pow10(x.exponent + f));
    ScaleCompare(Signed(y), 0, Pow10(y.exponent + f));
  }

  lemma NormalFormsAreUnique(x: Decimal, y: Decimal)
    requires Normal(x) && Normal(y) && SameNumber(x, y)
    ensures x == y
  {
    ZeroOnly(x, y);
    if x.coefficient != 0 {
      NormalExponent(x, y);
      NormalExponent(y, x);
    }
  }

  // ---------- string facts ----------

  lemma {:induction false} NatOfDigits(n: nat)
    ensures NatOf(Digits(n)) == n
  {
    if n >= 10 {
      NatOfDigits(n / 10);
      assert Digits(n)[..|Digits(n)| - 1] == Digits(n / 10);
    } else {
      assert Digits(n)[..0] == [];
    }
  }

  lemma NatOfAppend(s: string, c: char)
    ensures NatOf(s + [c]) == 10 * NatOf(s) + DigitValue(c)
  {
    assert (s + [c])[..|s|] == s;
  }

  lemma {:induction false} NatOfZeros(s: string, n: nat)
    ensures NatOf(s + Zeros(n)) == NatOf(s) * Pow10(n)
  {
    if n == 0 {
      assert s + Zeros(0) == s;
    } else {
      assert s + Zeros(n) == (s + Zeros(n - 1)) + ['0'];
      NatOfAppend(s + Zeros(n - 1), '0');
      NatOfZeros(s, n - 1);
      Swap(NatOf(s), Pow10(n - 1));
    }
  }

  lemma {:induction false} NatOfLeadingZeros(n: nat, s: string)
    ensures NatOf(Zeros(n) + s) == NatOf(s)
  {
    if s == [] {
      assert Zeros(n) + s == [] + Zeros(n);
      NatOfZeros([], n);
    } else {
      assert (Zeros(n) + s)[..n + |s| - 1] == Zeros(n) + s[..|s| - 1];
      NatOfLeadingZeros(n, s[..|s| - 1]);
    }
  }

  /** The number of digits brackets the number between two powers of ten. */
  lemma {:induction false} DigitsLength(n: nat)
    requires n > 0
    ensures Pow10(|Digits(n)| - 1) <= n < Pow10(|Digits(n)|)
  {
    if n >= 10 {
      DigitsLength(n / 10);
    } else {
      assert Pow10(1) == 10 * Pow10(0);
    }
  }

  lemma {:induction false} StripRightZeros(s: string, n: nat)
    requires s != [] ==> s[|s| - 1] != '0'
    ensures StripRight(s + Zeros(n), '0') == s
  {
    if n == 0 {
      assert s + Zeros(0) == s;
    } else {
      assert (s + Zeros(n))[..|s| + n - 1] == s + Zeros(n - 1);
      StripRightZeros(s, n - 1);
    }
  }

  lemma {:induction false} SplitAtPoint(whole: string, fraction: string)
    requires '.' !in whole
    ensures Whole(whole + "." + fraction) == whole && Fraction(whole + "." + fraction) == fraction
  {
    var s := whole + "." + fraction;
    if whole == [] {
      assert s[1..] == fraction;
    } else {
      assert s[1..] == whole[1..] + "." + fraction;
      SplitAtPoint(whole[1..], fraction);
    }
  }

  lemma {:induction false} SplitWithoutPoint(whole: string)
    requires '.' !in whole
    ensures Whole(whole) == whole && Fraction(whole) == []
  {
    if whole != [] {
      SplitWithoutPoint(whole[1..]);
    }
  }

  // ---------- the text depends on the number only ----------

  /** Digits, a point and only zeros: trimming leaves the digits. */
  lemma TrimWholeNumber(ds: string, n: nat)
    requires AllDigits(ds) && ds != []
    ensures Trim(ds + "." + Zeros(n)) == ds
  {
    var text := ds + "." + Zeros(n);
    assert text[|ds|] == '.';
    assert text == (ds + ".") + Zeros(n);
    StripRightZeros(ds + ".", n);
    assert (ds + ".")[..|ds|] == ds;
    assert StripRight(ds + ".", '.') == StripRight(ds, '.');
  }

  /** A fractional text and the same text with one more zero trim alike. */
  lemma TrimDropsZero(text: string)
    requires '.' in text
    ensures Trim(text + "0") == Trim(text)
  {
    assert (text + "0")[..|text|] == text;
  }

  lemma ShiftFraction(ds: string, e: int)
    requires AllDigits(ds) && ds != [] && e < -1
    ensures FixedPoint(ds + "0", e) == FixedPoint(ds, e + 1) + "0"
    ensures '.' in FixedPoint(ds, e + 1)
  {
    var text := FixedPoint(ds, e + 1);
    if |ds| > -(e + 1) {
      assert text[|ds| + e + 1] == '.';
    } else {
      assert text[1] == '.';
    }
  }

  /** Moving one factor of ten from the digits to the exponent does not change the text. */
  lemma ShiftKeepsText(ds: string, e: int)
    requires AllDigits(ds) && ds != []
    ensures Trim(FixedPoint(ds + "0", e)) == Trim(FixedPoint(ds, e + 1))
  {
    if e >= 0 {
      assert ds + "0" + Zeros(e) == ds + Zeros(e + 1);
    } else if e == -1 {
      TrimWholeNumber(ds, 1);
      assert FixedPoint(ds + "0", e) == ds + "." + Zeros(1);
      assert FixedPoint(ds, 0) == ds;
    } else {
      ShiftFraction(ds, e);
      TrimDropsZero(FixedPoint(ds, e + 1));
    }
  }

  lemma DigitsTimesTen(c: nat)
    requires c > 0
    ensures Digits(10 * c) == Digits(c) + "0"
  {
    assert 10 * c >= 10 && (10 * c) / 10 == c && (10 * c) % 10 == 0;
  }

  lemma ShiftKeepsDecimalText(d: Decimal)
    requires d.Finite? && d.coefficient > 0 && d.coefficient % 10 == 0
    ensures DecimalText(Shift(d)) == DecimalText(d)
  {
    DigitsTimesTen(d.coefficient / 10);
    ShiftKeepsText(Digits(d.coefficient / 10), d.exponent);
  }

  lemma {:induction false} NormalizeKeepsText(d: Decimal)
    requires d.Finite?
    ensures DecimalText(Normalize(d)) == DecimalText(d)
    decreases d.coefficient
  {
    if d.coefficient != 0 && d.coefficient % 10 == 0 {
      ShiftKeepsDecimalText(d);
      NormalizeKeepsText(Shift(d));
    }
  }

  // The digits of a normal number are printed around the point exactly as they are.

  function WholeDigits(ds: string, e: int): string {
    if e >= 0 then ds + Zeros(e) else if |ds| > -e then ds[..|ds| + e] else "0"
  }

  function FractionDigits(ds: string, e: int): string {
    if e >= 0 then [] else if |ds| > -e then ds[|ds| + e..] else Zeros(-e - |ds|) + ds
  }

  lemma TrimKeeps(text: string)
    requires '.' !in text || text[|text| - 1] !in ".0"
    ensures Trim(text) == text
  {
  }

  lemma LastOfSplit(ds: string, n: nat)
    requires n < |ds|
    ensures (ds[..n] + "." + ds[n..])[|ds|] == ds[|ds| - 1]
  {
  }

  lemma LastOfPadded(zeros: string, ds: string)
    requires ds != []
    ensures ("0." + zeros + ds)[|zeros| + |ds| + 1] == ds[|ds| - 1]
    ensures "0." + zeros + ds == "0" + "." + (zeros + ds)
  {
  }

  lemma FractionText(ds: string, e: int)
    requires AllDigits(ds) && ds != [] && ds[|ds| - 1] != '0' && e < 0
    ensures FixedPoint(ds, e) == WholeDigits(ds, e) + "." + FractionDigits(ds, e)
    ensures FixedPoint(ds, e)[|FixedPoint(ds, e)| - 1] == ds[|ds| - 1]
  {
    if |ds| > -e {
      LastOfSplit(ds, |ds| + e);
    } else {
      LastOfPadded(Zeros(-e - |ds|), ds);
    }
  }

  lemma NormalText(ds: string, e: int)
    requires AllDigits(ds) && ds != [] && ds[|ds| - 1] != '0'
    ensures Trim(FixedPoint(ds, e)) ==
            if e >= 0 then WholeDigits(ds, e) else WholeDigits(ds, e) + "." + FractionDigits(ds, e)
  {
    if e < 0 {
      FractionText(ds, e);
    }
    TrimKeeps(FixedPoint(ds, e));
  }

  lemma NormalParts(ds: string, e: int)
    requires AllDigits(ds) && ds != [] && ds[|ds| - 1] != '0'
    ensures Whole(Trim(FixedPoint(ds, e))) == WholeDigits(ds, e)
    ensures Fraction(Trim(FixedPoint(ds, e))) == FractionDigits(ds, e)
  {
    NormalText(ds, e);
    assert AllDigits(WholeDigits(ds, e));
    if e >= 0 {
      SplitWithoutPoint(WholeDigits(ds, e));
    } else {
      SplitAtPoint(WholeDigits(ds, e), FractionDigits(ds, e));
    }
  }

  lemma ReadDigits(ds: string, e: int)
    requires AllDigits(ds) && ds != []
    ensures |FractionDigits(ds, e)| == if e >= 0 then 0 else -e
    ensures NatOf(WholeDigits(ds, e) + FractionDigits(ds, e)) == if e >= 0 then NatOf(ds) * Pow10(e) else NatOf(ds)
  {
    if e >= 0 {
      assert WholeDigits(ds, e) + [] == ds + Zeros(e);
      NatOfZeros(ds, e);
    } else if |ds| > -e {
      assert WholeDigits(ds, e) + FractionDigits(ds, e) == ds;
    } else {
      assert WholeDigits(ds, e) + FractionDigits(ds, e) == Zeros(1 - e - |ds|) + ds;
      NatOfLeadingZeros(1 - e - |ds|, ds);
    }
  }

  lemma ParseSigned(negative: bool, body: string)
    requires body != [] && body[0] != '-'
    ensures Parse((if negative then "-" else "") + body) ==
            Finite(negative, NatOf(Whole(body) + Fraction(body)), -|Fraction(body)|)
  {
    assert ("-" + body)[1..] == body;
    assert "" + body == body;
  }

  lemma NormalRoundTrip(d: Decimal)
    requires Normal(d) && d.coefficient != 0
    ensures Parse(DecimalText(d).value) ==
            if d.exponent >= 0 then Finite(d.negative, d.coefficient * Pow10(d.exponent), 0) else d
  {
    var ds, e := Digits(d.coefficient), d.exponent;
    NormalText(ds, e);
    NormalParts(ds, e);
    ReadDigits(ds, e);
    NatOfDigits(d.coefficient);
    ParseSigned(d.negative, Trim(FixedPoint(ds, e)));
  }

  lemma ZeroRoundTrip()
    ensures Parse("0") == Finite(false, 0, 0)
  {
    SplitWithoutPoint("0");
    NatOfDigits(0);
    assert "0" + [] == "0" == Digits(0);
  }

  lemma WholeSameNumber(d: Decimal)
    requires d.Finite? && d.exponent >= 0
    ensures SameNumber(Finite(d.negative, d.coefficient * Pow10(d.exponent), 0), d)
  {
    var p := Finite(d.negative, d.coefficient * Pow10(d.exponent), 0);
    Negate(d.coefficient, Pow10(d.exponent));
    assert Units(p, 0) == Signed(p);
    SameAtAnyScale(p, d, 0);
  }

  lemma NormalReadsBack(d: Decimal)
    requires Normal(d)
    ensures SameNumber(Parse(DecimalText(d).value), d)
  {
    if d.coefficient == 0 {
      ZeroRoundTrip();
    } else {
      NormalRoundTrip(d);
      if d.exponent >= 0 {
        WholeSameNumber(d);
      }
    }
  }

  /** Reading the canonical text of a number gives that number back. */
  lemma TextRoundTrip(d: Decimal)
    requires d.Finite?
    ensures DecimalText(d).Ok? && SameNumber(Parse(DecimalText(d).value), d)
  {
    NormalizeKeepsText(d);
    NormalizeSameNumber(d);
    NormalReadsBack(Normalize(d));
    SameNumberTransitive(Parse(DecimalText(d).value), Normalize(d), d);
  }

  lemma Negate(a: int, b: int)
    ensures (-a) * b == -(a * b)
  {
  }

  /** The canonical form: equal text exactly for equal numbers, whatever way they were written. */
  lemma TextIsCanonical(x: Decimal, y: Decimal)
    requires x.Finite? && y.Finite?
    ensures DecimalText(x) == DecimalText(y) <==> SameNumber(x, y)
  {
    if SameNumber(x, y) {
      NormalizeSameNumber(x);
      NormalizeSameNumber(y);
      SameNumberTransitive(Normalize(x), x, y);
      SameNumberTransitive(Normalize(x), y, Normalize(y));
      NormalFormsAreUnique(Normalize(x), Normalize(y));
      NormalizeKeepsText(x);
      NormalizeKeepsText(y);
    }
    if DecimalText(x) == DecimalText(y) {
      TextRoundTrip(x);
      TextRoundTrip(y);
      var p := Parse(DecimalText(x).value);
      SameNumberTransitive(x, p, y);
    }
  }

  // ---------- the NUMERIC guard ----------

  lemma {:induction false} NoLeadingZero(s: string)
    requires s != [] && s[0] != '0'
    ensures StripLeft(s, '0') == s
  {
  }

  lemma StripSign(negative: bool, body: string)
    requires body != [] && body[0] != '-'
    ensures StripLeft((if negative then "-" else "") + body, '-') == body
  {
    assert ("-" + body)[1..] == body;
    assert "" + body == body;
  }

  lemma TextOfNormal(d: Decimal)
    requires Normal(d) && d.coefficient != 0
    ensures DecimalText(d) == Ok((if d.negative then "-" else "") + Trim(FixedPoint(Digits(d.coefficient), d.exponent)))
  {
  }

  lemma WholeLength(ds: string, e: int)
    requires AllDigits(ds) && ds != [] && ds[0] != '0'
    ensures |StripLeft(WholeDigits(ds, e), '0')| == if |ds| + e > 0 then |ds| + e else 0
  {
    if e >= 0 || |ds| > -e {
      assert WholeDigits(ds, e)[0] == ds[0];
      NoLeadingZero(WholeDigits(ds, e));
    } else {
      assert StripLeft("0", '0') == [];
    }
  }

  lemma NumericTextByLength(negative: bool, ds: string, e: int)
    requires AllDigits(ds) && ds != [] && ds[0] != '0' && ds[|ds| - 1] != '0'
    ensures NumericText((if negative then "-" else "") + Trim(FixedPoint(ds, e))) <==> e >= -9 && |ds| + e <= 29
  {
    NormalText(ds, e);
    NormalParts(ds, e);
    ReadDigits(ds, e);
    WholeLength(ds, e);
    StripSign(negative, Trim(FixedPoint(ds, e)));
  }

  /** What the length test means for a normal number, in terms of its digit count. */
  lemma NumericByLength(d: Decimal)
    requires Normal(d) && d.coefficient != 0
    ensures Numeric(d).Ok? <==> d.exponent >= -9 && |Digits(d.coefficient)| + d.exponent <= 29
  {
    TextOfNormal(d);
    NumericTextByLength(d.negative, Digits(d.coefficient), d.exponent);
  }

  /** The magnitude test in powers of ten. */
  lemma MagnitudeByLength(c: nat, e: int, whole: nat)
    requires c > 0 && e >= -9
    ensures c * Pow10(e + 9) < Pow10(whole + 9) <==> |Digits(c)| + e <= whole
  {
    var n := |Digits(c)|;
    DigitsLength(c);
    Pow10Add(n, e + 9);
    Pow10Add(n - 1, e + 9);
    ScaleCompare(c, Pow10(n), Pow10(e + 9));
    if n + e <= whole {
      Pow10Monotone(n + e + 9, whole + 9);
    } else {
      Pow10Monotone(whole + 9, n - 1 + e + 9);
      ScaleCompare(c, Pow10(n - 1), Pow10(e + 9));
    }
  }

  /** A normal number that is a whole number of nanos is this many of them. */
  lemma NanosCount(d: Decimal, k: int)
    requires Normal(d) && d.coefficient != 0
    ensures SameNumber(d, Nanos(k)) <==> d.exponent >= -9 && k == Signed(d) * Pow10(d.exponent + 9)
  {
    if d.exponent >= -9 {
      SameAtAnyScale(d, Nanos(k), 9);
    } else if SameNumber(d, Nanos(k)) {
      NormalExponent(Nanos(k), d);
    }
  }

  lemma FitsIsNumerical(x: Decimal, y: Decimal, whole: nat)
    requires x.Finite? && y.Finite? && SameNumber(x, y) && FitsDigits(x, whole)
    ensures FitsDigits(y, whole)
  {
    var k :| Magnitude(k) < Pow10(whole + 9) && SameNumber(x, Nanos(k));
    SameNumberTransitive(y, x, Nanos(k));
  }

  lemma NumericOfZero()
    ensures Numeric(Finite(false, 0, 0)).Ok?
  {
    SplitWithoutPoint("0");
    assert StripLeft("0", '-') == "0";
    assert StripLeft("0", '0') == [];
  }

  lemma ZeroFits(whole: nat)
    ensures FitsDigits(Finite(false, 0, 0), whole)
  {
    SameAtAnyScale(Finite(false, 0, 0), Nanos(0), 9);
    assert Magnitude(0) < Pow10(whole + 9);
  }

  lemma NanosOf(d: Decimal, whole: nat)
    requires Normal(d) && d.coefficient != 0 && d.exponent >= -9
    ensures var k := Signed(d) * Pow10(d.exponent + 9);
            && SameNumber(d, Nanos(k))
            && (Magnitude(k) < Pow10(whole + 9) <==> |Digits(d.coefficient)| + d.exponent <= whole)
  {
    var k := Signed(d) * Pow10(d.exponent + 9);
    Negate(d.coefficient, Pow10(d.exponent + 9));
    assert Magnitude(k) == d.coefficient * Pow10(d.exponent + 9);
    MagnitudeByLength(d.coefficient, d.exponent, whole);
    NanosCount(d, k);
  }

  lemma FitsByLength(d: Decimal, whole: nat)
    requires Normal(d) && d.coefficient != 0
    ensures FitsDigits(d, whole) <==> d.exponent >= -9 && |Digits(d.coefficient)| + d.exponent <= whole
  {
    if d.exponent >= -9 {
      NanosOf(d, whole);
    }
    if FitsDigits(d, whole) {
      var k :| Magnitude(k) < Pow10(whole + 9) && SameNumber(d, Nanos(k));
      NanosCount(d, k);
    }
  }

  /** numeric accepts exactly the values k / 10^9 with |k| < 10^38, however they are written,
      and returns what it was given. */
  lemma NumericIsExact(d: Decimal)
    requires d.Finite?
    ensures Numeric(d).Ok? <==> FitsNumeric(d)
    ensures Numeric(d).Ok? ==> Numeric(d).value == d
  {
    var n := Normalize(d);
    NormalizeKeepsText(d);
    NormalizeSameNumber(d);
    if n.coefficient == 0 {
      NumericOfZero();
      ZeroFits(29);
    } else {
      NumericByLength(n);
      FitsByLength(n, 29);
    }
    if FitsDigits(n, 29) {
      FitsIsNumerical(n, d, 29);
    }
    if FitsDigits(d, 29) {
      FitsIsNumerical(d, n, 29);
    }
  }
}
