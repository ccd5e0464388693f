/** Canonical decimals: `_canonical_decimal` of `src/featureforge/online.py`, which `_decimal` of
    `src/featureforge/expected.py` repeats. `Decimal(str(x))` is a sign, a coefficient and an exponent. */
module Decimals {

  datatype Number = Number(negative: bool, coefficient: nat, exponent: int)

  function Pow10(k: nat): (r: nat)
    ensures 1 <= r
  {
    if k == 0 then 1 else 10 * Pow10(k - 1)
  }

  /** `x * 10^k`, kept apart so that products stay folded. */
  function Scaled(x: nat, k: nat): nat {
    x * Pow10(k)
  }

  lemma {:induction false} ScaleTwice(x: nat, j: nat, k: nat)
    ensures Scaled(Scaled(x, j), k) == Scaled(x, j + k)
  {
    if k > 0 {
      ScaleTwice(x, j, k - 1);
      assert Scaled(Scaled(x, j), k) == 10 * Scaled(Scaled(x, j), k - 1);
      assert Scaled(x, j + k) == 10 * Scaled(x, j + k - 1);
    }
  }

  lemma ScaleStep(x: nat, k: nat)
    requires k > 0
    ensures Scaled(x, k) == 10 * Scaled(x, k - 1) && Scaled(x, k) % 10 == 0
  {
  }

  lemma {:induction false} ScaleCancels(x: nat, y: nat, k: nat)
    requires Scaled(x, k) == Scaled(y, k)
    ensures x == y
  {
    if k > 0 {
      ScaleStep(x, k);
      ScaleStep(y, k);
      ScaleCancels(x, y, k - 1);
    }
  }

  /** The same rational number; the sign of zero does not matter. */
  predicate SameNumber(a: Number, b: Number) {
    if a.coefficient == 0 || b.coefficient == 0 then a.coefficient == b.coefficient
    else
      && a.negative == b.negative
      && if a.exponent <= b.exponent then a.coefficient == Scaled(b.coefficient, b.exponent - a.exponent)
         else b.coefficient == Scaled(a.coefficient, a.exponent - b.exponent)
  }

  lemma SameIsTransitive(a: Number, b: Number, c: Number)
    requires SameNumber(a, b) && SameNumber(b, c)
    ensures SameNumber(a, c) && SameNumber(b, a)
  {
    if a.coefficient != 0 && b.coefficient != 0 && c.coefficient != 0 {
      var low := if a.exponent <= b.exponent && a.exponent <= c.exponent then a.exponent
                 else if b.exponent <= c.exponent then b.exponent else c.exponent;
      ToCommon(a, b, low);
      ToCommon(b, c, low);
      FromCommon(a, c, low);
    }
  }

  lemma ToCommon(a: Number, b: Number, low: int)
    requires SameNumber(a, b) && a.coefficient != 0 && b.coefficient != 0 && low <= a.exponent && low <= b.exponent
    ensures Scaled(a.coefficient, a.exponent - low) == Scaled(b.coefficient, b.exponent - low)
  {
    if a.exponent <= b.exponent {
      ScaleTwice(b.coefficient, b.exponent - a.exponent, a.exponent - low);
    } else {
      ScaleTwice(a.coefficient, a.exponent - b.exponent, b.exponent - low);
    }
  }

  lemma FromCommon(a: Number, c: Number, low: int)
    requires a.coefficient != 0 && c.coefficient != 0 && a.negative == c.negative && low <= a.exponent && low <= c.exponent
    requires Scaled(a.coefficient, a.exponent - low) == Scaled(c.coefficient, c.exponent - low)
    ensures SameNumber(a, c)
  {
    if a.exponent <= c.exponent {
      ScaleTwice(c.coefficient, c.exponent - a.exponent, a.exponent - low);
      ScaleCancels(a.coefficient, Scaled(c.coefficient, c.exponent - a.exponent), a.exponent - low);
    } else {
      ScaleTwice(a.coefficient, a.exponent - c.exponent, c.exponent - low);
      ScaleCancels(c.coefficient, Scaled(a.coefficient, a.exponent - c.exponent), c.exponent - low);
    }
  }

  // ---- Normal form -----------------------------------------------------------------------------------------

  /** Trailing zeros move into the exponent. */
  function Strip(n: Number): (r: Number)
    requires n.coefficient > 0
    ensures r.coefficient > 0 && r.coefficient % 10 != 0
    decreases n.coefficient
  {
    if n.coefficient % 10 == 0 then Strip(Number(n.negative, n.coefficient / 10, n.exponent + 1)) else n
  }

  lemma {:induction false} StripKeepsNumber(n: Number)
    requires n.coefficient > 0
    ensures SameNumber(n, Strip(n))
    decreases n.coefficient
  {
    if n.coefficient % 10 == 0 {
      var m := Number(n.negative, n.coefficient / 10, n.exponent + 1);
      StripKeepsNumber(m);
      assert Scaled(m.coefficient, 1) == n.coefficient by {
        assert Pow10(1) == 10 * Pow10(0);
      }
      SameIsTransitive(n, m, Strip(m));
    }
  }

  /** Two stripped representations of one number are one representation. */
  lemma StrippedIsUnique(a: Number, b: Number)
    requires a.coefficient % 10 != 0 && b.coefficient % 10 != 0 && SameNumber(a, b)
    ensures a == b
  {
    if a.exponent < b.exponent {
      ScaleStep(b.coefficient, b.exponent - a.exponent);
    } else if b.exponent < a.exponent {
      ScaleStep(a.coefficient, a.exponent - b.exponent);
    } else {
      assert Scaled(b.coefficient, 0) == b.coefficient;
    }
  }

  /** The context precision of `normalize`. */
  const PRECISION: nat := 28

  /** How many digits a coefficient has beyond the precision. */
  function Excess(c: nat): nat {
    if c < Pow10(PRECISION) then 0 else 1 + Excess(c / 10)
  }

  /** Its leading digits, as many as the precision allows. */
  function Leading(c: nat): (q: nat)
    ensures c > 0 ==> q > 0
  {
    if c < Pow10(PRECISION) then c else Leading(c / 10)
  }

  lemma {:induction false} LeadingIsQuotient(c: nat)
    ensures Scaled(Leading(c), Excess(c)) <= c < Scaled(Leading(c) + 1, Excess(c))
  {
    if c < Pow10(PRECISION) {
      assert Scaled(c, 0) == c && Scaled(c + 1, 0) == c + 1;
    } else {
      LeadingIsQuotient(c / 10);
      var q, d := Leading(c / 10), Excess(c / 10);
      assert Leading(c) == q && Excess(c) == d + 1;
      ScaleStep(q, d + 1);
      ScaleStep(q + 1, d + 1);
    }
  }

  /** Round half to even to the precision. */
  function Rounded(n: Number): (r: Number)
    ensures n.coefficient > 0 ==> r.coefficient > 0
  {
    var q, d := Leading(n.coefficient), Excess(n.coefficient);
    var twice, unit := 2 * (n.coefficient - Scaled(q, d)), Pow10(d);
    Number(n.negative, if twice > unit || (twice == unit && q % 2 == 1) then q + 1 else q, n.exponent + d)
  }

  /** `normalize`: what remains after rounding to the precision, without trailing zeros. */
  function Normalized(n: Number): (r: Number)
    requires n.coefficient > 0
    ensures r.coefficient > 0
  {
    var s := Strip(n);
    if s.coefficient < Pow10(PRECISION) then s else Strip(Rounded(s))
  }

  /** At most 28 significant digits. */
  predicate Fits(n: Number) {
    n.coefficient == 0 || Strip(n).coefficient < Pow10(PRECISION)
  }

  lemma RoundingLoses(n: Number)
    requires n.coefficient % 10 != 0 && Pow10(PRECISION) <= n.coefficient
    ensures !SameNumber(n, Rounded(n))
  {
    var r := Rounded(n);
    ScaleStep(r.coefficient, r.exponent - n.exponent);
  }

  /** Normalizing keeps the number exactly when it has at most 28 significant digits. */
  lemma NormalizedIff(n: Number)
    requires n.coefficient > 0
    ensures SameNumber(n, Normalized(n)) <==> Fits(n)
  {
    var s := Strip(n);
    StripKeepsNumber(n);
    if s.coefficient >= Pow10(PRECISION) {
      RoundingLoses(s);
      StripKeepsNumber(Rounded(s));
      if SameNumber(n, Normalized(n)) {
        SameIsTransitive(n, s, s) by {
          SelfSame(s);
        }
        SameIsTransitive(s, n, Normalized(n));
        SameIsTransitive(Rounded(s), Strip(Rounded(s)), Strip(Rounded(s))) by {
          SelfSame(Strip(Rounded(s)));
        }
        SameIsTransitive(s, Strip(Rounded(s)), Rounded(s));
      }
    }
  }

  lemma SelfSame(n: Number)
    ensures SameNumber(n, n)
  {
    assert Scaled(n.coefficient, 0) == n.coefficient;
  }

  // ---- Text ---------------------------------------------------------------------------------------------------

  predicate IsDigit(c: char) {
    '0' <= c <= '9'
  }

  predicate AllDigits(s: string) {
    forall i | 0 <= i < |s| :: IsDigit(s[i])
  }

  function Digit(d: nat): (c: char)
    requires d < 10
    ensures IsDigit(c) && DigitValue(c) == d
  {
    '0' + d as char
  }

  function DigitValue(c: char): nat
    requires IsDigit(c)
  {
    c as int - '0' as int
  }

  function Digits(n: nat): (s: string)
    ensures s != "" && AllDigits(s)
  {
    if n < 10 then [Digit(n)] else Digits(n / 10) + [Digit(n % 10)]
  }

  function ValueOf(s: string): nat
    requires AllDigits(s)
  {
    if s == "" then 0 else 10 * ValueOf(s[..|s| - 1]) + DigitValue(s[|s| - 1])
  }

  function Zeros(k: nat): (s: string)
    ensures |s| == k && AllDigits(s) && forall i | 0 <= i < k :: s[i] == '0'
  {
    seq(k, _ => '0')
  }

  lemma {:induction false} DigitsHaveValue(n: nat)
    ensures ValueOf(Digits(n)) == n
  {
    if n < 10 {
      assert [Digit(n)][..0] == "";
    } else {
      DigitsHaveValue(n / 10);
      assert Digits(n)[..|Digits(n)| - 1] == Digits(n / 10);
    }
  }

  lemma {:induction false} LeadingZeros(k: nat, s: string)
    requires AllDigits(s)
    ensures AllDigits(Zeros(k) + s) && ValueOf(Zeros(k) + s) == ValueOf(s)
  {
    var t := Zeros(k) + s;
    if s != "" {
      assert t[..|t| - 1] == Zeros(k) + s[..|s| - 1];
      LeadingZeros(k, s[..|s| - 1]);
    } else if k > 0 {
      assert t[..|t| - 1] == Zeros(k - 1) + "";
      LeadingZeros(k - 1, "");
    } else {
      assert t == "";
    }
  }

  lemma {:induction false} TrailingZeros(s: string, k: nat)
    requires AllDigits(s)
    ensures AllDigits(s + Zeros(k)) && ValueOf(s + Zeros(k)) == Scaled(ValueOf(s), k)
  {
    if k == 0 {
      assert s + Zeros(0) == s;
    } else {
      var t := s + Zeros(k);
      assert t[..|t| - 1] == s + Zeros(k - 1);
      TrailingZeros(s, k - 1);
      ScaleStep(ValueOf(s), k);
    }
  }

  /** `format(x, "f")` of a positive coefficient, without its sign. */
  function Fixed(n: Number): string {
    var digits := Digits(n.coefficient);
    if n.exponent >= 0 then digits + Zeros(n.exponent)
    else
      var k := -n.exponent;
      if k < |digits| then digits[..|digits| - k] + "." + digits[|digits| - k..]
      else "0" + "." + (Zeros(k - |digits|) + digits)
  }

  /** `_canonical_decimal`. */
  function Canonical(n: Number): string {
    if n.coefficient == 0 then "0"
    else
      var m := Normalized(n);
      (if m.negative then "-" else "") + Fixed(m)
  }

  /** The position of the decimal point, or the length when there is none. */
  function PointAt(s: string): (i: nat)
    ensures i <= |s| && (i < |s| ==> s[i] == '.') && forall j | 0 <= j < i :: s[j] != '.'
  {
    if s == "" || s[0] == '.' then 0 else 1 + PointAt(s[1..])
  }

  predicate IsUnsigned(s: string) {
    AllDigits(s[..PointAt(s)]) && (PointAt(s) < |s| ==> AllDigits(s[PointAt(s) + 1..]))
  }

  lemma PointIs(s: string, i: nat)
    requires i <= |s| && (i < |s| ==> s[i] == '.') && forall j | 0 <= j < i :: s[j] != '.'
    ensures PointAt(s) == i
  {
  }

  /** `Decimal(text)` of an unsigned plain number. */
  function Read(s: string): (n: Number)
    requires IsUnsigned(s)
    ensures !n.negative
  {
    var i := PointAt(s);
    if i == |s| then Number(false, ValueOf(s[..i]), 0)
    else Number(false, ValueOf(s[..i] + s[i + 1..]), -(|s| - i - 1))
  }

  lemma WholeReads(digits: string, k: nat)
    requires AllDigits(digits) && digits != ""
    ensures var s := digits + Zeros(k);
      IsUnsigned(s) && s[0] != '-' && Read(s) == Number(false, Scaled(ValueOf(digits), k), 0)
  {
    hide ValueOf;
    hide PointAt;
    var s := digits + Zeros(k);
    PointIs(s, |s|);
    assert s[..|s|] == s;
    TrailingZeros(digits, k);
  }

  /** What `Read` makes of a text whose point is at `i`. */
  lemma PointedReads(s: string, i: nat, whole: string, fraction: string)
    requires s == whole + "." + fraction && i == |whole| && AllDigits(whole) && AllDigits(fraction) && whole != ""
    ensures IsUnsigned(s) && s[0] != '-' && Read(s) == Number(false, ValueOf(whole + fraction), 0 - |fraction|)
  {
    hide ValueOf;
    hide PointAt;
    PointIs(s, i);
    assert s[..i] == whole && s[i + 1..] == fraction;
  }

  lemma SplitReads(digits: string, k: nat)
    requires AllDigits(digits) && 0 < k < |digits|
    ensures var s := digits[..|digits| - k] + "." + digits[|digits| - k..];
      IsUnsigned(s) && s[0] != '-' && Read(s) == Number(false, ValueOf(digits), 0 - k)
  {
    hide ValueOf;
    hide Read;
    hide PointAt;
    hide IsUnsigned;
    var i := |digits| - k;
    assert digits[..i] + digits[i..] == digits;
    PointedReads(digits[..i] + "." + digits[i..], i, digits[..i], digits[i..]);
  }

  lemma FractionReads(digits: string, k: nat)
    requires AllDigits(digits) && |digits| <= k && 0 < k
    ensures var s := "0" + "." + (Zeros(k - |digits|) + digits);
      IsUnsigned(s) && s[0] != '-' && Read(s) == Number(false, ValueOf(digits), 0 - k)
  {
    hide ValueOf;
    hide Read;
    hide PointAt;
    hide IsUnsigned;
    var padded := Zeros(k - |digits|) + digits;
    LeadingZeros(k - |digits|, digits);
    LeadingZeros(1, padded);
    assert Zeros(1) == "0";
    PointedReads("0" + "." + padded, 1, "0", padded);
  }

  /** The fixed form of a number reads back as that number. */
  lemma FixedReads(n: Number)
    requires n.coefficient > 0
    ensures IsUnsigned(Fixed(n)) && Fixed(n)[0] != '-' && SameNumber(Read(Fixed(n)), n.(negative := false))
  {
    hide ValueOf;
    hide Digits;
    hide IsUnsigned;
    hide Read;
    var digits := Digits(n.coefficient);
    DigitsHaveValue(n.coefficient);
    SelfSame(n.(negative := false));
    if n.exponent >= 0 {
      WholeReads(digits, n.exponent);
    } else if -n.exponent < |digits| {
      SplitReads(digits, -n.exponent);
    } else {
      FractionReads(digits, -n.exponent);
    }
  }

  /** `Decimal(text)` of a plain number with an optional sign. */
  predicate IsPlain(s: string) {
    IsUnsigned(if s != "" && s[0] == '-' then s[1..] else s)
  }

  function Parse(s: string): Number
    requires IsPlain(s)
  {
    if s != "" && s[0] == '-' then Read(s[1..]).(negative := true) else Read(s)
  }

  lemma TextReads(m: Number)
    requires m.coefficient > 0
    ensures var s := (if m.negative then "-" else "") + Fixed(m);
      IsPlain(s) && SameNumber(Parse(s), m)
  {
    hide Fixed;
    hide Read;
    hide IsUnsigned;
    var s := (if m.negative then "-" else "") + Fixed(m);
    FixedReads(m);
    if m.negative {
      assert s[1..] == Fixed(m);
    } else {
      assert s == Fixed(m);
    }
  }

  lemma ZeroReads()
    ensures IsPlain("0") && Parse("0") == Number(false, 0, 0)
  {
    PointIs("0", 1);
    assert "0"[..1] == "0" && "0"[..0] == "";
  }

  /** Reading a canonical decimal gives back the number exactly when it has at most 28
      significant digits. */
  lemma ParseInvertsCanonicalIff(n: Number)
    ensures IsPlain(Canonical(n)) && (SameNumber(Parse(Canonical(n)), n) <==> Fits(n))
  {
    if n.coefficient == 0 {
      ZeroReads();
    } else {
      TextReads(Normalized(n));
      NormalizedIff(n);
      ThroughText(n, Normalized(n), Parse(Canonical(n)));
    }
  }

  lemma ThroughText(n: Number, m: Number, p: Number)
    requires SameNumber(p, m)
    ensures SameNumber(p, n) <==> SameNumber(n, m)
  {
    hide SameNumber;
    if SameNumber(n, m) {
      SameBack(n, m);
      SameIsTransitive(p, m, n);
    }
    if SameNumber(p, n) {
      SameBack(p, n);
      SameIsTransitive(n, p, m);
    }
  }

  lemma SameBack(a: Number, b: Number)
    requires SameNumber(a, b)
    ensures SameNumber(b, a)
  {
    SelfSame(b);
    SameIsTransitive(a, b, b);
  }

  /** Canonical: within 28 significant digits, equal numbers and only they give equal strings. */
  lemma CanonicalIff(a: Number, b: Number)
    requires Fits(a) && Fits(b)
    ensures Canonical(a) == Canonical(b) <==> SameNumber(a, b)
  {
    if SameNumber(a, b) && a.coefficient != 0 {
      StripKeepsNumber(a);
      StripKeepsNumber(b);
      SameBack(a, Strip(a));
      SameIsTransitive(Strip(a), a, b);
      SameIsTransitive(Strip(a), b, Strip(b));
      StrippedIsUnique(Strip(a), Strip(b));
    }
    if Canonical(a) == Canonical(b) {
      ParseInvertsCanonicalIff(a);
      ParseInvertsCanonicalIff(b);
      SameBack(Parse(Canonical(a)), a);
      SameIsTransitive(a, Parse(Canonical(a)), b);
    }
  }

  /** Beyond the precision different integers share one encoding. */
  lemma LongIntegersCollide(c: nat)
    requires c == Pow10(PRECISION - 1)
    ensures var a, b := Number(false, 10 * c + 1, 0), Number(false, 10 * c + 2, 0);
      !SameNumber(a, b) && Canonical(a) == Canonical(b)
  {
    hide Normalized;
    LongTail(c, 1);
    LongTail(c, 2);
    SameExponent(Number(false, 10 * c + 1, 0), Number(false, 10 * c + 2, 0));
  }

  lemma SameExponent(a: Number, b: Number)
    requires a.exponent == b.exponent && a.coefficient != b.coefficient
    ensures !SameNumber(a, b)
  {
    assert Scaled(b.coefficient, 0) == b.coefficient;
  }

  lemma LongTailLeads(c: nat, tail: nat)
    requires c == Pow10(PRECISION - 1) && 0 < tail < 5
    ensures Pow10(PRECISION) == 10 * c <= 10 * c + tail
    ensures Leading(10 * c + tail) == c && Excess(10 * c + tail) == 1
  {
    var n := 10 * c + tail;
    assert Pow10(PRECISION) == 10 * c && n / 10 == c;
    assert Leading(c) == c && Excess(c) == 0;
  }

  lemma LongTailRounds(c: nat, tail: nat)
    requires c == Pow10(PRECISION - 1) && 0 < tail < 5
    ensures Rounded(Number(false, 10 * c + tail, 0)) == Number(false, c, 1)
  {
    hide Leading;
    hide Excess;
    LongTailLeads(c, tail);
    assert Pow10(1) == 10 * Pow10(0) == 10;
    assert Scaled(c, 1) == 10 * c;
  }

  lemma LongTail(c: nat, tail: nat)
    requires c == Pow10(PRECISION - 1) && 0 < tail < 5
    ensures var a := Number(false, 10 * c + tail, 0);
      Strip(a) == a && Normalized(a) == Strip(Number(false, c, 1))
  {
    hide Rounded;
    LongTailLeads(c, tail);
    LongTailRounds(c, tail);
    assert (10 * c + tail) % 10 == tail;
  }
}
