/** Rounding to cents over exact reals: the current half-up rule, the earlier floor rule, and how far a
    rounded commission can be off. */
module Rounding {

  function Abs(x: real): real { if x >= 0.0 then x else -x }

  /** The nearest integer, ties away from zero (decimal ROUND_HALF_UP). */
  function HalfUp(x: real): int {
    if x >= 0.0 then (x + 0.5).Floor else -((0.5 - x).Floor)
  }

  function Cents(k: int): real { k as real / 100.0 }

  /** `money`: quantize to cents. */
  function Money(v: real): real { Cents(HalfUp(v * 100.0)) }

  /** The earlier engine's `round2`. */
  function Round2(x: real): real { Cents((x * 100.0 + 0.5).Floor) }

  lemma HalfUpIsClose(x: real)
    ensures x - 0.5 <= HalfUp(x) as real <= x + 0.5
  {
  }

  /** `money` is within half a cent of its argument, and no other number of cents is closer. */
  lemma MoneyIsNearest(v: real, k: int)
    ensures Abs(Money(v) - v) <= 0.005
    ensures Abs(Money(v) - v) <= Abs(Cents(k) - v)
  {
    HalfUpIsClose(v * 100.0);
    var m := HalfUp(v * 100.0);
    assert Cents(m) - v == (m as real - v * 100.0) / 100.0;
    assert Cents(k) - v == (k as real - v * 100.0) / 100.0;
    if k != m {
      assert k <= m - 1 || k >= m + 1;
    }
  }

  /** Ties go away from zero: half a cent up for positive amounts, down for negative ones. */
  lemma TiesGoAway(k: nat)
    ensures Money(Cents(k) + 0.005) == Cents(k + 1)
    ensures Money(-(Cents(k) + 0.005)) == -Cents(k + 1)
  {
    var x := k as real + 0.5;
    assert (Cents(k) + 0.005) * 100.0 == x;
    assert -(Cents(k) + 0.005) * 100.0 == -x;
    assert (x + 0.5).Floor == k + 1;
  }

  lemma MoneyIsMonotone(a: real, b: real)
    requires a <= b
    ensures Money(a) <= Money(b)
  {
    HalfUpIsMonotone(a * 100.0, b * 100.0);
  }

  lemma HalfUpIsMonotone(x: real, y: real)
    requires x <= y
    ensures HalfUp(x) <= HalfUp(y)
  {
    FloorIsMonotone(x + 0.5, y + 0.5);
    FloorIsMonotone(0.5 - y, 0.5 - x);
  }

  lemma FloorIsMonotone(x: real, y: real)
    requires x <= y
    ensures x.Floor <= y.Floor
  {
  }

  /** Rounding a rounded amount changes nothing, and whole cents are left alone. */
  lemma MoneyIsIdempotent(v: real, k: int)
    ensures Money(Cents(k)) == Cents(k)
    ensures Money(Money(v)) == Money(v)
  {
    WholeCents(k);
    WholeCents(HalfUp(v * 100.0));
  }

  lemma WholeCents(k: int)
    ensures Money(Cents(k)) == Cents(k)
  {
    assert Cents(k) * 100.0 == k as real;
    assert (k as real + 0.5).Floor == k;
    assert (0.5 - k as real).Floor == -k;
  }

  /** The amount is a negative odd number of half cents. */
  predicate NegativeTie(v: real) {
    v < 0.0 && (v * 100.0 + 0.5).Floor as real == v * 100.0 + 0.5
  }

  /** Both engines round alike if and only if the amount is not a negative tie. */
  lemma EnginesRoundAlike(v: real)
    ensures Money(v) == Round2(v) <==> !NegativeTie(v)
  {
    var x := v * 100.0;
    var f := (x + 0.5).Floor;
    if v < 0.0 {
      assert x < 0.0;
      if f as real == x + 0.5 {
        assert (0.5 - x).Floor == 1 - f;
      } else {
        assert (0.5 - x).Floor == -f;
      }
    } else {
      assert x >= 0.0;
    }
    CentsDiffer(HalfUp(x), f);
  }

  lemma CentsDiffer(a: int, b: int)
    ensures Cents(a) == Cents(b) <==> a == b
  {
  }

  // ---- dues and commission ----

  /** Dues, dollar and naira commission before any rounding. */
  function ExactDues(nrt: real, rate: real): real { nrt * rate }
  function ExactUsd(dues: real, percent: real): real { dues * percent / 100.0 }
  function ExactNaira(dues: real, percent: real, fx: real): real { ExactUsd(dues, percent) * fx }

  function Dues(nrt: real, rate: real): real { Money(ExactDues(nrt, rate)) }

  /** The earlier `calc_dues`: nothing without a positive rate. */
  function LegacyDues(nrt: real, rate: real): real {
    if rate <= 0.0 then 0.0 else Round2(ExactDues(nrt, rate))
  }

  function CommissionUsd(dues: real, percent: real): real { Money(ExactUsd(dues, percent)) }

  function LegacyCommissionUsd(dues: real, percent: real): real { Round2(dues * (percent / 100.0)) }

  function CommissionNgn(usd: real, fx: real): real { Money(usd * fx) }

  /** For any tonnage both engines issue the same dues unless a negative rate would make them owe half
      a cent or more. */
  lemma EnginesIssueSameDues(nrt: real, rate: real)
    requires nrt >= 0.0
    ensures Dues(nrt, rate) == LegacyDues(nrt, rate) <==> rate >= 0.0 || ExactDues(nrt, rate) > -0.005
  {
    SignOfDues(nrt, rate);
    hide ExactDues, Money, Round2;
    if rate > 0.0 {
      EnginesRoundAlike(ExactDues(nrt, rate));
    } else {
      RoundsToZero(ExactDues(nrt, rate));
    }
  }

  lemma SignOfDues(nrt: real, rate: real)
    requires nrt >= 0.0
    ensures rate >= 0.0 ==> ExactDues(nrt, rate) >= 0.0
    ensures rate <= 0.0 ==> ExactDues(nrt, rate) <= 0.0
  {
    if rate >= 0.0 { NonNegativeProduct(nrt, rate); }
    if rate <= 0.0 { NonNegativeProduct(nrt, -rate); }
  }

  lemma NonNegativeProduct(a: real, b: real)
    requires a >= 0.0 && b >= 0.0
    ensures a * b >= 0.0
  {
  }

  lemma RoundsToZero(v: real)
    requires v <= 0.0
    ensures Money(v) == 0.0 <==> v > -0.005
  {
    var x := v * 100.0;
    CentsDiffer(HalfUp(x), 0);
    assert Cents(0) == 0.0;
    assert v > -0.005 <==> 0.5 - x < 1.0;
    if 0.5 - x < 1.0 {
      assert HalfUp(x) == 0;
    } else {
      FloorIsMonotone(1.0, 0.5 - x);
    }
  }

  /** And the same commission on dues that are not negative. */
  lemma EnginesIssueSameCommission(dues: real, percent: real)
    requires dues >= 0.0 && percent >= 0.0
    ensures CommissionUsd(dues, percent) == LegacyCommissionUsd(dues, percent)
  {
    ShareIsExact(dues, percent);
    hide ExactUsd, Money, Round2;
    EnginesRoundAlike(ExactUsd(dues, percent));
  }

  lemma ShareIsExact(dues: real, percent: real)
    requires dues >= 0.0 && percent >= 0.0
    ensures dues * (percent / 100.0) == ExactUsd(dues, percent) >= 0.0
  {
    NonNegativeProduct(dues, percent);
  }

  lemma ScaledError(a: real, b: real, e: real, fx: real)
    requires fx >= 0.0 && Abs(a - b) <= e
    ensures Abs(a * fx - b * fx) <= e * fx
  {
    NonNegativeProduct(e - (a - b), fx);
    NonNegativeProduct(e + (a - b), fx);
    assert (e - (a - b)) * fx == e * fx - (a * fx - b * fx);
    assert (e + (a - b)) * fx == e * fx + (a * fx - b * fx);
  }

  lemma Triangle(x: real, y: real, z: real, e: real, f: real)
    requires Abs(x - y) <= e && Abs(y - z) <= f
    ensures Abs(x - z) <= e + f
  {
  }

  lemma TwiceRounded(exact: real, usd: real, ngn: real, fx: real)
    requires fx >= 0.0 && Abs(usd - exact) <= 0.005 && Abs(ngn - usd * fx) <= 0.005
    ensures Abs(ngn - exact * fx) <= 0.005 + 0.005 * fx
  {
    hide Abs;
    ScaledError(usd, exact, 0.005, fx);
    Triangle(ngn, usd * fx, exact * fx, 0.005, 0.005 * fx);
  }

  lemma CommissionIsClose(dues: real, percent: real)
    ensures Abs(CommissionUsd(dues, percent) - ExactUsd(dues, percent)) <= 0.005
  {
    MoneyIsNearest(ExactUsd(dues, percent), 0);
  }

  lemma NairaIsClose(usd: real, fx: real)
    ensures Abs(CommissionNgn(usd, fx) - usd * fx) <= 0.005
  {
    MoneyIsNearest(usd * fx, 0);
  }

  /** The naira commission, rounded twice, is within half a kobo plus half a cent at the exchange rate
      of the exact amount. */
  lemma NairaError(dues: real, percent: real, fx: real)
    requires fx >= 0.0
    ensures Abs(CommissionNgn(CommissionUsd(dues, percent), fx) - ExactNaira(dues, percent, fx)) <= 0.005 + 0.005 * fx
  {
    hide ExactUsd, CommissionUsd, CommissionNgn, Abs;
    CommissionIsClose(dues, percent);
    NairaIsClose(CommissionUsd(dues, percent), fx);
    TwiceRounded(ExactUsd(dues, percent), CommissionUsd(dues, percent),
                 CommissionNgn(CommissionUsd(dues, percent), fx), fx);
  }
}
