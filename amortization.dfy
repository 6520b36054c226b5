/**
 * The amortisation mathematics behind the EMI formula, over exact reals.
 *
 * Emi(p, r, n) is the closed form p·r·x/(x − 1) with x = (1 + r)^n. Balance gives the
 * outstanding amount of a loan month by month, and AnnuityFactor is the present value
 * of n unit payments. These two give the formula its meaning: Emi is the one level
 * monthly payment that leaves a zero balance after n months, namely p divided by the
 * annuity factor. Positivity and the monotonicity laws follow from that.
 */
module Amortization {

  function Pow(b: real, n: nat): real {
    if n == 0 then 1.0 else b * Pow(b, n - 1)
  }

  lemma {:induction false} PowPositive(b: real, n: nat)
    requires b > 0.0
    ensures Pow(b, n) > 0.0
  {
    if n > 0 {
      PowPositive(b, n - 1);
    }
  }

  lemma {:induction false} PowOfOne(n: nat)
    ensures Pow(1.0, n) == 1.0
  {
    if n > 0 {
      PowOfOne(n - 1);
    }
  }

  lemma {:induction false} PowAboveOne(b: real, n: nat)
    requires b > 1.0 && n >= 1
    ensures Pow(b, n) > 1.0
  {
    if n > 1 {
      PowAboveOne(b, n - 1);
      assert b * Pow(b, n - 1) > 1.0 * Pow(b, n - 1);
    }
  }

  lemma {:induction false} PowBelowOne(b: real, n: nat)
    requires 0.0 < b < 1.0 && n >= 1
    ensures Pow(b, n) < 1.0
  {
    if n > 1 {
      PowBelowOne(b, n - 1);
      PowPositive(b, n - 1);
      assert b * Pow(b, n - 1) < 1.0 * Pow(b, n - 1);
    }
  }

  /** For a positive base and a positive exponent, the power is 1 only when the base is. */
  lemma PowIsOneOnlyAtOne(b: real, n: nat)
    requires b > 0.0 && n >= 1
    ensures Pow(b, n) == 1.0 <==> b == 1.0
  {
    if b > 1.0 {
      PowAboveOne(b, n);
    } else if b < 1.0 {
      PowBelowOne(b, n);
    } else {
      PowOfOne(n);
    }
  }

  lemma {:induction false} PowBaseStrictlyIncreasing(a: real, b: real, n: nat)
    requires 0.0 < a < b && n >= 1
    ensures Pow(a, n) < Pow(b, n)
  {
    if n > 1 {
      var pa, pb := Pow(a, n - 1), Pow(b, n - 1);
      PowBaseStrictlyIncreasing(a, b, n - 1);
      PowPositive(a, n - 1);
      assert Pow(a, n) == a * pa && Pow(b, n) == b * pb;
      assert a * pa < b * pa;
      assert b * pa < b * pb;
    }
  }

  /** The amortisation formula P·r·x/(x − 1) with x = (1 + r)^n. */
  function Emi(p: real, r: real, n: nat): real
    requires Pow(1.0 + r, n) != 1.0
  {
    var x := Pow(1.0 + r, n);
    p * r * x / (x - 1.0)
  }

  /** Amount still owed after k months: each month interest at rate r accrues, then e is paid. */
  function Balance(p: real, r: real, e: real, k: nat): real {
    if k == 0 then p else Balance(p, r, e, k - 1) * (1.0 + r) - e
  }

  /** Present value, at rate r, of a payment of 1 at the end of each of months 1..n. */
  function AnnuityFactor(r: real, n: nat): real
    requires r > -1.0
  {
    if n == 0 then 0.0
    else
      PowPositive(1.0 + r, n);
      AnnuityFactor(r, n - 1) + 1.0 / Pow(1.0 + r, n)
  }

  lemma {:induction false} AnnuityFactorPositive(r: real, n: nat)
    requires r > -1.0 && n >= 1
    ensures AnnuityFactor(r, n) > 0.0
  {
    PowPositive(1.0 + r, n);
    if n > 1 {
      AnnuityFactorPositive(r, n - 1);
    }
  }

  /** At zero interest the present value of n unit payments is n. */
  lemma {:induction false} AnnuityFactorAtZero(n: nat)
    ensures AnnuityFactor(0.0, n) == n as real
  {
    if n > 0 {
      PowOfOne(n);
      AnnuityFactorAtZero(n - 1);
    }
  }

  /** Value at month n of a payment of 1 at the end of each of months 1..n: 1 + (1+r) + ... + (1+r)^(n-1). */
  function AccumulationFactor(r: real, n: nat): real {
    if n == 0 then 0.0 else AccumulationFactor(r, n - 1) * (1.0 + r) + 1.0
  }

  /** S·r = x − 1: the geometric-series sum of the accumulation factor. */
  lemma {:induction false} AccumulationFactorClosedForm(r: real, n: nat)
    ensures AccumulationFactor(r, n) * r == Pow(1.0 + r, n) - 1.0
  {
    if n > 0 {
      AccumulationFactorClosedForm(r, n - 1);
      var s' := AccumulationFactor(r, n - 1);
      var x' := Pow(1.0 + r, n - 1);
      assert s' * r == x' - 1.0;
      calc {
        AccumulationFactor(r, n) * r;
        (s' * (1.0 + r) + 1.0) * r;
        (s' * r) * (1.0 + r) + r;
        (x' - 1.0) * (1.0 + r) + r;
        (1.0 + r) * x' - 1.0;
      }
    }
  }

  /** Discounting the accumulation factor n months gives the annuity factor: A·x = S. */
  lemma {:induction false} AnnuityTimesGrowth(r: real, n: nat)
    requires r > -1.0
    ensures AnnuityFactor(r, n) * Pow(1.0 + r, n) == AccumulationFactor(r, n)
  {
    if n > 0 {
      AnnuityTimesGrowth(r, n - 1);
      AnnuityTimesGrowthStep(r, n);
    }
  }

  /** One month of AnnuityTimesGrowth. */
  lemma AnnuityTimesGrowthStep(r: real, n: nat)
    requires r > -1.0 && n >= 1
    requires AnnuityFactor(r, n - 1) * Pow(1.0 + r, n - 1) == AccumulationFactor(r, n - 1)
    ensures AnnuityFactor(r, n) * Pow(1.0 + r, n) == AccumulationFactor(r, n)
  {
    PowPositive(1.0 + r, n);
    var a', x', s' := AnnuityFactor(r, n - 1), Pow(1.0 + r, n - 1), AccumulationFactor(r, n - 1);
    var x := Pow(1.0 + r, n);
    assert x == (1.0 + r) * x';
    assert AnnuityFactor(r, n) == a' + 1.0 / x;
    assert AccumulationFactor(r, n) == s' * (1.0 + r) + 1.0;
    GrowthStep(a', x', x, r);
  }

  /** One month of AnnuityTimesGrowth, as plain arithmetic. */
  lemma GrowthStep(a': real, x': real, x: real, r: real)
    requires x == (1.0 + r) * x' && x > 0.0
    ensures (a' + 1.0 / x) * x == (a' * x') * (1.0 + r) + 1.0
  {
    assert (1.0 / x) * x == 1.0;
  }

  /** The balance after n months: the principal grown n months, less the payments grown to month n. */
  lemma {:induction false} BalanceClosedForm(p: real, r: real, e: real, n: nat)
    ensures Balance(p, r, e, n) == p * Pow(1.0 + r, n) - e * AccumulationFactor(r, n)
  {
    if n > 0 {
      BalanceClosedForm(p, r, e, n - 1);
      BalanceStep(p, r, e, n);
    }
  }

  /** One month of BalanceClosedForm. */
  lemma BalanceStep(p: real, r: real, e: real, n: nat)
    requires n >= 1
    requires Balance(p, r, e, n - 1) == p * Pow(1.0 + r, n - 1) - e * AccumulationFactor(r, n - 1)
    ensures Balance(p, r, e, n) == p * Pow(1.0 + r, n) - e * AccumulationFactor(r, n)
  {
    var b', x', s' := Balance(p, r, e, n - 1), Pow(1.0 + r, n - 1), AccumulationFactor(r, n - 1);
    assert Balance(p, r, e, n) == b' * (1.0 + r) - e;
    assert Pow(1.0 + r, n) == (1.0 + r) * x';
    assert AccumulationFactor(r, n) == s' * (1.0 + r) + 1.0;
    Rearrange(p, r, e, b', x', s');
  }

  lemma Rearrange(p: real, r: real, e: real, b': real, x': real, s': real)
    requires b' == p * x' - e * s'
    ensures b' * (1.0 + r) - e == p * ((1.0 + r) * x') - e * (s' * (1.0 + r) + 1.0)
  {
  }

  /** A level payment e clears the loan in n months exactly when the discounted payments equal the principal. */
  lemma ClearsIff(p: real, r: real, e: real, n: nat)
    requires r > -1.0
    ensures Balance(p, r, e, n) == 0.0 <==> e * AnnuityFactor(r, n) == p
  {
    var a, x, b, s := AnnuityFactor(r, n), Pow(1.0 + r, n), Balance(p, r, e, n), AccumulationFactor(r, n);
    BalanceClosedForm(p, r, e, n);
    AnnuityTimesGrowth(r, n);
    PowPositive(1.0 + r, n);
    FactorOutGrowth(p, e, a, x, b, s);
  }

  /** With s = a·x and x > 0: b = p·x − e·s vanishes exactly when e·a = p. */
  lemma FactorOutGrowth(p: real, e: real, a: real, x: real, b: real, s: real)
    requires x > 0.0 && s == a * x && b == p * x - e * s
    ensures b == 0.0 <==> e * a == p
  {
    assert b == (p - e * a) * x;
  }

  lemma {:induction false} PowOfNegated(b: real, n: nat)
    ensures Pow(-b, n) == if n % 2 == 0 then Pow(b, n) else -Pow(b, n)
  {
    if n > 0 {
      PowOfNegated(b, n - 1);
    }
  }

  lemma PowOfZero(n: nat)
    requires n >= 1
    ensures Pow(0.0, n) == 0.0
  {
  }

  /**
   * The formula's denominator (1 + r)^n - 1 vanishes only at r = 0, or at r = -2 with an
   * even number of months: for every rate above -100% other than zero the formula is defined.
   */
  lemma DenominatorZeroIff(r: real, n: nat)
    requires n >= 1
    ensures Pow(1.0 + r, n) == 1.0 <==> r == 0.0 || (r == -2.0 && n % 2 == 0)
  {
    var b := 1.0 + r;
    if b > 0.0 {
      PowIsOneOnlyAtOne(b, n);
    } else if b == 0.0 {
      PowOfZero(n);
    } else {
      PowOfNegated(-b, n);
      assert -(-b) == b;
      PowPositive(-b, n);
      PowIsOneOnlyAtOne(-b, n);
    }
  }

  lemma FormulaDefined(r: real, n: nat)
    requires r > -1.0 && r != 0.0 && n >= 1
    ensures Pow(1.0 + r, n) != 1.0
  {
    DenominatorZeroIff(r, n);
  }

  /** The formula's payments, grown to month n, equal the principal grown to month n. */
  lemma EmiTimesAccumulation(p: real, r: real, n: nat)
    requires Pow(1.0 + r, n) != 1.0
    ensures Emi(p, r, n) * AccumulationFactor(r, n) == p * Pow(1.0 + r, n)
  {
    var x := Pow(1.0 + r, n);
    var s := AccumulationFactor(r, n);
    AccumulationFactorClosedForm(r, n);
    assert s * r == x - 1.0;
    var d := x - 1.0;
    var q := Emi(p, r, n);
    assert q * d == p * r * x;
    calc {
      (q * s) * d;
      (q * d) * s;
      (p * x) * (s * r);
      (p * x) * d;
    }
    CancelNonZero(q * s, p * x, d);
  }

  lemma CancelNonZero(u: real, v: real, d: real)
    requires d != 0.0 && u * d == v * d
    ensures u == v
  {
    assert (u - v) * d == 0.0;
  }

  /** Wherever the formula is defined, Emi is the one level payment that leaves nothing owed after n months. */
  lemma EmiIsTheClearingPayment(p: real, r: real, n: nat, e: real)
    requires Pow(1.0 + r, n) != 1.0
    ensures Balance(p, r, e, n) == 0.0 <==> e == Emi(p, r, n)
  {
    var s, q := AccumulationFactor(r, n), Emi(p, r, n);
    EmiTimesAccumulation(p, r, n);
    BalanceClosedForm(p, r, e, n);
    AccumulationFactorClosedForm(r, n);
    assert s != 0.0;
    if e * s == q * s {
      CancelNonZero(e, q, s);
    }
  }

  /** Same at zero interest: the flat payment p / n is the one that clears the loan. */
  lemma FlatIsTheClearingPayment(p: real, n: nat, e: real)
    requires n >= 1
    ensures Balance(p, 0.0, e, n) == 0.0 <==> e == p / n as real
  {
    ClearsIff(p, 0.0, e, n);
    AnnuityFactorAtZero(n);
  }

  /** The payment that clears principal p in n months at rate r. */
  function LevelPayment(p: real, r: real, n: nat): real
    requires r > -1.0 && n >= 1
  {
    AnnuityFactorPositive(r, n);
    p / AnnuityFactor(r, n)
  }

  lemma LevelPaymentClears(p: real, r: real, n: nat, e: real)
    requires r > -1.0 && n >= 1
    ensures Balance(p, r, e, n) == 0.0 <==> e == LevelPayment(p, r, n)
  {
    ClearsIff(p, r, e, n);
    AnnuityFactorPositive(r, n);
  }

  lemma {:induction false} AnnuityFactorIncreasesWithTenure(r: real, m: nat, n: nat)
    requires r > -1.0 && m < n
    ensures AnnuityFactor(r, m) < AnnuityFactor(r, n)
  {
    PowPositive(1.0 + r, n);
    if m < n - 1 {
      AnnuityFactorIncreasesWithTenure(r, m, n - 1);
    }
  }

  lemma {:induction false} AnnuityFactorDecreasesWithRate(r: real, s: real, n: nat)
    requires -1.0 < r < s && n >= 1
    ensures AnnuityFactor(s, n) < AnnuityFactor(r, n)
  {
    var xr, xs := Pow(1.0 + r, n), Pow(1.0 + s, n);
    PowBaseStrictlyIncreasing(1.0 + r, 1.0 + s, n);
    PowPositive(1.0 + r, n);
    assert 1.0 / xs < 1.0 / xr;
    if n > 1 {
      AnnuityFactorDecreasesWithRate(r, s, n - 1);
    }
  }

  lemma DivideByLarger(p: real, a: real, b: real)
    requires p > 0.0 && 0.0 < a < b
    ensures p / b < p / a
  {
  }

  lemma LevelPaymentPositive(p: real, r: real, n: nat)
    requires p > 0.0 && r > -1.0 && n >= 1
    ensures LevelPayment(p, r, n) > 0.0
  {
    AnnuityFactorPositive(r, n);
  }

  lemma LevelPaymentIncreasesWithPrincipal(p: real, q: real, r: real, n: nat)
    requires p < q && r > -1.0 && n >= 1
    ensures LevelPayment(p, r, n) < LevelPayment(q, r, n)
  {
    AnnuityFactorPositive(r, n);
  }

  lemma LevelPaymentIncreasesWithRate(p: real, r: real, s: real, n: nat)
    requires p > 0.0 && -1.0 < r < s && n >= 1
    ensures LevelPayment(p, r, n) < LevelPayment(p, s, n)
  {
    AnnuityFactorDecreasesWithRate(r, s, n);
    AnnuityFactorPositive(s, n);
    DivideByLarger(p, AnnuityFactor(s, n), AnnuityFactor(r, n));
  }

  lemma LevelPaymentDecreasesWithTenure(p: real, r: real, m: nat, n: nat)
    requires p > 0.0 && r > -1.0 && 1 <= m < n
    ensures LevelPayment(p, r, n) < LevelPayment(p, r, m)
  {
    AnnuityFactorIncreasesWithTenure(r, m, n);
    AnnuityFactorPositive(r, m);
    DivideByLarger(p, AnnuityFactor(r, m), AnnuityFactor(r, n));
  }

  // Worked examples, evaluated exactly: the power is unfolded month by month.

  /** 100000 at 1% a month over 12 months: the documented 8884.88. */
  lemma EmiAtOnePercentForAYear()
    ensures Pow(1.0 + 0.01, 12) != 1.0
    ensures 8884.875 < Emi(100000.0, 0.01, 12) < 8884.885
  {
    assert Pow(1.01, 1) == 1.01;
    assert Pow(1.01, 2) == 1.0201;
    assert Pow(1.01, 3) == 1.030301;
    assert Pow(1.01, 4) == 1.04060401;
    assert Pow(1.01, 5) == 1.0510100501;
    assert Pow(1.01, 6) == 1.061520150601;
    assert Pow(1.01, 7) == 1.07213535210701;
    assert Pow(1.01, 8) == 1.0828567056280801;
    assert Pow(1.01, 9) == 1.093685272684360901;
    assert Pow(1.01, 10) == 1.10462212541120451001;
    assert Pow(1.01, 11) == 1.1156683466653165551101;
    assert Pow(1.01, 12) == 1.126825030131969720661201;
  }

  /** 100000 at 12% a month over 12 months: more than 16000, far from 8884.88. */
  lemma EmiAtTwelvePercentForAYear()
    ensures Pow(1.0 + 0.12, 12) != 1.0
    ensures 16143.0 < Emi(100000.0, 0.12, 12) < 16144.0
  {
    assert Pow(1.12, 1) == 1.12;
    assert Pow(1.12, 2) == 1.2544;
    assert Pow(1.12, 3) == 1.404928;
    assert Pow(1.12, 4) == 1.57351936;
    assert Pow(1.12, 5) == 1.7623416832;
    assert Pow(1.12, 6) == 1.973822685184;
    assert Pow(1.12, 7) == 2.21068140740608;
    assert Pow(1.12, 8) == 2.4759631762948096;
    assert Pow(1.12, 9) == 2.773078757450186752;
    assert Pow(1.12, 10) == 3.10584820834420916224;
    assert Pow(1.12, 11) == 3.4785499933455142617088;
    assert Pow(1.12, 12) == 3.895975992546975973113856;
  }

  /** 10000 at 20/12% a month over 12 months: the regression value 926.35. */
  lemma EmiAtOneSixtiethForAYear()
    ensures Pow(1.0 + 1.0 / 60.0, 12) != 1.0
    ensures 926.345 < Emi(10000.0, 1.0 / 60.0, 12) < 926.355
  {
    assert Pow(1.0 + 1.0 / 60.0, 1) == 61.0 / 60.0;
    assert Pow(1.0 + 1.0 / 60.0, 2) == 3721.0 / 3600.0;
    assert Pow(1.0 + 1.0 / 60.0, 3) == 226981.0 / 216000.0;
    assert Pow(1.0 + 1.0 / 60.0, 4) == 13845841.0 / 12960000.0;
    assert Pow(1.0 + 1.0 / 60.0, 5) == 844596301.0 / 777600000.0;
    assert Pow(1.0 + 1.0 / 60.0, 6) == 51520374361.0 / 46656000000.0;
    assert Pow(1.0 + 1.0 / 60.0, 7) == 3142742836021.0 / 2799360000000.0;
    assert Pow(1.0 + 1.0 / 60.0, 8) == 191707312997281.0 / 167961600000000.0;
    assert Pow(1.0 + 1.0 / 60.0, 9) == 11694146092834141.0 / 10077696000000000.0;
    assert Pow(1.0 + 1.0 / 60.0, 10) == 713342911662882601.0 / 604661760000000000.0;
    assert Pow(1.0 + 1.0 / 60.0, 11) == 43513917611435838661.0 / 36279705600000000000.0;
    assert Pow(1.0 + 1.0 / 60.0, 12) == 2654348974297586158321.0 / 2176782336000000000000.0;
  }
}
