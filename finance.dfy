/** The finance calculator (backend/src/utils/finance.js, repeated verbatim in
    frontend/app.js): the interest-rate policy and the amortising monthly
    instalment. JavaScript doubles are modelled by exact reals. */
module Finance {

  /** `calcInterestRate`: the annual rate for a purpose and a tenure. The
      purpose is looked at first; only non-business loans are banded by
      tenure. */
  function CalcInterestRate(tenureMonths: int, purpose: string): (rate: real)
    ensures rate == 0.125 || rate == 0.145 || rate == 0.155 || rate == 0.165
    ensures 0.125 <= rate <= 0.165
  {
    if purpose == "business" then 0.155
    else if tenureMonths <= 12 then 0.125
    else if tenureMonths <= 24 then 0.145
    else 0.165
  }

  /** The rate table: business loans at 15.5% whatever the tenure; other
      loans at 12.5% up to a year, 14.5% up to two years, 16.5% beyond. */
  lemma RateTable(tenureMonths: int, purpose: string)
    ensures purpose == "business" ==> CalcInterestRate(tenureMonths, purpose) == 0.155
    ensures purpose != "business" && tenureMonths <= 12 ==> CalcInterestRate(tenureMonths, purpose) == 0.125
    ensures purpose != "business" && 12 < tenureMonths <= 24 ==> CalcInterestRate(tenureMonths, purpose) == 0.145
    ensures purpose != "business" && 24 < tenureMonths ==> CalcInterestRate(tenureMonths, purpose) == 0.165
  {
  }

  /** A longer tenure never lowers the rate of a given purpose. */
  lemma RateMonotoneInTenure(t1: int, t2: int, purpose: string)
    requires t1 <= t2
    ensures CalcInterestRate(t1, purpose) <= CalcInterestRate(t2, purpose)
  {
  }

  /** `x` to the power `n`: `Math.pow` at a whole exponent. */
  function Pow(x: real, n: nat): real
  {
    if n == 0 then 1.0 else x * Pow(x, n - 1)
  }

  lemma {:induction false} PowAtLeastOne(x: real, n: nat)
    requires x >= 1.0
    ensures Pow(x, n) >= 1.0
  {
    if n > 0 {
      PowAtLeastOne(x, n - 1);
      assert x * Pow(x, n - 1) >= Pow(x, n - 1);
    }
  }

  /** Bernoulli's inequality: compound growth is at least simple growth. */
  lemma {:induction false} Bernoulli(r: real, n: nat)
    requires r >= 0.0
    ensures Pow(1.0 + r, n) >= 1.0 + n as real * r
  {
    if n > 0 {
      Bernoulli(r, n - 1);
      var p := Pow(1.0 + r, n - 1);
      assert p >= 1.0 + (n - 1) as real * r;
      calc {
        Pow(1.0 + r, n);
      ==
        (1.0 + r) * p;
      ==
        p + r * p;
      >=  { PowAtLeastOne(1.0 + r, n - 1); assert r * p >= r; }
        p + r;
      >=
        1.0 + n as real * r;
      }
    }
  }

  /** `x^n - 1 <= n (x - 1) x^n` for `x >= 1`. */
  lemma {:induction false} PowGapBound(x: real, n: nat)
    requires x >= 1.0
    ensures Pow(x, n) - 1.0 <= n as real * (x - 1.0) * Pow(x, n)
  {
    if n > 0 {
      PowGapBound(x, n - 1);
      var p := Pow(x, n - 1);
      PowAtLeastOne(x, n - 1);
      var m := (n - 1) as real;
      assert p - 1.0 <= m * (x - 1.0) * p;
      calc {
        Pow(x, n) - 1.0;
      ==
        x * (p - 1.0) + (x - 1.0);
      <=  { assert x * (p - 1.0) <= x * (m * (x - 1.0) * p); }
        m * (x - 1.0) * (x * p) + (x - 1.0);
      <=  { assert x * p >= 1.0; assert (x - 1.0) <= (x - 1.0) * (x * p); }
        m * (x - 1.0) * (x * p) + (x - 1.0) * (x * p);
      ==
        n as real * (x - 1.0) * Pow(x, n);
      }
    }
  }

  /** `monthlyPayment`: the instalment that repays `principal` over `months`
      equal monthly payments at `annualRate / 12` a month. A tenure of zero
      or less gives 0; a zero rate gives a straight division. The callers
      pass a rate from `CalcInterestRate` (or zero, in the tests), so the
      rate is never negative. */
  function MonthlyPayment(principal: real, annualRate: real, months: int): (payment: real)
    requires annualRate >= 0.0
    ensures months <= 0 ==> payment == 0.0
    ensures months > 0 && annualRate == 0.0 ==> payment * months as real == principal
    ensures principal == 0.0 ==> payment == 0.0
  {
    if months <= 0 then 0.0
    else
      var r := annualRate / 12.0;
      if r == 0.0 then principal / months as real
      else
        Bernoulli(r, months);
        var numerator := principal * r * Pow(1.0 + r, months);
        var denominator := Pow(1.0 + r, months) - 1.0;
        assert principal == 0.0 ==> numerator / denominator == 0.0 by {
          DivTimes(numerator, denominator);
        }
        numerator / denominator
  }

  /** `Math.ceil`, through the floor: the least whole number not below `x`. */
  function Ceil(x: real): (n: int)
    ensures x <= n as real < x + 1.0
  {
    -((-x).Floor)
  }

  // -------------------------------------------------------------------------
  // The instalment repays the loan

  /** The balance still owed after `k` monthly payments of `payment`, with
      interest at the monthly rate `r` added before each payment. */
  function Balance(principal: real, r: real, payment: real, k: nat): real
  {
    if k == 0 then principal else Balance(principal, r, payment, k - 1) * (1.0 + r) - payment
  }

  /** The closed form of the balance times the monthly rate, at
      `q = (1 + r)^k` and `a = principal * r`. */
  function ClosedForm(a: real, payment: real, q: real): real
  {
    a * q - payment * (q - 1.0)
  }

  /** One month of the closed form: with `q = (1 + r) p`, the balance after
      one more payment keeps the shape. */
  lemma BalanceStep(b: real, next: real, r: real, payment: real, a: real, p: real, q: real)
    requires b * r == ClosedForm(a, payment, p)
    requires next == b * (1.0 + r) - payment
    requires q == (1.0 + r) * p
    ensures next * r == ClosedForm(a, payment, q)
  {
    assert next * r == (b * r) * (1.0 + r) - payment * r;
    assert (a * p - payment * (p - 1.0)) * (1.0 + r) == a * q - payment * ((p - 1.0) * (1.0 + r));
    assert (p - 1.0) * (1.0 + r) + r == q - 1.0;
  }

  lemma BalanceClosedFormStep(principal: real, r: real, payment: real, k: nat)
    requires k > 0
    requires Balance(principal, r, payment, k - 1) * r == ClosedForm(principal * r, payment, Pow(1.0 + r, k - 1))
    ensures Balance(principal, r, payment, k) * r == ClosedForm(principal * r, payment, Pow(1.0 + r, k))
  {
    BalanceStep(Balance(principal, r, payment, k - 1), Balance(principal, r, payment, k), r, payment,
                principal * r, Pow(1.0 + r, k - 1), Pow(1.0 + r, k));
  }

  lemma {:induction false} BalanceClosedForm(principal: real, r: real, payment: real, k: nat)
    ensures Balance(principal, r, payment, k) * r == ClosedForm(principal * r, payment, Pow(1.0 + r, k))
  {
    if k > 0 {
      BalanceClosedForm(principal, r, payment, k - 1);
      BalanceClosedFormStep(principal, r, payment, k);
    }
  }

  lemma {:induction false} BalanceWithoutInterest(principal: real, payment: real, k: nat)
    ensures Balance(principal, 0.0, payment, k) == principal - k as real * payment
  {
    if k > 0 {
      BalanceWithoutInterest(principal, payment, k - 1);
    }
  }

  /** Paying `MonthlyPayment` every month for the whole tenure leaves nothing
      owed: the instalment is the amortising one. */
  lemma AmortisationRepaysLoan(principal: real, annualRate: real, months: int)
    requires annualRate >= 0.0 && months > 0
    ensures Balance(principal, annualRate / 12.0, MonthlyPayment(principal, annualRate, months), months) == 0.0
  {
    var r := annualRate / 12.0;
    var payment := MonthlyPayment(principal, annualRate, months);
    if r == 0.0 {
      BalanceWithoutInterest(principal, payment, months);
    } else {
      var p := Pow(1.0 + r, months);
      Bernoulli(r, months);
      assert p - 1.0 > 0.0;
      assert payment == principal * r * p / (p - 1.0);
      assert payment * (p - 1.0) == principal * r * p;
      BalanceClosedForm(principal, r, payment, months);
      assert Balance(principal, r, payment, months) * r == 0.0;
    }
  }

  lemma DivTimes(x: real, d: real)
    requires d != 0.0
    ensures (x / d) * d == x
  {
  }

  lemma CancelPositive(a: real, b: real, d: real)
    requires d > 0.0 && a * d <= b * d
    ensures a <= b
  {
    assert a * d - b * d == (a - b) * d;
  }

  /** Interest never makes the instalment smaller than a straight division,
      and never adds more than one month's interest on the whole principal. */
  lemma PaymentBounds(principal: real, annualRate: real, months: int)
    requires principal >= 0.0 && annualRate >= 0.0 && months > 0
    ensures principal / months as real <= MonthlyPayment(principal, annualRate, months)
    ensures MonthlyPayment(principal, annualRate, months) <= principal / months as real + principal * (annualRate / 12.0)
  {
    var r := annualRate / 12.0;
    var n := months as real;
    var payment := MonthlyPayment(principal, annualRate, months);
    var share := principal / n;
    DivTimes(principal, n);
    if r != 0.0 {
      var p := Pow(1.0 + r, months);
      Bernoulli(r, months);
      PowGapBound(1.0 + r, months);
      var d := p - 1.0;
      assert n * r <= d <= n * r * p;
      assert d > 0.0;
      DivTimes(principal * r * p, d);
      assert payment * d == principal * r * p;
      // upper bound, multiplied through by d
      assert principal * r <= share * d by {
        assert share * (n * r) <= share * d;
        assert share * n == principal;
      }
      calc {
        payment * d;
      ==
        principal * r * d + principal * r;
      <=
        principal * r * d + share * d;
      ==
        (share + principal * r) * d;
      }
      CancelPositive(payment, share + principal * r, d);
      // lower bound, multiplied through by d
      calc {
        share * d;
      <=  { assert share >= 0.0; assert share * d <= share * (n * (r * p)); }
        share * n * (r * p);
      ==
        principal * r * p;
      ==
        payment * d;
      }
      CancelPositive(share, payment, d);
    }
  }

  // -------------------------------------------------------------------------
  // The cases of backend/tests/finance.test.js

  lemma RateExamples()
    ensures CalcInterestRate(6, "personal") == 0.125
    ensures CalcInterestRate(18, "personal") == 0.145
    ensures CalcInterestRate(36, "personal") == 0.165
    ensures CalcInterestRate(12, "business") == 0.155
  {
  }

  lemma PaymentExamples()
    ensures MonthlyPayment(0.0, 0.0, 12) == 0.0
    ensures MonthlyPayment(12000.0, 0.0, 12) == 1000.0
    ensures MonthlyPayment(100000.0, 0.12, 0) == 0.0
  {
  }

  /** 500000 at 12% a year over a year costs between 44000 and 45000 a month:
      here (1.01)^12 is computed exactly. */
  lemma AmortisedExample()
    ensures 44000.0 < MonthlyPayment(500000.0, 0.12, 12) < 45000.0
  {
    assert Pow(1.01, 1) == 1.01;
    assert Pow(1.01, 2) == 1.0201;
    assert Pow(1.01, 3) == 1.030301;
    assert Pow(1.01, 4) == 1.04060401;
    assert Pow(1.01, 5) == 1.0510100501;
    assert Pow(1.01, 6) == 1.061520150601;
    assert Pow(1.01, 7) == 1.07213535210701;
    assert Pow(1.01, 8) == 1.0828567056280801;
    assert Pow(1.01, 9) == 1.093685272684360901;
    assert Pow(1.01, 10) == 1.10462212541120451001;
    assert Pow(1.01, 11) == 1.1156683466653165551101;
    assert Pow(1.01, 12) == 1.126825030131969720661201;
    var p := Pow(1.01, 12);
    assert 0.12 / 12.0 == 0.01;
    assert MonthlyPayment(500000.0, 0.12, 12) == 5000.0 * p / (p - 1.0);
    assert 1.125 < p < 1.128;
  }
}
