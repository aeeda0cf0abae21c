/** The eligibility preview of backend/src/routes/loans.js (`buildEligibility`):
    four independent checks, each adding its message when it fails. The
    failed checks are kept as codes; the stored reasons are their messages. */
module Eligibility {
  import opened Common
  import opened Finance

  /** The four checks, in the order they run. */
  datatype Check = Employment | Income | Repayment | Amount(multiple: nat)

  function Order(c: Check): nat
  {
    match c
    case Employment => 0
    case Income => 1
    case Repayment => 2
    case Amount(_) => 3
  }

  /** The message a failed check adds to `reasons`. */
  function Message(c: Check): string
  {
    match c
    case Employment => "Employment status not eligible"
    case Income => "Income must be greater than zero"
    case Repayment => "Monthly repayment exceeds 40% of income"
    case Amount(m) => "Requested amount exceeds " + NatToString(m) + "x monthly income"
  }

  function Messages(checks: seq<Check>): (reasons: seq<string>)
    ensures |reasons| == |checks|
    ensures forall i :: 0 <= i < |checks| ==> reasons[i] == Message(checks[i])
  {
    seq(|checks|, i requires 0 <= i < |checks| => Message(checks[i]))
  }

  lemma {:induction false} NatToStringInjective(m: nat, n: nat)
    requires NatToString(m) == NatToString(n)
    ensures m == n
  {
    NatToStringValue(m);
    NatToStringValue(n);
  }

  /** Different checks have different messages, so a message names its check. */
  lemma MessageInjective(c: Check, d: Check)
    requires Message(c) == Message(d)
    ensures c == d
  {
    assert Message(c)[0] == Message(d)[0];
    if c.Amount? && d.Amount? {
      var prefix := "Requested amount exceeds ";
      var suffix := "x monthly income";
      var mc, md := NatToString(c.multiple), NatToString(d.multiple);
      assert Message(c) == prefix + mc + suffix;
      assert Message(d) == prefix + md + suffix;
      assert |mc| == |md|;
      assert mc == Message(c)[|prefix|..|prefix| + |mc|];
      assert md == Message(d)[|prefix|..|prefix| + |md|];
      NatToStringInjective(c.multiple, d.multiple);
    }
  }

  lemma {:induction false} MessagesMember(checks: seq<Check>, c: Check)
    ensures Message(c) in Messages(checks) <==> c in checks
  {
    var reasons := Messages(checks);
    if Message(c) in reasons {
      var i :| 0 <= i < |reasons| && reasons[i] == Message(c);
      MessageInjective(checks[i], c);
    }
    if c in checks {
      var i :| 0 <= i < |checks| && checks[i] == c;
      assert reasons[i] == Message(c);
    }
  }

  /** Business loans may reach 24 months of income, the others 12. */
  function MaxMultiple(purpose: string): nat
  {
    if purpose == "business" then 24 else 12
  }

  /** The checks that fail, in check order. */
  function FailedChecks(amount: int, income: int, emi: int, employment: string, purpose: string): (failed: seq<Check>)
    ensures Employment in failed <==> employment == "unemployed"
    ensures Income in failed <==> income <= 0
    ensures Repayment in failed <==> emi as real > income as real * 0.4
    ensures Amount(MaxMultiple(purpose)) in failed <==> amount > income * MaxMultiple(purpose)
    ensures forall i :: 0 <= i < |failed| && failed[i].Amount? ==> failed[i].multiple == MaxMultiple(purpose)
    ensures forall i, j :: 0 <= i < j < |failed| ==> Order(failed[i]) < Order(failed[j])
    ensures |failed| <= 4
  {
    var multiple := MaxMultiple(purpose);
    (if employment == "unemployed" then [Employment] else [])
    + (if income <= 0 then [Income] else [])
    + (if emi as real > income as real * 0.4 then [Repayment] else [])
    + (if amount > income * multiple then [Amount(multiple)] else [])
  }

  /** The result of `buildEligibility`. */
  datatype Preview = Preview(eligible: bool, reasons: seq<string>, emi: int, annualRate: real)

  function BuildEligibility(amount: int, income: int, tenure: int, employment: string, purpose: string): (p: Preview)
    ensures p.annualRate == CalcInterestRate(tenure, purpose)
    ensures p.emi == Ceil(MonthlyPayment(amount as real, p.annualRate, tenure))
    ensures p.reasons == Messages(FailedChecks(amount, income, p.emi, employment, purpose))
    // the verdict agrees with the list of reasons
    ensures p.eligible <==> p.reasons == []
    ensures |p.reasons| <= 4
  {
    var annualRate := CalcInterestRate(tenure, purpose);
    var emi := Ceil(MonthlyPayment(amount as real, annualRate, tenure));
    var unemployed := employment == "unemployed";
    var noIncome := income <= 0;
    var overRepayment := emi as real > income as real * 0.4;
    var overAmount := amount > income * MaxMultiple(purpose);
    var failed := FailedChecks(amount, income, emi, employment, purpose);
    var eligible := !unemployed && !noIncome && !overRepayment && !overAmount;
    assert eligible <==> failed == [] by {
      if failed != [] {
        assert failed[0] in failed;
      }
    }
    Preview(eligible, Messages(failed), emi, annualRate)
  }

  /** Each message is in the stored reasons exactly when its check fails,
      and the reasons come in the order of the checks, each at most once. */
  lemma ReasonsMatchChecks(amount: int, income: int, tenure: int, employment: string, purpose: string)
    ensures var p := BuildEligibility(amount, income, tenure, employment, purpose);
      && (Message(Employment) in p.reasons <==> employment == "unemployed")
      && (Message(Income) in p.reasons <==> income <= 0)
      && (Message(Repayment) in p.reasons <==> p.emi as real > income as real * 0.4)
      && (Message(Amount(MaxMultiple(purpose))) in p.reasons <==> amount > income * MaxMultiple(purpose))
  {
    var p := BuildEligibility(amount, income, tenure, employment, purpose);
    var failed := FailedChecks(amount, income, p.emi, employment, purpose);
    MessagesMember(failed, Employment);
    MessagesMember(failed, Income);
    MessagesMember(failed, Repayment);
    MessagesMember(failed, Amount(MaxMultiple(purpose)));
  }

  /** No message appears twice. */
  lemma ReasonsDistinct(amount: int, income: int, tenure: int, employment: string, purpose: string)
    ensures var p := BuildEligibility(amount, income, tenure, employment, purpose);
      forall i, j :: 0 <= i < j < |p.reasons| ==> p.reasons[i] != p.reasons[j]
  {
    var p := BuildEligibility(amount, income, tenure, employment, purpose);
    var failed := FailedChecks(amount, income, p.emi, employment, purpose);
    forall i, j | 0 <= i < j < |p.reasons| ensures p.reasons[i] != p.reasons[j] {
      if p.reasons[i] == p.reasons[j] {
        MessageInjective(failed[i], failed[j]);
      }
    }
  }

  /** Being unemployed rules an application out, whatever else it says, and
      its message comes first. */
  lemma UnemployedNeverEligible(amount: int, income: int, tenure: int, purpose: string)
    ensures !BuildEligibility(amount, income, tenure, "unemployed", purpose).eligible
    ensures BuildEligibility(amount, income, tenure, "unemployed", purpose).reasons[0] == Message(Employment)
  {
    var p := BuildEligibility(amount, income, tenure, "unemployed", purpose);
    var failed := FailedChecks(amount, income, p.emi, "unemployed", purpose);
    assert Employment in failed;
    assert failed[0] == Employment by {
      var i :| 0 <= i < |failed| && failed[i] == Employment;
      assert i == 0 || Order(failed[0]) < Order(failed[i]);
    }
  }

  /** 100000 over 12 months for an employed borrower earning 80000 a month
      for a personal loan: eligible, at 12.5% with an instalment under 9400. */
  lemma EligibleExample()
    ensures var p := BuildEligibility(100000, 80000, 12, "employed", "personal");
      p.eligible && p.reasons == [] && p.annualRate == 0.125 && p.emi <= 9376
  {
    PaymentBounds(100000.0, 0.125, 12);
    var payment := MonthlyPayment(100000.0, 0.125, 12);
    assert payment <= 100000.0 / 12.0 + 100000.0 * (0.125 / 12.0);
    assert payment <= 9375.0;
  }
}
