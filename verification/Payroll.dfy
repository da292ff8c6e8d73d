/**
 The forward and reverse payroll breakdowns of the salary calculator.

 Forward: from the basic salary, five allowances and a loan deduction to
 gross pay, SSNIT contributions, chargeable income, PAYE and net pay.
 Reverse: from a desired net pay to the basic salary that yields it, with
 no allowances and no loan. Every returned amount is rounded to hundredths
 on its own, from the unrounded value.
 */
module Payroll {
  import opened Money
  import opened Paye
  import opened NetSolver

  /** The SSNIT contributions on a basic salary. The employee pays 5.5%
      (Tier 2); the employer pays 5% (Tier 1) and 8% (Tier 2), 13% in all;
      the Tier 2 total is the employee's 5.5% plus the employer's 8%. */
  function EmployeeSsnitOn(basic: real): real { basic * 0.055 }
  function EmployerTier1On(basic: real): real { basic * 0.05 }
  function EmployerTier2On(basic: real): real { basic * 0.08 }
  function EmployerSsnitOn(basic: real): real { basic * (0.05 + 0.08) }
  function Tier2TotalOn(basic: real): real { basic * (0.055 + 0.08) }

  /** The form's numeric fields, already parsed. */
  datatype PayrollInput = PayrollInput(
    basic: real,
    food: real,
    transportation: real,
    utilities: real,
    rent: real,
    others: real,
    loan: real)

  /** The forward breakdown. */
  datatype Breakdown = Breakdown(
    basic: real,
    allowances: real,
    gross: real,
    employeeSsnit: real,
    chargeable: real,
    paye: real,
    loan: real,
    totalDeductions: real,
    netPay: real,
    employerSsnit: real)

  /** The reverse breakdown. */
  datatype ReverseBreakdown = ReverseBreakdown(
    basic: real,
    gross: real,
    chargeable: real,
    paye: real,
    employeeSsnit: real,
    employerSsnit: real,
    netPay: real)

  /** An input with only a basic salary: no allowances and no loan. */
  function BasicOnly(basic: real): PayrollInput {
    PayrollInput(basic, 0.0, 0.0, 0.0, 0.0, 0.0, 0.0)
  }

  /** Every amount of the breakdown is a whole number of hundredths. */
  predicate AllCents(b: Breakdown) {
    && IsCents(b.basic) && IsCents(b.allowances) && IsCents(b.gross)
    && IsCents(b.employeeSsnit) && IsCents(b.chargeable) && IsCents(b.paye)
    && IsCents(b.loan) && IsCents(b.totalDeductions) && IsCents(b.netPay)
    && IsCents(b.employerSsnit)
  }

  /** Each amount of `b` is `RoundMoney` of the matching amount of `raw`. */
  predicate RoundedFrom(b: Breakdown, raw: Breakdown) {
    && b.basic == RoundMoney(raw.basic)
    && b.allowances == RoundMoney(raw.allowances)
    && b.gross == RoundMoney(raw.gross)
    && b.employeeSsnit == RoundMoney(raw.employeeSsnit)
    && b.chargeable == RoundMoney(raw.chargeable)
    && b.paye == RoundMoney(raw.paye)
    && b.loan == RoundMoney(raw.loan)
    && b.totalDeductions == RoundMoney(raw.totalDeductions)
    && b.netPay == RoundMoney(raw.netPay)
    && b.employerSsnit == RoundMoney(raw.employerSsnit)
  }

  /** The forward breakdown before rounding. Net pay is gross pay less the
      total deductions; chargeable income is gross pay less the employee
      contribution, clamped at zero; the employer
      contribution is the sum of its two tiers; and when the employee
      contribution does not exceed the gross pay, the net pay is the
      take-home pay of the chargeable income less the loan. */
  function UnroundedBreakdown(input: PayrollInput): (b: Breakdown)
    ensures b.basic == input.basic && b.loan == input.loan
    ensures b.allowances == input.food + input.transportation + input.utilities + input.rent + input.others
    ensures b.gross == b.basic + b.allowances
    ensures b.employeeSsnit == EmployeeSsnitOn(input.basic)
    ensures b.totalDeductions == b.employeeSsnit + b.paye + b.loan
    ensures b.netPay + b.totalDeductions == b.gross
    ensures b.chargeable == Max0(b.gross - b.employeeSsnit)
    ensures b.chargeable >= 0.0
    ensures b.paye == CalculatePaye(b.chargeable)
    ensures b.gross - b.employeeSsnit >= 0.0 ==> b.netPay == NetOf(b.chargeable) - b.loan
    ensures b.employerSsnit == EmployerTier1On(input.basic) + EmployerTier2On(input.basic)
  {
    var basic := input.basic;
    var allowances := input.food + input.transportation + input.utilities + input.rent + input.others;
    var gross := basic + allowances;
    var employeeSsnit := EmployeeSsnitOn(basic);
    var chargeable := Max0(gross - employeeSsnit);
    var paye := CalculatePaye(chargeable);
    var loan := input.loan;
    var totalDeductions := employeeSsnit + paye + loan;
    var netPay := gross - totalDeductions;
    var employerSsnit := EmployerSsnitOn(basic);
    Breakdown(basic, allowances, gross, employeeSsnit, chargeable, paye, loan, totalDeductions, netPay, employerSsnit)
  }

  /** The forward breakdown the page shows and stores: every amount in
      hundredths, each rounded from its own unrounded value. */
  function Calculate(input: PayrollInput): (b: Breakdown)
    ensures AllCents(b)
    ensures RoundedFrom(b, UnroundedBreakdown(input))
  {
    var raw := UnroundedBreakdown(input);
    Breakdown(
      RoundMoney(raw.basic),
      RoundMoney(raw.allowances),
      RoundMoney(raw.gross),
      RoundMoney(raw.employeeSsnit),
      RoundMoney(raw.chargeable),
      RoundMoney(raw.paye),
      RoundMoney(raw.loan),
      RoundMoney(raw.totalDeductions),
      RoundMoney(raw.netPay),
      RoundMoney(raw.employerSsnit))
  }

  /** The reverse breakdown before rounding, for a net pay that is not
      zero: the basic salary equals the gross pay, and the chargeable
      income is the gross pay less the employee contribution. */
  function UnroundedReverse(net: real): (r: ReverseBreakdown)
    ensures r.basic == r.gross
    ensures r.gross - r.employeeSsnit == r.chargeable
    ensures r.chargeable == ChargeableFromNet(net)
    ensures r.paye == CalculatePaye(r.chargeable)
    ensures r.employeeSsnit == EmployeeSsnitOn(r.basic)
    ensures r.employerSsnit == EmployerSsnitOn(r.basic)
    ensures r.netPay == net
  {
    var chargeable := ChargeableFromNet(net);
    var gross := chargeable / (1.0 - 0.055);
    assert gross * 0.945 == chargeable;
    var basic := gross;
    var employeeSsnit := EmployeeSsnitOn(basic);
    var paye := CalculatePaye(chargeable);
    var employerSsnit := EmployerSsnitOn(basic);
    ReverseBreakdown(basic, gross, chargeable, paye, employeeSsnit, employerSsnit, net)
  }

  /** Each amount of `r` is `RoundMoney` of the matching amount of `raw`. */
  predicate ReverseRoundedFrom(r: ReverseBreakdown, raw: ReverseBreakdown) {
    && r.basic == RoundMoney(raw.basic)
    && r.gross == RoundMoney(raw.gross)
    && r.chargeable == RoundMoney(raw.chargeable)
    && r.paye == RoundMoney(raw.paye)
    && r.employeeSsnit == RoundMoney(raw.employeeSsnit)
    && r.employerSsnit == RoundMoney(raw.employerSsnit)
    && r.netPay == RoundMoney(raw.netPay)
  }

  /** The reverse breakdown the page shows: all zero for a zero net pay
      (the solver is not run); otherwise each amount rounded from the
      unrounded reverse breakdown, and the net pay echoing the input. */
  function Reverse(net: real): (r: ReverseBreakdown)
    ensures net == 0.0 ==> r == ReverseBreakdown(0.0, 0.0, 0.0, 0.0, 0.0, 0.0, 0.0)
    ensures r.basic == r.gross
    ensures r.netPay == RoundMoney(net)
    ensures net != 0.0 ==> r.chargeable == RoundMoney(ChargeableFromNet(net))
    ensures net != 0.0 ==> r.basic == RoundMoney(UnroundedReverse(net).basic)
    ensures net != 0.0 ==> ReverseRoundedFrom(r, UnroundedReverse(net))
  {
    if net == 0.0 then
      ReverseBreakdown(0.0, 0.0, 0.0, 0.0, 0.0, 0.0, 0.0)
    else
      var raw := UnroundedReverse(net);
      ReverseBreakdown(
        RoundMoney(raw.basic),
        RoundMoney(raw.gross),
        RoundMoney(raw.chargeable),
        RoundMoney(raw.paye),
        RoundMoney(raw.employeeSsnit),
        RoundMoney(raw.employerSsnit),
        RoundMoney(raw.netPay))
  }

  /** Rounding each amount on its own keeps net pay within one hundredth
      of the rounded gross pay less the rounded total deductions. */
  lemma RoundedNetDrift(input: PayrollInput)
    ensures -0.01 <= Calculate(input).netPay - (Calculate(input).gross - Calculate(input).totalDeductions) <= 0.01
  {
    var b := Calculate(input);
    var n := (b.netPay * 100.0).Floor;
    var g := (b.gross * 100.0).Floor;
    var t := (b.totalDeductions * 100.0).Floor;
    assert n as real == b.netPay * 100.0 && g as real == b.gross * 100.0 && t as real == b.totalDeductions * 100.0;
    var d := n - (g - t);
    assert -1.5 < d as real < 1.5;
    assert -1 <= d <= 1;
  }

  /** The unrounded breakdown of a non-negative basic salary alone: the
      chargeable income is 94.5% of it and the net pay is the take-home
      pay of that chargeable income. */
  lemma BasicOnlyUnrounded(basic: real)
    requires basic >= 0.0
    ensures var paye := CalculatePaye(0.945 * basic);
      UnroundedBreakdown(BasicOnly(basic)) == Breakdown(
        basic, 0.0, basic, 0.055 * basic, 0.945 * basic, paye, 0.0,
        0.055 * basic + paye, 0.945 * basic - paye, 0.13 * basic)
  {
  }

  /** The unrounded breakdown of a basic salary of 1000. */
  lemma ThousandUnrounded()
    ensures UnroundedBreakdown(BasicOnly(1000.0))
      == Breakdown(1000.0, 0.0, 1000.0, 55.0, 945.0, 56.125, 0.0, 111.125, 888.875, 130.0)
  {
    BasicOnlyUnrounded(1000.0);
    assert CalculatePaye(945.0) == 56.125;
  }

  lemma ThousandRounded(raw: Breakdown, b: Breakdown)
    requires raw == Breakdown(1000.0, 0.0, 1000.0, 55.0, 945.0, 56.125, 0.0, 111.125, 888.875, 130.0)
    requires RoundedFrom(b, raw)
    ensures b == Breakdown(1000.0, 0.0, 1000.0, 55.0, 945.0, 56.13, 0.0, 111.13, 888.88, 130.0)
  {
    RoundMoneyUnique(1000.0, 1000.0);
    RoundMoneyUnique(0.0, 0.0);
    RoundMoneyUnique(55.0, 55.0);
    RoundMoneyUnique(945.0, 945.0);
    RoundMoneyUnique(56.125, 56.13);
    RoundMoneyUnique(111.125, 111.13);
    RoundMoneyUnique(888.875, 888.88);
    RoundMoneyUnique(130.0, 130.0);
  }

  /** A basic salary of 1000 with nothing else: SSNIT 55, chargeable 945,
      PAYE 56.125 rounded to 56.13, and net pay 888.875 rounded to 888.88
      (rounded from the unrounded net, not from the rounded parts). */
  lemma BasicThousandScenario()
    ensures Calculate(BasicOnly(1000.0))
      == Breakdown(1000.0, 0.0, 1000.0, 55.0, 945.0, 56.13, 0.0, 111.13, 888.88, 130.0)
  {
    ThousandUnrounded();
    ThousandRounded(UnroundedBreakdown(BasicOnly(1000.0)), Calculate(BasicOnly(1000.0)));
  }

  /** The identity net = gross - deductions does not survive rounding:
      for a basic salary of 1000 the rounded net pay is one hundredth more
      than the rounded gross pay less the rounded total deductions. */
  lemma RoundedNetDriftHappens()
    ensures var b := Calculate(BasicOnly(1000.0));
      b.netPay == b.gross - b.totalDeductions + 0.01
  {
    BasicThousandScenario();
  }

  /** Feeding the reverse basic salary back into the forward calculation,
      with no allowances and no loan, gives back the chargeable income the
      solver found and a net pay at most `StepHeight + Tolerance` below the
      requested one. */
  lemma ReverseThenForward(net: real)
    requires net > 0.0
    ensures UnroundedBreakdown(BasicOnly(UnroundedReverse(net).basic)).chargeable == UnroundedReverse(net).chargeable
    ensures var n := UnroundedBreakdown(BasicOnly(UnroundedReverse(net).basic)).netPay;
      net - (StepHeight + Tolerance) <= n <= net
  {
    var _ := ChargeableFromNetSolves(net);
    var r := UnroundedReverse(net);
    assert r.basic - EmployeeSsnitOn(r.basic) == r.chargeable;
  }

  /** Reversing the net pay of a non-negative basic salary (no allowances,
      no loan) gives back that basic salary to within one hundredth before
      rounding. A zero basic salary has zero net pay, which the reverse
      maps to all zeros. */
  lemma ForwardThenReverse(basic: real)
    requires basic >= 0.0
    ensures var n := UnroundedBreakdown(BasicOnly(basic)).netPay;
      && (n == 0.0 <==> basic == 0.0)
      && (n != 0.0 ==> -0.01 < UnroundedReverse(n).basic - basic < 0.01)
  {
    var n := UnroundedBreakdown(BasicOnly(basic)).netPay;
    assert n == NetOf(0.945 * basic) by {
      BasicOnlyUnrounded(basic);
    }
    ReverseOfNetOf(basic, n);
  }

  /** The take-home pay `n` of a non-negative basic salary with nothing
      else is zero exactly when the salary is, and otherwise reverses to a
      basic salary within one hundredth of it. */
  lemma ReverseOfNetOf(basic: real, n: real)
    requires basic >= 0.0 && n == NetOf(0.945 * basic)
    ensures n == 0.0 <==> basic == 0.0
    ensures n != 0.0 ==> -0.01 < UnroundedReverse(n).basic - basic < 0.01
  {
    if basic > 0.0 {
      SolverInvertsNetOf(0.945 * basic);
      var r := UnroundedReverse(n);
      assert r.basic * 0.945 == r.chargeable;
    }
  }

  /** The reverse of the net pay of a non-negative basic salary shows
      that basic salary to within 0.015 when given the unrounded net pay,
      and to within 0.025 when given the rounded net pay that the forward
      calculation displays. */
  lemma ForwardThenReverseRounded(basic: real)
    requires basic >= 0.0
    ensures -0.015 < Reverse(UnroundedBreakdown(BasicOnly(basic)).netPay).basic - basic < 0.015
    ensures -0.025 < Reverse(Calculate(BasicOnly(basic)).netPay).basic - basic < 0.025
  {
    var n := UnroundedBreakdown(BasicOnly(basic)).netPay;
    assert n == NetOf(0.945 * basic) by {
      BasicOnlyUnrounded(basic);
    }
    RoundedRoundTrip(basic, n);
    assert Calculate(BasicOnly(basic)).netPay == RoundMoney(n);
    DisplayedRoundTrip(basic, RoundMoney(n));
  }

  /** The rounded reverse of the rounded take-home pay of 94.5% of a
      non-negative basic salary shows that salary to within 0.025. */
  lemma DisplayedRoundTrip(basic: real, m: real)
    requires basic >= 0.0 && m == RoundMoney(NetOf(0.945 * basic))
    ensures -0.025 < Reverse(m).basic - basic < 0.025
  {
    var c0 := 0.945 * basic;
    var n := NetOf(c0);
    assert n >= 0.65 * c0 - StepHeight by {
      assert NetOf(0.0) == 0.0;
      NetOfGrowth(0.0, c0);
    }
    assert m >= 0.0 by {
      RoundMoneyMonotone(0.0, n);
      RoundMoneyUnique(0.0, 0.0);
    }
    if m == 0.0 {
      assert Reverse(m).basic == 0.0;
    } else {
      assert -0.0164 < ChargeableFromNet(m) - c0 < 0.0164 by {
        SolverNearNetOf(c0, m);
      }
      var u := UnroundedReverse(m).basic;
      assert u * 0.945 == ChargeableFromNet(m);
      RoundedBasicNear(u, ChargeableFromNet(m), basic);
    }
  }

  /** A basic salary `u` whose chargeable income lies within 0.0164 of
      94.5% of `basic` rounds to within 0.025 of `basic`. */
  lemma RoundedBasicNear(u: real, c: real, basic: real)
    requires u * 0.945 == c
    requires -0.0164 < c - 0.945 * basic < 0.0164
    ensures -0.025 < RoundMoney(u) - basic < 0.025
  {
  }

  /** The rounded reverse of the take-home pay of 94.5% of a non-negative
      basic salary shows that salary to within 0.015. */
  lemma RoundedRoundTrip(basic: real, n: real)
    requires basic >= 0.0 && n == NetOf(0.945 * basic)
    ensures -0.015 < Reverse(n).basic - basic < 0.015
  {
    ReverseOfNetOf(basic, n);
    RoundedReverseClose(basic, n);
  }

  /** A net pay whose unrounded reverse lies within one hundredth of a
      basic salary shows a rounded reverse within 0.015 of it. */
  lemma RoundedReverseClose(basic: real, n: real)
    requires n == 0.0 <==> basic == 0.0
    requires n != 0.0 ==> -0.01 < UnroundedReverse(n).basic - basic < 0.01
    ensures -0.015 < Reverse(n).basic - basic < 0.015
  {
  }
}
