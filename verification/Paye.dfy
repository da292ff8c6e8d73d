/**
 The monthly PAYE (pay-as-you-earn) income tax of the salary calculator,
 which the page describes as the Ghana 2024 schedule.

 The page encodes the schedule twice: once as an if-chain over the
 chargeable income (`CalculatePaye`) and once as a table of brackets
 (`Brackets`), which the net-to-chargeable solver walks. This module
 models both and proves that they agree.
 */
module Paye {
  import opened Optional

  /** One band of the schedule: incomes above `lower` and up to `upper`
      (no upper bound for the top band) pay `baseTax` plus `rate` times
      the part of the income above `lower`. */
  datatype Bracket = Bracket(lower: real, upper: Option<real>, rate: real, baseTax: real)

  /** The bracket table, lowest band first. */
  const Brackets: seq<Bracket> := [
    Bracket(0.0, Some(490.0), 0.0, 0.0),
    Bracket(490.0, Some(600.0), 0.05, 0.0),
    Bracket(600.0, Some(730.0), 0.1, 5.5),
    Bracket(730.0, Some(3896.67), 0.175, 18.5),
    Bracket(3896.67, Some(19896.67), 0.25, 572.67),
    Bracket(19896.67, Some(50416.67), 0.3, 4572.67),
    Bracket(50416.67, None, 0.35, 13728.67)
  ]

  /** The edge between the 17.5% and 25% bands, where the table's base
      tax does not continue the band below it. */
  const StepEdge: real := 3896.67

  /** The height of the step at `StepEdge`: 572.67 - 572.66725. */
  const StepHeight: real := 0.00275

  function Max0(x: real): real {
    if x < 0.0 then 0.0 else x
  }

  /** The tax of one bracket's formula at `income`. */
  function BracketTax(b: Bracket, income: real): real {
    b.baseTax + (income - b.lower) * b.rate
  }

  /** True iff `income` lies in the band of `b`: above its lower bound
      and at most its upper bound. */
  predicate InBand(b: Bracket, income: real) {
    b.lower < income && (b.upper.None? || income <= b.upper.value)
  }

  /** The tax on a chargeable income, as the page's if-chain computes it:
      negative incomes count as zero and each upper edge belongs to the
      band below it. */
  function CalculatePaye(chargeable: real): (tax: real)
    ensures tax >= 0.0
    ensures Max0(chargeable) <= 490.0 <==> tax == 0.0
    ensures tax <= 0.35 * Max0(chargeable)
  {
    var income := Max0(chargeable);
    if income <= 490.0 then 0.0
    else if income <= 600.0 then (income - 490.0) * 0.05
    else if income <= 730.0 then 5.5 + (income - 600.0) * 0.1
    else if income <= 3896.67 then 18.5 + (income - 730.0) * 0.175
    else if income <= 19896.67 then 572.67 + (income - 3896.67) * 0.25
    else if income <= 50416.67 then 4572.67 + (income - 19896.67) * 0.3
    else 13728.67 + (income - 50416.67) * 0.35
  }

  /** The tax read off a bracket table: the formula of the first bracket
      whose upper bound is not below the income. */
  function TableTax(bs: seq<Bracket>, income: real): real
    decreases |bs|
  {
    if |bs| == 0 then 0.0
    else if bs[0].upper.None? || income <= bs[0].upper.value then BracketTax(bs[0], income)
    else TableTax(bs[1..], income)
  }

  /** The table is a partition of the non-negative incomes: it starts at
      zero, each band ends where the next begins, the last band is
      unbounded, and every rate is a fraction below one. */
  ghost predicate Contiguous(bs: seq<Bracket>) {
    && |bs| > 0
    && bs[0].lower == 0.0
    && bs[|bs| - 1].upper.None?
    && (forall i :: 0 <= i < |bs| - 1 ==> bs[i].upper == Some(bs[i + 1].lower) && bs[i].lower < bs[i + 1].lower)
    && (forall i :: 0 <= i < |bs| ==> 0.0 <= bs[i].rate < 1.0)
  }

  /** The table's bands are contiguous, and each band's base tax is the
      tax of the band below at their shared edge, except at `StepEdge`,
      where the base tax is `StepHeight` higher. */
  lemma BracketsWellFormed()
    ensures Contiguous(Brackets)
    ensures forall i :: 0 <= i < |Brackets| - 1 && Brackets[i].upper != Some(StepEdge) ==>
      Brackets[i + 1].baseTax == BracketTax(Brackets[i], Brackets[i + 1].lower)
    ensures Brackets[3].upper == Some(StepEdge) && Brackets[4].lower == StepEdge
    ensures Brackets[4].baseTax - BracketTax(Brackets[3], StepEdge) == StepHeight
  {
  }

  /** Inside each band of the table, the if-chain equals that band's
      formula. */
  lemma PayeInBand(i: nat, income: real)
    requires i < |Brackets|
    requires InBand(Brackets[i], income)
    ensures CalculatePaye(income) == BracketTax(Brackets[i], income)
  {
  }

  /** The if-chain and the table compute the same tax for every income. */
  lemma PayeMatchesTable(chargeable: real)
    ensures CalculatePaye(chargeable) == TableTax(Brackets, Max0(chargeable))
  {
    var income := Max0(chargeable);
    var bs := Brackets;
    assert bs[1..][1..][1..][1..][1..][1..] == [bs[6]];
  }

  /** The tax never decreases as the income grows. */
  lemma PayeMonotone(a: real, b: real)
    requires a <= b
    ensures CalculatePaye(a) <= CalculatePaye(b)
  {
  }

  /** Between two incomes that do not straddle `StepEdge`, the tax grows
      by at most the top rate (35%) times the income difference, so the tax is
      continuous everywhere except at `StepEdge`; across `StepEdge` it may
      grow by `StepHeight` more. */
  lemma PayeGrowth(a: real, b: real)
    requires a <= b
    ensures CalculatePaye(b) - CalculatePaye(a)
      <= 0.35 * (b - a) + (if a <= StepEdge < b then StepHeight else 0.0)
  {
  }

  /** At `StepEdge` the tax jumps: the 17.5% band ends at 572.66725, and
      every larger income pays at least 572.67. */
  lemma PayeStepAtEdge()
    ensures CalculatePaye(StepEdge) == 572.66725
    ensures forall x :: StepEdge < x ==> CalculatePaye(x) - CalculatePaye(StepEdge) >= StepHeight
  {
  }

  /** At every other edge the formulas of the two bands meet. */
  lemma PayeContinuousAtEdges(i: nat)
    requires i < |Brackets| - 1
    requires Brackets[i].upper != Some(StepEdge)
    ensures CalculatePaye(Brackets[i + 1].lower) == BracketTax(Brackets[i + 1], Brackets[i + 1].lower)
    ensures CalculatePaye(Brackets[i + 1].lower) == BracketTax(Brackets[i], Brackets[i + 1].lower)
  {
  }
}
