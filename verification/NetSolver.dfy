/**
 The net-to-chargeable solver of the reverse calculator.

 Given a take-home amount, it walks the PAYE bracket table from the lowest
 band, solves `c - (baseTax + (c - lower) * rate) = net` for the chargeable
 income `c` in each band, and returns the first solution that lies within
 a tolerance of that band's bounds.
 */
module NetSolver {
  import opened Optional
  import opened Paye

  /** The slack allowed around a band's bounds when accepting a solution. */
  const Tolerance: real := 0.0001

  /** The solution of the band's linear equation for `net`. */
  function Candidate(b: Bracket, net: real): real
    requires b.rate < 1.0
  {
    (net + b.baseTax - b.lower * b.rate) / (1.0 - b.rate)
  }

  /** True iff the band has a usable equation and its solution for `net`
      lies within `Tolerance` of the band's bounds. */
  predicate Accepts(b: Bracket, net: real) {
    && 1.0 - b.rate > 0.0
    && Candidate(b, net) >= b.lower - Tolerance
    && (b.upper.None? || Candidate(b, net) <= b.upper.value + Tolerance)
  }

  /** A solution, with the index of the band that produced it. */
  datatype Fit = Fit(index: nat, chargeable: real)

  /** The search loop, from band `i` on: the first band at or after `i`
      that accepts `net`, with its solution. */
  function FirstFit(bs: seq<Bracket>, i: nat, net: real): (r: Option<Fit>)
    requires i <= |bs|
    ensures r.Some? ==> i <= r.value.index < |bs| && Accepts(bs[r.value.index], net)
    ensures r.Some? ==> r.value.chargeable == Candidate(bs[r.value.index], net)
    ensures r.Some? ==> forall j :: i <= j < r.value.index ==> !Accepts(bs[j], net)
    ensures r.None? <==> forall j :: i <= j < |bs| ==> !Accepts(bs[j], net)
    decreases |bs| - i
  {
    if i == |bs| then None
    else
      var b := bs[i];
      var denominator := 1.0 - b.rate;
      if denominator <= 0.0 then
        assert !Accepts(b, net);
        FirstFit(bs, i + 1, net)
      else
        var candidate := Candidate(b, net);
        var withinLower := candidate >= b.lower - Tolerance;
        var withinUpper := b.upper.None? || candidate <= b.upper.value + Tolerance;
        if withinLower && withinUpper then Some(Fit(i, candidate))
        else
          assert !Accepts(b, net);
          FirstFit(bs, i + 1, net)
  }

  /** The chargeable income whose take-home pay is `netPay`: zero when
      `netPay` is not positive, the first accepted band solution
      otherwise, and `netPay` itself if no band accepts. */
  function ChargeableFromNet(netPay: real): (c: real)
    ensures netPay <= 0.0 ==> c == 0.0
  {
    var net := Max0(netPay);
    if net == 0.0 then 0.0
    else match FirstFit(Brackets, 0, net)
      case Some(fit) => fit.chargeable
      case None => net
  }

  /** A band's solution really solves its equation. */
  lemma CandidateSolves(b: Bracket, net: real)
    requires b.rate < 1.0
    ensures Candidate(b, net) - BracketTax(b, Candidate(b, net)) == net
  {
    var d := 1.0 - b.rate;
    var c := Candidate(b, net);
    assert c * d == net + b.baseTax - b.lower * b.rate;
    calc {
      c - BracketTax(b, c);
      c - b.baseTax - c * b.rate + b.lower * b.rate;
      c * d - b.baseTax + b.lower * b.rate;
      net;
    }
  }

  /** The net pays each band accepts, lowest and highest: band `i`
      accepts `net` iff `NetLow[i] <= net <= NetHigh[i]` (the top band has
      no highest). */
  const NetLow: seq<real> := [-0.0001, 489.999905, 594.49991, 711.4999175, 3323.999925, 15323.99993, 36687.999935]
  const NetHigh: seq<real> := [490.0001, 594.500095, 711.50009, 3324.0028325, 15324.000075, 36688.00007]

  /** Each band accepts exactly the net pays of its window. */
  lemma AcceptsWindow(i: nat, net: real)
    requires i < |Brackets|
    ensures Accepts(Brackets[i], net) <==> NetLow[i] <= net && (i == |Brackets| - 1 || net <= NetHigh[i])
  {
    var b := Brackets[i];
    var c := Candidate(b, net);
    var d := 1.0 - b.rate;
    assert c * d == net + b.baseTax - b.lower * b.rate;
  }

  /** The search returns the first accepting band. */
  lemma FirstFitIsFirst(bs: seq<Bracket>, k: nat, net: real)
    requires k < |bs| && Accepts(bs[k], net)
    requires forall j :: 0 <= j < k ==> !Accepts(bs[j], net)
    ensures FirstFit(bs, 0, net) == Some(Fit(k, Candidate(bs[k], net)))
  {
  }

  /** Past the window of the band below, a band's solution lies above the
      band's lower bound. */
  lemma CandidateAboveLower(k: nat, net: real)
    requires k < |Brackets|
    requires k == 0 ==> net > 0.0
    requires k > 0 ==> net > NetHigh[k - 1]
    ensures Brackets[k].lower < Candidate(Brackets[k], net)
  {
    var b := Brackets[k];
    var c := Candidate(b, net);
    assert c * (1.0 - b.rate) == net + b.baseTax - b.lower * b.rate;
  }

  /** For every positive net pay, some band of the table accepts it (so
      the fall-back after the loop is never taken); the band is the first
      whose window reaches the net pay, and its solution lies above the
      band's lower bound. */
  lemma SolverFindsBand(net: real) returns (k: nat)
    requires net > 0.0
    ensures k < |Brackets|
    ensures FirstFit(Brackets, 0, net) == Some(Fit(k, Candidate(Brackets[k], net)))
    ensures Brackets[k].lower < Candidate(Brackets[k], net)
    ensures Brackets[k].upper.None? || Candidate(Brackets[k], net) <= Brackets[k].upper.value + Tolerance
  {
    var bs := Brackets;
    k := 0;
    while k < |bs| - 1 && net > NetHigh[k]
      invariant k < |bs|
      invariant forall j :: 0 <= j < k ==> !Accepts(bs[j], net)
      invariant k > 0 ==> net > NetHigh[k - 1]
    {
      AcceptsWindow(k, net);
      k := k + 1;
    }
    AcceptsWindow(k, net);
    FirstFitIsFirst(bs, k, net);
    CandidateAboveLower(k, net);
  }

  /** The take-home pay of a chargeable income under the schedule. */
  function NetOf(chargeable: real): real {
    chargeable - CalculatePaye(chargeable)
  }

  /** For a positive net pay, the solver's answer `c` is at least the net
      pay; its take-home pay is `net` exactly when `c` lies inside the band
      that accepted it, and otherwise (when `c` overshoots the band's upper
      edge by at most `Tolerance`) falls short of `net` by less than
      `StepHeight + Tolerance`. */
  lemma ChargeableFromNetSolves(net: real) returns (k: nat)
    requires net > 0.0
    ensures k < |Brackets|
    ensures ChargeableFromNet(net) == Candidate(Brackets[k], net)
    ensures ChargeableFromNet(net) >= net
    ensures InBand(Brackets[k], ChargeableFromNet(net)) <==> NetOf(ChargeableFromNet(net)) == net
    ensures net - (StepHeight + Tolerance) <= NetOf(ChargeableFromNet(net)) <= net
  {
    k := SolverFindsBand(net);
    var bs := Brackets;
    var c := ChargeableFromNet(net);
    assert c == Candidate(bs[k], net);
    CandidateSolves(bs[k], net);
    if InBand(bs[k], c) {
      PayeInBand(k, c);
      assert NetOf(c) == net;
    } else {
      assert k < |bs| - 1 && bs[k].upper.value < c <= bs[k].upper.value + Tolerance;
      assert InBand(bs[k + 1], c);
      PayeInBand(k + 1, c);
      StepIntoNextBand(k, c);
      assert c == net + BracketTax(bs[k], c);
    }
  }

  /** Just past a band's upper edge, the next band's tax exceeds the
      band's own formula, by at most `StepHeight + Tolerance`, and the
      band's own formula is not negative there. */
  lemma StepIntoNextBand(k: nat, c: real)
    requires k < |Brackets| - 1 && Brackets[k].upper.Some?
    requires Brackets[k].upper.value < c <= Brackets[k].upper.value + Tolerance
    ensures 0.0 < BracketTax(Brackets[k + 1], c) - BracketTax(Brackets[k], c) <= StepHeight + Tolerance
    ensures BracketTax(Brackets[k], c) >= 0.0
  {
    var bs := Brackets;
    if k == 0 {
      assert BracketTax(bs[1], c) - BracketTax(bs[0], c) == (c - 490.0) * 0.05;
    } else if k == 1 {
      assert BracketTax(bs[2], c) - BracketTax(bs[1], c) == (c - 600.0) * 0.05;
    } else if k == 2 {
      assert BracketTax(bs[3], c) - BracketTax(bs[2], c) == (c - 730.0) * 0.075;
    } else if k == 3 {
      assert BracketTax(bs[4], c) - BracketTax(bs[3], c) == (c - 3896.67) * 0.075 + StepHeight;
    } else if k == 4 {
      assert BracketTax(bs[5], c) - BracketTax(bs[4], c) == (c - 19896.67) * 0.05;
    } else {
      assert BracketTax(bs[6], c) - BracketTax(bs[5], c) == (c - 50416.67) * 0.05;
    }
  }

  /** Take-home pay grows with chargeable income at a rate of at least
      65% (one less the top rate), less the one step of the schedule. */
  lemma NetOfGrowth(x: real, y: real)
    requires x <= y
    ensures NetOf(y) - NetOf(x) >= 0.65 * (y - x) - StepHeight
  {
    PayeGrowth(x, y);
  }

  /** Solving for a net pay within half a hundredth of the take-home pay
      of a chargeable income, as the rounded take-home pay is, gives back
      that income to within 0.0164. */
  lemma SolverNearNetOf(c0: real, m: real)
    requires c0 >= 0.0 && m > 0.0
    requires -0.005 <= m - NetOf(c0) <= 0.005
    ensures -0.0164 < ChargeableFromNet(m) - c0 < 0.0164
  {
    var _ := ChargeableFromNetSolves(m);
    var c := ChargeableFromNet(m);
    if c0 <= c {
      NetOfGrowth(c0, c);
    } else {
      NetOfGrowth(c, c0);
    }
  }

  /** Solving for the take-home pay of a positive chargeable income gives
      that income back to within 0.0087. */
  lemma SolverInvertsNetOf(c0: real)
    requires c0 > 0.0
    ensures NetOf(c0) > 0.0
    ensures -0.0087 < ChargeableFromNet(NetOf(c0)) - c0 < 0.0087
  {
    var n := NetOf(c0);
    assert n >= 0.65 * c0;
    var _ := ChargeableFromNetSolves(n);
    var c := ChargeableFromNet(n);
    if c0 <= c {
      NetOfGrowth(c0, c);
    } else {
      NetOfGrowth(c, c0);
    }
  }
}
