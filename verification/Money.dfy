/**
 Money values of the salary calculator, held as exact reals.

 The calculator rounds every figure it shows or stores to whole pesewas
 (hundredths of a cedi) with `Math.round((value + Number.EPSILON) * 100) / 100`,
 where `Math.round` rounds halves toward positive infinity. On exact reals
 the `Number.EPSILON` nudge, which only offsets binary floating-point
 error, is dropped.
 */
module Money {

  /** True iff `x` is a whole number of hundredths. */
  predicate IsCents(x: real) {
    (x * 100.0).Floor as real == x * 100.0
  }

  /** Rounds to the nearest hundredth, halves going up. */
  function RoundMoney(x: real): (r: real)
    ensures IsCents(r)
    ensures x - 0.005 < r <= x + 0.005
  {
    var k := (x * 100.0 + 0.5).Floor;
    assert (k as real / 100.0) * 100.0 == k as real;
    k as real / 100.0
  }

  /** RoundMoney(x) is the only whole number of hundredths in the
      half-open window (x - 0.005, x + 0.005]. */
  lemma RoundMoneyUnique(x: real, y: real)
    requires IsCents(y)
    requires x - 0.005 < y <= x + 0.005
    ensures y == RoundMoney(x)
  {
    var k := (y * 100.0).Floor;
    var j := (x * 100.0 + 0.5).Floor;
    assert k as real == y * 100.0;
    assert j as real <= x * 100.0 + 0.5 < j as real + 1.0;
    assert x * 100.0 - 0.5 < k as real <= x * 100.0 + 0.5;
    assert j == k;
  }

  /** Values already in hundredths are left unchanged, so rounding twice
      is the same as rounding once. */
  lemma RoundMoneyIdempotent(x: real)
    ensures IsCents(x) ==> RoundMoney(x) == x
    ensures RoundMoney(RoundMoney(x)) == RoundMoney(x)
  {
    if IsCents(x) {
      RoundMoneyUnique(x, x);
    }
    RoundMoneyUnique(RoundMoney(x), RoundMoney(x));
  }

  /** Rounding never reverses the order of two amounts. */
  lemma RoundMoneyMonotone(x: real, y: real)
    requires x <= y
    ensures RoundMoney(x) <= RoundMoney(y)
  {
    var i := (x * 100.0 + 0.5).Floor;
    var j := (y * 100.0 + 0.5).Floor;
    assert i as real <= x * 100.0 + 0.5 <= y * 100.0 + 0.5 < j as real + 1.0;
    assert i <= j;
  }

  /** Two amounts less than a hundredth apart round at most one hundredth apart. */
  lemma RoundMoneyClose(x: real, y: real)
    requires x <= y < x + 0.01
    ensures 0.0 <= RoundMoney(y) - RoundMoney(x) <= 0.01
  {
    RoundMoneyMonotone(x, y);
    var i := (x * 100.0 + 0.5).Floor;
    var j := (y * 100.0 + 0.5).Floor;
    assert j as real <= y * 100.0 + 0.5 < x * 100.0 + 1.5 < i as real + 2.0;
    assert j <= i + 1;
  }

  /** Rounding two amounts apart and adding them is within a hundredth of
      rounding their sum. */
  lemma RoundMoneySumDrift(x: real, y: real, sum: real)
    requires sum == x + y
    ensures -0.01 <= RoundMoney(x) + RoundMoney(y) - RoundMoney(sum) <= 0.01
  {
    var a := (RoundMoney(x) * 100.0).Floor;
    var b := (RoundMoney(y) * 100.0).Floor;
    var c := (RoundMoney(sum) * 100.0).Floor;
    assert a as real == RoundMoney(x) * 100.0 && b as real == RoundMoney(y) * 100.0;
    assert c as real == RoundMoney(sum) * 100.0;
    var d := a + b - c;
    assert -1.5 < d as real < 1.5;
    assert -1 <= d <= 1;
  }
}
