/** The integer kernels that size a funding move under a proportional fee cap. */
module Sizing {
  import opened Amounts
  import opened Types

  lemma MulMonotone(a: nat, b: nat, d: nat)
    requires a <= b
    ensures a * d <= b * d
  {
    assert (b - a) * d >= 0;
  }

  /** Flooring division is the adjoint of multiplication. */
  lemma DivIff(a: nat, x: nat, d: nat)
    requires 0 < d
    ensures a <= x / d <==> a * d <= x
  {
    var q := x / d;
    assert x == q * d + x % d;
    if a <= q {
      MulMonotone(a, q, d);
    } else {
      MulMonotone(q + 1, a, d);
      assert (q + 1) * d == q * d + d;
    }
  }

  lemma QuotientFits(budget: u64, bps: Bps)
    ensures 0 <= ((budget + 1) * 10_000 - 1) / (10_000 + bps) <= budget
  {
    QuotientBelow((budget + 1) * 10_000 - 1, 10_000 + bps, budget + 1);
  }

  lemma QuotientBelow(x: nat, d: nat, b: nat)
    requires 10_000 <= d && x < b * 10_000
    ensures 0 <= x / d < b
  {
    DivIff(b, x, d);
    MulMonotone(10_000, d, b);
    assert b * d == d * b && b * 10_000 == 10_000 * b;
  }

  /** The largest funding amount whose proportional fee cap still fits the budget. */
  function MaxFundable(budget: u64, bps: Bps): u64 {
    QuotientFits(budget, bps);
    ((budget + 1) * 10_000 - 1) / (10_000 + bps)
  }

  /** `amount * bps / 10000`, truncated to 64 bits as the cast does. */
  function MoveFeeCap(amount: u64, bps: Bps): u64 {
    amount * bps / 10_000 % 0x1_0000_0000_0000_0000
  }

  /** `MaxFundable` is the exact integer maximum: an amount and its floored proportional fee fit
      the budget if and only if the amount is at most it. */
  lemma MaxFundableIsExact(budget: u64, bps: Bps, amount: nat)
    ensures amount <= MaxFundable(budget, bps) <==> amount + amount * bps / 10_000 <= budget
  {
    var x := (budget + 1) * 10_000 - 1;
    var fee := amount * bps;
    DivIff(amount, x, 10_000 + bps);
    assert amount * (10_000 + bps) == amount * 10_000 + fee;
  }

  /** A fundable amount's stamped cap never truncates, and amount plus cap fits the budget. */
  lemma FundableFits(budget: u64, bps: Bps, amount: u64)
    requires amount <= MaxFundable(budget, bps)
    ensures MoveFeeCap(amount, bps) == amount * bps / 10_000
    ensures amount + MoveFeeCap(amount, bps) <= budget
  {
    MaxFundableIsExact(budget, bps, amount);
    var fee := amount * bps / 10_000;
    SmallIsUntruncated(fee);
  }

  lemma SmallIsUntruncated(x: nat)
    requires x <= U64_MAX
    ensures x % 0x1_0000_0000_0000_0000 == x
  {
  }
}
