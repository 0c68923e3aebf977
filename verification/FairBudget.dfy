/** Rates derived from a service plan (data-plane/src/fair_budget.h). */
module FairBudget {
  import opened Arith
  import opened TokenBucket

  datatype Budget = Budget(committed: nat, burst: nat, capBps: nat, capPps: nat)

  function ClampRate(v: nat): nat { Min(v, FAIR_RATE_MAX) }

  /** fair_rate_product, on 64-bit words. */
  function RateProduct(left: nat, right: nat): nat
  {
    if left == 0 || right == 0 then 0
    else if left > FAIR_RATE_MAX / right then FAIR_RATE_MAX
    else Wrap64(left * right)
  }

  /** fair_budget; the difference of clamped rates is taken modulo 2^64. */
  function BudgetOf(committed: nat, ceiling: nat, k: nat, refPkt: nat): Budget
    requires refPkt > 0
  {
    var cap := RateProduct(ClampRate(ceiling), k);
    Budget(ClampRate(committed), Wrap64(U64 + ClampRate(ceiling) - ClampRate(committed)), cap, cap / refPkt)
  }

  function Headroom(capacity: nat, sumCommitted: nat): nat
  {
    if capacity > sumCommitted then capacity - sumCommitted else 0
  }

  /** The product saturates at the maximum rate and never wraps. */
  lemma ProductSaturates(left: nat, right: nat)
    ensures RateProduct(left, right) == Min(left * right, FAIR_RATE_MAX)
  {
    if left != 0 && right != 0 {
      if left > FAIR_RATE_MAX / right {
        if left * right < FAIR_RATE_MAX {
          DivAtLeast(FAIR_RATE_MAX, right, left);
        }
      } else {
        DivBounds(FAIR_RATE_MAX, right);
        MulLe(left, FAIR_RATE_MAX / right, right);
      }
    }
  }

  /** Committed and burst rates add up to the clamped ceiling, and every rate is small enough for the
      bucket arithmetic to be exact. */
  lemma BudgetSplitsCeiling(committed: nat, ceiling: nat, k: nat, refPkt: nat)
    requires refPkt > 0 && committed <= ceiling
    ensures var b := BudgetOf(committed, ceiling, k, refPkt);
            && b.committed + b.burst == ClampRate(ceiling)
            && b.capBps == Min(ClampRate(ceiling) * k, FAIR_RATE_MAX)
            && Max(Max(b.committed, b.burst), Max(b.capBps, b.capPps)) <= FAIR_RATE_MAX < RATE_EXACT_MAX
  {
    ProductSaturates(ClampRate(ceiling), k);
    var cap := RateProduct(ClampRate(ceiling), k);
    DivBounds(cap, refPkt);
    MulLe(1, refPkt, cap / refPkt);
    assert Wrap64(U64 + ClampRate(ceiling) - ClampRate(committed)) == ClampRate(ceiling) - ClampRate(committed);
  }

  /** What is promised to services plus what is left to share is the capacity, or the promises alone
      when they exceed it. */
  lemma HeadroomCompletesCapacity(capacity: nat, sumCommitted: nat)
    ensures sumCommitted + Headroom(capacity, sumCommitted) == Max(capacity, sumCommitted)
  {
  }
}
