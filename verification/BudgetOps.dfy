/** The atomic store operations on one session's micro-USD counter, as functions of the counter. */
module BudgetOps {
  import opened Schemas
  import opened Money

  /** The compare half of the reserve step; when it holds the counter grows by the estimate. */
  predicate Admits(used: int, estimateMicro: int, limitMicro: int) {
    used + estimateMicro <= limitMicro
  }

  /** A signed adjustment, floored at zero. */
  function Adjusted(used: int, deltaMicro: int): int {
    if used + deltaMicro < 0 then 0 else used + deltaMicro
  }

  /** The cost recorded for a settled call: what was billed, else the held estimate. */
  function SettledCost(estimate: Usd, billed: Option<Usd>): Usd {
    billed.GetOr(estimate)
  }

  function SettledCounter(used: int, estimate: Usd, billed: Option<Usd>): int {
    if billed.None? || ToMicro(billed.value) == ToMicro(estimate) then used
    else Adjusted(used, ToMicro(billed.value) - ToMicro(estimate))
  }

  function CancelledCounter(used: int, estimate: Usd): int {
    Adjusted(used, -ToMicro(estimate))
  }
}
