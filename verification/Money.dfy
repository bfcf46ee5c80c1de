/** USD and the integer micro-dollar grid of the budget counter (src/utils/money.py). */
module Money {
  /** Dollars as exact reals; every cost a provider bills is non-negative. */
  type Usd = r: real | 0.0 <= r

  const MICRO_PER_USD: real := 1000000.0

  function Ceiling(x: real): int {
    if x.Floor as real == x then x.Floor else x.Floor + 1
  }

  /** USD to micro-dollars, rounded up. */
  function ToMicro(usd: real): int {
    Ceiling(usd * MICRO_PER_USD)
  }

  function FromMicro(micro: int): real {
    micro as real / MICRO_PER_USD
  }

  predicate OnGrid(usd: real) {
    FromMicro(ToMicro(usd)) == usd
  }

  function SumUsd(costs: seq<Usd>): (total: Usd) {
    if costs == [] then 0.0 else SumUsd(costs[..|costs| - 1]) + costs[|costs| - 1]
  }

  function SumMicro(costs: seq<Usd>): int {
    if costs == [] then 0 else SumMicro(costs[..|costs| - 1]) + ToMicro(costs[|costs| - 1])
  }

  /** The ceiling is the least integer at or above its argument. */
  lemma CeilingIsLeast(x: real, n: int)
    ensures x <= Ceiling(x) as real < x + 1.0
    ensures n as real >= x <==> n >= Ceiling(x)
  {
    if n < Ceiling(x) {
      assert n <= Ceiling(x) - 1;
      assert (Ceiling(x) - 1) as real < x;
      assert n as real <= (Ceiling(x) - 1) as real;
    } else {
      assert n as real >= Ceiling(x) as real;
    }
  }

  /** Rounding up never under-reserves: `ToMicro` is the least micro amount worth at least `usd`. */
  lemma ToMicroNeverUnderReserves(usd: real, micro: int)
    ensures FromMicro(ToMicro(usd)) >= usd
    ensures FromMicro(micro) >= usd <==> micro >= ToMicro(usd)
  {
    CeilingIsLeast(usd * MICRO_PER_USD, micro);
    FromMicroScales(ToMicro(usd));
    FromMicroScales(micro);
  }

  lemma FromMicroScales(micro: int)
    ensures FromMicro(micro) * MICRO_PER_USD == micro as real
  {
  }

  /** Reading a counter back is exact. */
  lemma MicroRoundTrip(micro: int)
    ensures ToMicro(FromMicro(micro)) == micro
    ensures OnGrid(FromMicro(micro))
  {
    FromMicroScales(micro);
  }

  lemma ToMicroMonotone(a: real, b: real)
    requires a <= b
    ensures ToMicro(a) <= ToMicro(b)
  {
    ToMicroNeverUnderReserves(a, ToMicro(b));
    ToMicroNeverUnderReserves(b, ToMicro(b));
  }

  lemma ToMicroNonNegative(usd: Usd)
    ensures ToMicro(usd) >= 0
    ensures ToMicro(usd) == 0 <==> usd == 0.0
  {
    CeilingIsLeast(usd * MICRO_PER_USD, 0);
  }

  /** The dollars of a cost list never exceed the dollar value of its micro amounts. */
  lemma {:induction false} SumUsdWithinMicro(costs: seq<Usd>)
    ensures SumUsd(costs) <= FromMicro(SumMicro(costs))
  {
    if costs != [] {
      var front, last := costs[..|costs| - 1], costs[|costs| - 1];
      SumUsdWithinMicro(front);
      ToMicroNeverUnderReserves(last, 0);
      assert FromMicro(SumMicro(costs)) == FromMicro(SumMicro(front)) + FromMicro(ToMicro(last));
    }
  }

  lemma {:induction false} SumMicroNonNegative(costs: seq<Usd>)
    ensures SumMicro(costs) >= 0
  {
    if costs != [] {
      SumMicroNonNegative(costs[..|costs| - 1]);
      ToMicroNonNegative(costs[|costs| - 1]);
    }
  }

  lemma SumAppend(costs: seq<Usd>, cost: Usd)
    ensures SumUsd(costs + [cost]) == SumUsd(costs) + cost
    ensures SumMicro(costs + [cost]) == SumMicro(costs) + ToMicro(cost)
  {
    assert (costs + [cost])[..|costs|] == costs;
  }

  /** The budget a session carries: rounded up once at its start, read back from the counter's grid ever after. */
  function SessionBudget(limit: Usd): Usd {
    ToMicroNonNegative(limit);
    FromMicro(ToMicro(limit))
  }
}
