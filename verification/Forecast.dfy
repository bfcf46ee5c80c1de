/** The estimator's affordability arithmetic against what the meter admits (src/services/estimator.py). */
module Forecast {
  import opened Schemas
  import opened Money
  import Ledger
  import Pricing

  /** The padded price of a 1K and a 4K generation and of the auxiliary calls. */
  datatype Rates = Rates(intermediateReserve: Usd, enhanceReserve: Usd, llmOverhead: Usd)

  /** What the estimator gets from the pricing table: grid amounts, and a 1K generation is not free. */
  predicate Priced(r: Rates) {
    && OnGrid(r.intermediateReserve) && OnGrid(r.enhanceReserve) && OnGrid(r.llmOverhead)
    && r.intermediateReserve > 0.0
  }

  function Spendable(r: Rates, budget: Usd, enhanceSteps: nat): real {
    budget - r.llmOverhead - enhanceSteps as real * r.enhanceReserve
  }

  /** Whole 1K generations left after setting the enhance steps aside. */
  function AffordableIntermediate(r: Rates, budget: Usd, enhanceSteps: nat): (n: int)
    requires r.intermediateReserve > 0.0
  {
    if Spendable(r, budget, enhanceSteps) > 0.0
    then (Spendable(r, budget, enhanceSteps) / r.intermediateReserve).Floor
    else 0
  }

  function Affordable(r: Rates, budget: Usd, enhanceSteps: nat): int
    requires r.intermediateReserve > 0.0
  {
    AffordableIntermediate(r, budget, enhanceSteps) + enhanceSteps
  }

  /** The note of the estimate reads "sufficient". */
  predicate Sufficient(r: Rates, budget: Usd, stepCount: nat, enhanceSteps: nat)
    requires r.intermediateReserve > 0.0
  {
    Affordable(r, budget, enhanceSteps) >= (if stepCount >= 1 then stepCount else 1)
  }

  // ----- The forecast in micro-dollars -----

  function ForecastMicro(r: Rates, intermediates: int, enhances: int): int {
    ToMicro(r.llmOverhead) + intermediates * ToMicro(r.intermediateReserve) + enhances * ToMicro(r.enhanceReserve)
  }

  lemma MicroOf(usd: real)
    requires OnGrid(usd)
    ensures ToMicro(usd) as real == usd * MICRO_PER_USD
  {
    FromMicroScales(ToMicro(usd));
  }

  lemma TimesMicro(n: int, usd: real)
    requires OnGrid(usd)
    ensures (n * ToMicro(usd)) as real == n as real * usd * MICRO_PER_USD
  {
    MicroOf(usd);
    assert (n * ToMicro(usd)) as real == n as real * (usd * MICRO_PER_USD);
  }

  /** The forecast fits a budget exactly when its dollars do. */
  lemma ForecastFits(r: Rates, budget: Usd, intermediates: int, enhances: nat)
    requires Priced(r)
    ensures var generations := intermediates as real * r.intermediateReserve + enhances as real * r.enhanceReserve;
      var dollars := r.llmOverhead + generations;
      && (dollars <= budget ==> ForecastMicro(r, intermediates, enhances) <= ToMicro(budget))
      && (OnGrid(budget) && ForecastMicro(r, intermediates, enhances) <= ToMicro(budget) ==> dollars <= budget)
  {
    MicroOf(r.llmOverhead);
    TimesMicro(intermediates, r.intermediateReserve);
    TimesMicro(enhances, r.enhanceReserve);
    var dollars := r.llmOverhead + intermediates as real * r.intermediateReserve + enhances as real * r.enhanceReserve;
    Scaled(r.llmOverhead, intermediates as real * r.intermediateReserve, enhances as real * r.enhanceReserve);
    assert ForecastMicro(r, intermediates, enhances) as real == dollars * MICRO_PER_USD;
    CeilingIsLeast(budget * MICRO_PER_USD, ForecastMicro(r, intermediates, enhances));
    if OnGrid(budget) {
      MicroOf(budget);
    }
  }

  lemma Scaled(a: real, b: real, c: real)
    ensures (a + b + c) * MICRO_PER_USD == a * MICRO_PER_USD + b * MICRO_PER_USD + c * MICRO_PER_USD
  {
  }

  lemma WholeTimes(x: real, unit: real)
    requires unit > 0.0
    ensures (x / unit).Floor as real * unit <= x
    ensures x < ((x / unit).Floor as real + 1.0) * unit
  {
    var q := x / unit;
    var low := q.Floor as real;
    Ordered(low, q, unit);
    assert q * unit == x;
    StrictlyOrdered(q, low + 1.0, unit);
    assert x < (low + 1.0) * unit;
  }

  lemma Ordered(a: real, b: real, unit: real)
    requires a <= b && unit > 0.0
    ensures a * unit <= b * unit
  {
    assert (b - a) * unit >= 0.0;
  }

  lemma StrictlyOrdered(a: real, b: real, unit: real)
    requires a < b && unit > 0.0
    ensures a * unit < b * unit
  {
    assert (b - a) * unit > 0.0;
  }

  /** Everything the estimator calls affordable fits together when the budget covers overhead and enhance steps; on a
      grid budget only then. With less, the enhance steps are still counted although they cannot all be funded. */
  lemma AffordableFitsIff(r: Rates, budget: Usd, enhanceSteps: nat)
    requires Priced(r)
    ensures Spendable(r, budget, enhanceSteps) >= 0.0 ==>
      ForecastMicro(r, AffordableIntermediate(r, budget, enhanceSteps), enhanceSteps) <= ToMicro(budget)
    ensures OnGrid(budget) && Spendable(r, budget, enhanceSteps) < 0.0 ==>
      && Affordable(r, budget, enhanceSteps) == enhanceSteps
      && ForecastMicro(r, 0, enhanceSteps) > ToMicro(budget)
  {
    hide ToMicro, FromMicro, OnGrid, ForecastMicro;
    var n := AffordableIntermediate(r, budget, enhanceSteps);
    var spendable := Spendable(r, budget, enhanceSteps);
    WholeTimes(spendable, r.intermediateReserve);
    ForecastFits(r, budget, n, enhanceSteps);
  }

  /** Tight on a grid budget: one more 1K generation on top of the whole forecast does not fit. */
  lemma OneMoreDoesNotFit(r: Rates, budget: Usd, enhanceSteps: nat)
    requires Priced(r) && OnGrid(budget)
    ensures ForecastMicro(r, AffordableIntermediate(r, budget, enhanceSteps) + 1, enhanceSteps) > ToMicro(budget)
  {
    hide ToMicro, FromMicro, OnGrid, ForecastMicro;
    var n := AffordableIntermediate(r, budget, enhanceSteps);
    var spendable := Spendable(r, budget, enhanceSteps);
    WholeTimes(spendable, r.intermediateReserve);
    assert (n + 1) as real == n as real + 1.0;
    assert (n + 1) as real * r.intermediateReserve > spendable;
    ForecastFits(r, budget, n + 1, enhanceSteps);
  }

  /** Exactly when a forecast of any size fits, on or off the grid: its dollars reach at most the limit the meter makes
      of the budget. */
  lemma ForecastFitsIff(r: Rates, budget: Usd, intermediates: int, enhances: nat)
    requires Priced(r)
    ensures ForecastMicro(r, intermediates, enhances) <= ToMicro(budget)
       <==> r.llmOverhead + intermediates as real * r.intermediateReserve + enhances as real * r.enhanceReserve
            <= FromMicro(ToMicro(budget))
  {
    MicroOf(r.llmOverhead);
    TimesMicro(intermediates, r.intermediateReserve);
    TimesMicro(enhances, r.enhanceReserve);
    var dollars := r.llmOverhead + intermediates as real * r.intermediateReserve + enhances as real * r.enhanceReserve;
    Scaled(r.llmOverhead, intermediates as real * r.intermediateReserve, enhances as real * r.enhanceReserve);
    FromMicroScales(ToMicro(budget));
    hide ToMicro, FromMicro, OnGrid;
    ScaledOrder(dollars, FromMicro(ToMicro(budget)));
  }

  lemma ScaledOrder(a: real, b: real)
    ensures a <= b <==> a * MICRO_PER_USD <= b * MICRO_PER_USD
  {
  }

  /** So a session's budget is on the grid, its meter's limit is the amount rounded up at the start, and the forecast
      is tight for it: one more 1K generation never fits. */
  lemma SessionBudgetIsTight(r: Rates, limit: Usd, enhanceSteps: nat)
    requires Priced(r)
    ensures SessionBudget(limit) >= 0.0 && OnGrid(SessionBudget(limit))
    ensures ToMicro(SessionBudget(limit)) == ToMicro(limit)
    ensures ForecastMicro(r, AffordableIntermediate(r, SessionBudget(limit), enhanceSteps) + 1, enhanceSteps)
          > ToMicro(limit)
  {
    ToMicroNonNegative(limit);
    MicroRoundTrip(ToMicro(limit));
    OneMoreDoesNotFit(r, SessionBudget(limit), enhanceSteps);
  }

  /** A budget off the grid, which no session carries, is not tight: the meter's limit rounds up. */
  lemma OffGridIsNotTight() returns (r: Rates, budget: Usd)
    ensures Priced(r) && !OnGrid(budget)
    ensures ForecastMicro(r, AffordableIntermediate(r, budget, 0) + 1, 0) <= ToMicro(budget)
  {
    r := Rates(FromMicro(1), 0.0, 0.0);
    budget := 0.0000005;
    MicroRoundTrip(1);
    assert ToMicro(0.0) == 0;
    assert Ceiling(0.5) == 1;
    assert budget * MICRO_PER_USD == 0.5;
    assert budget / r.intermediateReserve == 0.5;
  }

  /** A "sufficient" plan funds one generation per step: its 1K steps and all its enhance steps. */
  lemma SufficientFundsEveryStep(r: Rates, budget: Usd, stepCount: nat, enhanceSteps: nat)
    requires Priced(r) && enhanceSteps <= stepCount
    requires Spendable(r, budget, enhanceSteps) >= 0.0 && Sufficient(r, budget, stepCount, enhanceSteps)
    ensures ForecastMicro(r, stepCount - enhanceSteps, enhanceSteps) <= ToMicro(budget)
  {
    AffordableFitsIff(r, budget, enhanceSteps);
    ToMicroNonNegative(r.intermediateReserve);
    MoreCosts(stepCount - enhanceSteps, AffordableIntermediate(r, budget, enhanceSteps),
        ToMicro(r.intermediateReserve));
  }

  /** Exactly when the note reads "sufficient". While the enhance steps and the overhead leave something to spend: when
      one generation per step, at least one, costs no more dollars than the budget; on a grid budget, when the meter
      admits them all together. Otherwise only when the enhance steps alone are as many as the steps. */
  lemma SufficientIff(r: Rates, budget: Usd, stepCount: nat, enhanceSteps: nat)
    requires Priced(r)
    ensures var steps := if stepCount < 1 then 1 else stepCount;
      var dollars := r.llmOverhead + (steps - enhanceSteps) as real * r.intermediateReserve
                     + enhanceSteps as real * r.enhanceReserve;
      && (Spendable(r, budget, enhanceSteps) >= 0.0 ==>
            (Sufficient(r, budget, stepCount, enhanceSteps) <==> dollars <= budget))
      && (Spendable(r, budget, enhanceSteps) >= 0.0 && OnGrid(budget) ==>
            (Sufficient(r, budget, stepCount, enhanceSteps)
             <==> ForecastMicro(r, steps - enhanceSteps, enhanceSteps) <= ToMicro(budget)))
      && (Spendable(r, budget, enhanceSteps) < 0.0 ==>
            (Sufficient(r, budget, stepCount, enhanceSteps) <==> enhanceSteps >= steps))
  {
    hide OnGrid, ToMicro, AffordableIntermediate, Spendable, ForecastMicro;
    var steps := if stepCount < 1 then 1 else stepCount;
    var most := steps - enhanceSteps;
    SpendableCovers(r, budget, enhanceSteps, most);
    ForecastFits(r, budget, most, enhanceSteps);
    DollarsSplit(r, budget, enhanceSteps, most as real * r.intermediateReserve);
  }

  lemma DollarsSplit(r: Rates, budget: Usd, enhanceSteps: nat, generations: real)
    ensures generations <= Spendable(r, budget, enhanceSteps)
       <==> r.llmOverhead + generations + enhanceSteps as real * r.enhanceReserve <= budget
  {
  }

  /** At least `n` generations are affordable exactly when they cost no more than what there is to spend. */
  lemma SpendableCovers(r: Rates, budget: Usd, enhanceSteps: nat, n: int)
    requires r.intermediateReserve > 0.0
    ensures Spendable(r, budget, enhanceSteps) >= 0.0 ==>
      (n <= AffordableIntermediate(r, budget, enhanceSteps)
       <==> n as real * r.intermediateReserve <= Spendable(r, budget, enhanceSteps))
    ensures Spendable(r, budget, enhanceSteps) < 0.0 ==> AffordableIntermediate(r, budget, enhanceSteps) == 0
  {
    hide Spendable;
    var spendable := Spendable(r, budget, enhanceSteps);
    if spendable > 0.0 {
      WholeTimes(spendable, r.intermediateReserve);
      WholeTimesIff(spendable, r.intermediateReserve, AffordableIntermediate(r, budget, enhanceSteps), n);
    } else if spendable == 0.0 {
      WholeTimesIff(spendable, r.intermediateReserve, 0, n);
    }
  }

  /** With `low` whole units in `x`, `n` units fit exactly when `n` is at most `low`. */
  lemma WholeTimesIff(x: real, unit: real, low: int, n: int)
    requires unit > 0.0 && low as real * unit <= x < (low as real + 1.0) * unit
    ensures n <= low <==> n as real * unit <= x
  {
    if n <= low {
      Ordered(n as real, low as real, unit);
    } else {
      BelowMore(x, low as real + 1.0, n as real, unit);
    }
  }

  lemma BelowMore(x: real, above: real, more: real, unit: real)
    requires unit > 0.0 && x < above * unit && above <= more
    ensures x < more * unit
  {
    Ordered(above, more, unit);
  }

  lemma MoreCosts(n: int, m: int, price: int)
    requires n <= m && price >= 0
    ensures n * price <= m * price
  {
  }

  // ----- Against the ledger -----

  datatype Purchase = Auxiliary | Intermediate | Enhance

  /** One action on the session's ledger; a reservation says what it is for. */
  datatype Move = Buy(kind: Purchase, estimate: Usd) | Other(action: Ledger.Action)

  /** The ledger with the purpose of each of its slots. */
  datatype Account = Account(ledger: Ledger.Ledger, kinds: seq<Purchase>)

  function ActionOf(m: Move, budget: Usd): Ledger.Action {
    match m
    case Buy(_, estimate) => Ledger.Reserve(estimate, ToMicro(budget))
    case Other(action) => action
  }

  function Moved(a: Account, m: Move, budget: Usd): Account {
    var ledger := Ledger.Step(a.ledger, ActionOf(m, budget));
    Account(ledger, if m.Buy? && |ledger.slots| > |a.ledger.slots| then a.kinds + [m.kind] else a.kinds)
  }

  function After(moves: seq<Move>, budget: Usd): Account {
    if moves == [] then Account(Ledger.EMPTY, [])
    else Moved(After(moves[..|moves| - 1], budget), moves[|moves| - 1], budget)
  }

  function Count(moves: seq<Move>, kind: Purchase): nat {
    if moves == [] then 0
    else
      var last := moves[|moves| - 1];
      Count(moves[..|moves| - 1], kind) + (if last.Buy? && last.kind == kind then 1 else 0)
  }

  function SlotsOf(kinds: seq<Purchase>, kind: Purchase): nat {
    if kinds == [] then 0
    else SlotsOf(kinds[..|kinds| - 1], kind) + (if kinds[|kinds| - 1] == kind then 1 else 0)
  }

  /** What the slots of one purpose occupy on the counter: open estimates and settled amounts. */
  function Spent(slots: seq<Ledger.Slot>, kinds: seq<Purchase>, kind: Purchase): int
    requires |slots| == |kinds|
  {
    if slots == [] then 0
    else
      var n := |slots| - 1;
      Spent(slots[..n], kinds[..n], kind) + (if kinds[n] == kind then Ledger.Weight(slots[n]) else 0)
  }

  function PriceOf(r: Rates, kind: Purchase): int {
    match kind
    case Auxiliary => ToMicro(r.llmOverhead)
    case Intermediate => ToMicro(r.intermediateReserve)
    case Enhance => ToMicro(r.enhanceReserve)
  }

  /** A move within the forecast. A generation is reserved at most at its forecast price, while the auxiliary spend is
      within the overhead, and settled at most at that price. Auxiliary calls reserve and settle whatever they do. */
  predicate Fits(r: Rates, a: Account, m: Move)
    requires |a.ledger.slots| == |a.kinds|
  {
    match m
    case Buy(kind, estimate) =>
      kind.Auxiliary? || (ToMicro(estimate) <= PriceOf(r, kind)
                          && Spent(a.ledger.slots, a.kinds, Auxiliary) <= ToMicro(r.llmOverhead))
    case Other(action) =>
      !action.Reserve?
      && (action.Settle? && action.billed.Some? && action.slot < |a.kinds| && a.ledger.slots[action.slot].Held?
          && !a.kinds[action.slot].Auxiliary?
          ==> ToMicro(action.billed.value) <= PriceOf(r, a.kinds[action.slot]))
  }

  /** One purpose per slot, money conserved, and no generation slot above its price. */
  predicate Sound(r: Rates, a: Account) {
    && |a.ledger.slots| == |a.kinds| && Ledger.Conserved(a.ledger)
    && forall i | 0 <= i < |a.kinds| && !a.kinds[i].Auxiliary? :: SlotWithin(a.ledger.slots[i], PriceOf(r, a.kinds[i]))
  }

  predicate SlotWithin(slot: Ledger.Slot, price: int) {
    ToMicro(slot.estimate) <= price && (!slot.Held? ==> ToMicro(Ledger.Final(slot.outcome)) <= price)
  }

  predicate InForecast(r: Rates, budget: Usd, moves: seq<Move>) {
    moves == []
    || (var front := moves[..|moves| - 1];
        InForecast(r, budget, front) && |After(front, budget).ledger.slots| == |After(front, budget).kinds|
        && Fits(r, After(front, budget), moves[|moves| - 1]))
  }

  lemma MoveSound(r: Rates, a: Account, m: Move, budget: Usd)
    requires Sound(r, a) && Fits(r, a, m) && Priced(r)
    ensures Sound(r, Moved(a, m, budget))
  {
    Ledger.StepConserves(a.ledger, ActionOf(m, budget));
    ToMicroNonNegative(0.0);
    ToMicroNonNegative(r.intermediateReserve);
    ToMicroNonNegative(r.enhanceReserve);
    hide ToMicro, Ledger.Conserved;
  }

  lemma {:induction false} ForecastInvariant(r: Rates, budget: Usd, moves: seq<Move>)
    requires Priced(r) && InForecast(r, budget, moves)
    ensures Sound(r, After(moves, budget))
    ensures forall kind :: SlotsOf(After(moves, budget).kinds, kind) <= Count(moves, kind)
  {
    hide Sound, Fits, Priced;
    if moves == [] {
      EmptySound(r);
    } else {
      var front, m := moves[..|moves| - 1], moves[|moves| - 1];
      ForecastInvariant(r, budget, front);
      MoveSound(r, After(front, budget), m, budget);
      var kinds := After(front, budget).kinds;
      assert m.Buy? ==> (kinds + [m.kind])[..|kinds|] == kinds;
    }
  }

  lemma EmptySound(r: Rates)
    ensures Sound(r, Account(Ledger.EMPTY, []))
  {
  }

  /** The counter splits by purpose. */
  lemma {:induction false} WeightsByKind(slots: seq<Ledger.Slot>, kinds: seq<Purchase>)
    requires |slots| == |kinds|
    ensures Ledger.Weights(slots)
         == Spent(slots, kinds, Auxiliary) + Spent(slots, kinds, Intermediate) + Spent(slots, kinds, Enhance)
  {
    hide Ledger.Weight;
    if slots != [] {
      WeightsByKind(slots[..|slots| - 1], kinds[..|slots| - 1]);
    }
  }

  lemma {:induction false} SpentWithin(slots: seq<Ledger.Slot>, kinds: seq<Purchase>, kind: Purchase, price: int)
    requires |slots| == |kinds|
    requires forall i | 0 <= i < |kinds| && kinds[i] == kind :: Ledger.Weight(slots[i]) <= price
    ensures Spent(slots, kinds, kind) <= SlotsOf(kinds, kind) * price
  {
    hide Ledger.Weight;
    if slots != [] {
      var n := |slots| - 1;
      SpentWithin(slots[..n], kinds[..n], kind, price);
      Distributes(SlotsOf(kinds[..n], kind), price);
    }
  }

  lemma Distributes(n: int, price: int)
    ensures (n + 1) * price == n * price + price
  {
  }

  lemma KindWithin(r: Rates, a: Account, kind: Purchase, most: nat)
    requires Sound(r, a) && Priced(r) && !kind.Auxiliary? && SlotsOf(a.kinds, kind) <= most
    ensures Spent(a.ledger.slots, a.kinds, kind) <= most * PriceOf(r, kind)
  {
    ToMicroNonNegative(r.intermediateReserve);
    ToMicroNonNegative(r.enhanceReserve);
    hide ToMicro;
    SpentWithin(a.ledger.slots, a.kinds, kind, PriceOf(r, kind));
    MoreCosts(SlotsOf(a.kinds, kind), most, PriceOf(r, kind));
  }

  /** Forecast soundness. With a non-negative spendable, every generation reservation of a session is granted as long as
      it is among the affordable ones, generations are reserved and settled within their forecast prices, and the
      auxiliary spend at that moment, open or settled, is within the forecast overhead; in whatever order the session
      reserves, settles and cancels. */
  lemma ForecastSound(r: Rates, budget: Usd, enhanceSteps: nat, moves: seq<Move>)
    requires Priced(r) && Spendable(r, budget, enhanceSteps) >= 0.0
    requires InForecast(r, budget, moves)
    requires moves != [] && moves[|moves| - 1].Buy? && !moves[|moves| - 1].kind.Auxiliary?
    requires Count(moves, Intermediate) <= AffordableIntermediate(r, budget, enhanceSteps)
    requires Count(moves, Enhance) <= enhanceSteps
    ensures var before, after := After(moves[..|moves| - 1], budget), After(moves, budget);
      && after.ledger.refusals == before.ledger.refusals
      && after.ledger.slots == before.ledger.slots + [Ledger.Held(moves[|moves| - 1].estimate)]
  {
    var front, m := moves[..|moves| - 1], moves[|moves| - 1];
    var a := After(front, budget);
    AffordableFitsIff(r, budget, enhanceSteps);
    hide ToMicro, AffordableIntermediate, Spendable, OnGrid, Ledger.Weight;
    ForecastInvariant(r, budget, front);
    WeightsByKind(a.ledger.slots, a.kinds);
    var n, e := Count(moves, Intermediate), Count(moves, Enhance);
    var n', e' := Count(front, Intermediate), Count(front, Enhance);
    KindWithin(r, a, Intermediate, n');
    KindWithin(r, a, Enhance, e');
    Distributes(n', ToMicro(r.intermediateReserve));
    Distributes(e', ToMicro(r.enhanceReserve));
    PricesNonNegative(r);
    MoreCosts(n, AffordableIntermediate(r, budget, enhanceSteps), ToMicro(r.intermediateReserve));
    MoreCosts(e, enhanceSteps, ToMicro(r.enhanceReserve));
  }

  lemma PricesNonNegative(r: Rates)
    ensures ToMicro(r.intermediateReserve) >= 0 && ToMicro(r.enhanceReserve) >= 0
  {
    ToMicroNonNegative(r.intermediateReserve);
    ToMicroNonNegative(r.enhanceReserve);
  }

  /** Forecast tightness: on a grid budget, once everything the forecast affords was reserved at its prices and every
      slot ended on what it reserved, one more 1K reservation is refused. */
  lemma ForecastTight(r: Rates, budget: Usd, enhanceSteps: nat, actions: seq<Ledger.Action>)
    requires Priced(r) && OnGrid(budget)
    requires Ledger.Requested(actions) == ForecastMicro(r, AffordableIntermediate(r, budget, enhanceSteps),
        enhanceSteps)
    requires var s := Ledger.Ran(Ledger.EMPTY, actions);
      s.refusals == 0 && forall i | 0 <= i < |s.slots| :: Ledger.Weight(s.slots[i]) == ToMicro(s.slots[i].estimate)
    ensures var s := Ledger.Ran(Ledger.EMPTY, actions);
      Ledger.Step(s, Ledger.Reserve(r.intermediateReserve, ToMicro(budget))).refusals == 1
  {
    Ledger.SpentInFull(actions);
    OneMoreDoesNotFit(r, budget, enhanceSteps);
    Distributes(AffordableIntermediate(r, budget, enhanceSteps), ToMicro(r.intermediateReserve));
  }

  // ----- From the pricing table -----

  /** The rates of a preset's nominal prompt: one reference photo, the face crop's detail, both output sizes. */
  function RatesOf(t: Pricing.Table, promptChars: nat, faceDetail: Option<nat>, llmOverhead: Usd): Rates
    requires t.charsPerToken > 0
  {
    Pricing.ReserveCoversForecast(t, promptChars, promptChars, 1, false, faceDetail);
    Pricing.ReserveCoversForecast(t, promptChars, promptChars, 1, true, faceDetail);
    Rates(Pricing.GenerationReserve(t, promptChars, 1, false, faceDetail),
          Pricing.GenerationReserve(t, promptChars, 1, true, faceDetail), llmOverhead)
  }

  /** The table's reservations are grid amounts, so the forecast theorems apply to them, whenever a 1K generation is not
      free; and a run whose prompts are no longer than the nominal one reserves at most the forecast price. */
  lemma TableRates(t: Pricing.Table, promptChars: nat, shorter: nat, faceDetail: Option<nat>, llmOverhead: Usd)
    requires t.charsPerToken > 0 && shorter <= promptChars && OnGrid(llmOverhead)
    requires Pricing.GenerationReserve(t, promptChars, 1, false, faceDetail) > 0.0
    ensures var r := RatesOf(t, promptChars, faceDetail, llmOverhead);
      && Priced(r)
      && ToMicro(Pricing.GenerationReserve(t, shorter, 1, false, faceDetail)) <= ToMicro(r.intermediateReserve)
      && ToMicro(Pricing.GenerationReserve(t, shorter, 1, true, faceDetail)) <= ToMicro(r.enhanceReserve)
  {
    hide Pricing.PredictedMicro, OnGrid, Pricing.TimesSafety, Pricing.GenerationReserve, Pricing.PredictGenerationCost;
    hide FromMicro, ToMicro;
    Pricing.ReserveCoversForecast(t, promptChars, promptChars, 1, false, faceDetail);
    Pricing.ReserveCoversForecast(t, promptChars, promptChars, 1, true, faceDetail);
    Pricing.ReserveCoversForecast(t, shorter, promptChars, 1, false, faceDetail);
    Pricing.ReserveCoversForecast(t, shorter, promptChars, 1, true, faceDetail);
    ToMicroMonotone(Pricing.GenerationReserve(t, shorter, 1, false, faceDetail),
                    Pricing.GenerationReserve(t, promptChars, 1, false, faceDetail));
    ToMicroMonotone(Pricing.GenerationReserve(t, shorter, 1, true, faceDetail),
                    Pricing.GenerationReserve(t, promptChars, 1, true, faceDetail));
  }
}
