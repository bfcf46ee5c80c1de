/** The budget ledger under concurrency: any number of meters and reservations of one session, interleaved
    at the granularity of the store's atomic steps (src/services/budget.py, src/utils/lua.py). */
module Ledger {
  import opened Schemas
  import opened Money
  import opened BudgetOps

  /** A reservation. `Closing` has flipped its flag but its adjustment has not reached the store. */
  datatype Slot =
    | Held(estimate: Usd)
    | Closing(estimate: Usd, outcome: Option<Usd>)
    | Closed(estimate: Usd, outcome: Option<Usd>)

  /** The counter, every granted reservation, how many reservations were refused and how many closes raised. */
  datatype Ledger = Ledger(counter: int, slots: seq<Slot>, refusals: nat, errors: nat)

  datatype Action =
    | Reserve(estimate: Usd, limitMicro: int)
    | Settle(slot: nat, billed: Option<Usd>)
    | Cancel(slot: nat)
    | Adjust(slot: nat)

  const EMPTY: Ledger := Ledger(0, [], 0, 0)

  /** Dollars a closing slot ends on: what was settled, nothing when cancelled. */
  function Final(outcome: Option<Usd>): Usd {
    outcome.GetOr(0.0)
  }

  function Delta(estimate: Usd, outcome: Option<Usd>): int {
    ToMicro(Final(outcome)) - ToMicro(estimate)
  }

  /** Closing flips the flag; a second close raises. A cancel always adjusts, a settle only when the billed
      cost rounds to another amount. */
  function Close(s: Ledger, slot: nat, outcome: Option<Usd>): Ledger {
    if slot < |s.slots| && s.slots[slot].Held? then
      var estimate := s.slots[slot].estimate;
      s.(slots := s.slots[slot := if outcome.Some? && Delta(estimate, outcome) == 0
                                  then Closed(estimate, outcome)
                                  else Closing(estimate, outcome)])
    else s.(errors := s.errors + 1)
  }

  function Step(s: Ledger, a: Action): Ledger {
    match a
    case Reserve(estimate, limitMicro) =>
      if Admits(s.counter, ToMicro(estimate), limitMicro)
      then s.(counter := s.counter + ToMicro(estimate), slots := s.slots + [Held(estimate)])
      else s.(refusals := s.refusals + 1)
    case Settle(slot, billed) =>
      if slot < |s.slots| && s.slots[slot].Held?
      then Close(s, slot, Some(SettledCost(s.slots[slot].estimate, billed)))
      else s.(errors := s.errors + 1)
    case Cancel(slot) => Close(s, slot, None)
    case Adjust(slot) =>
      if slot < |s.slots| && s.slots[slot].Closing? then
        var closing := s.slots[slot];
        s.(counter := Adjusted(s.counter, Delta(closing.estimate, closing.outcome)),
           slots := s.slots[slot := Closed(closing.estimate, closing.outcome)])
      else s
  }

  function Ran(s: Ledger, actions: seq<Action>): Ledger {
    if actions == [] then s else Step(Ran(s, actions[..|actions| - 1]), actions[|actions| - 1])
  }

  // ----- Conservation -----

  /** What a slot occupies on the counter: its estimate until the adjustment lands, then what it settled on. */
  function Weight(slot: Slot): int {
    match slot
    case Held(estimate) => ToMicro(estimate)
    case Closing(estimate, _) => ToMicro(estimate)
    case Closed(_, outcome) => ToMicro(Final(outcome))
  }

  function Weights(slots: seq<Slot>): int {
    if slots == [] then 0 else Weights(slots[..|slots| - 1]) + Weight(slots[|slots| - 1])
  }

  lemma {:induction false} WeightsUpdate(slots: seq<Slot>, i: nat, slot: Slot)
    requires i < |slots|
    ensures Weights(slots[i := slot]) == Weights(slots) - Weight(slots[i]) + Weight(slot)
  {
    var front := slots[..|slots| - 1];
    if i < |slots| - 1 {
      WeightsUpdate(front, i, slot);
      assert slots[i := slot][..|slots| - 1] == front[i := slot];
    } else {
      assert slots[i := slot][..|slots| - 1] == front;
    }
  }

  lemma {:induction false} WeightWithin(slots: seq<Slot>, i: nat)
    requires i < |slots|
    ensures 0 <= Weight(slots[i]) <= Weights(slots)
  {
    var front := slots[..|slots| - 1];
    WeightNonNegative(slots[|slots| - 1]);
    if i < |slots| - 1 {
      WeightWithin(front, i);
    } else {
      WeightsNonNegative(front);
    }
  }

  lemma WeightNonNegative(slot: Slot)
    ensures Weight(slot) >= 0
  {
    match slot
    case Held(estimate) => ToMicroNonNegative(estimate);
    case Closing(estimate, _) => ToMicroNonNegative(estimate);
    case Closed(_, outcome) => ToMicroNonNegative(Final(outcome));
  }

  lemma {:induction false} WeightsNonNegative(slots: seq<Slot>)
    ensures Weights(slots) >= 0
  {
    if slots != [] {
      WeightsNonNegative(slots[..|slots| - 1]);
      WeightNonNegative(slots[|slots| - 1]);
    }
  }

  predicate Conserved(s: Ledger) {
    s.counter == Weights(s.slots)
  }

  /** The zero floor never fires on a conserving ledger: an adjustment moves the counter by exactly its delta. */
  lemma FloorNeverFires(s: Ledger, slot: nat)
    requires Conserved(s) && slot < |s.slots| && s.slots[slot].Closing?
    ensures var delta := Delta(s.slots[slot].estimate, s.slots[slot].outcome);
      Adjusted(s.counter, delta) == s.counter + delta
  {
    hide ToMicro;
    WeightWithin(s.slots, slot);
    ToMicroNonNegative(Final(s.slots[slot].outcome));
  }

  lemma StepConserves(s: Ledger, a: Action)
    requires Conserved(s)
    ensures Conserved(Step(s, a))
  {
    match a
    case Reserve(estimate, _) =>
      assert (s.slots + [Held(estimate)])[..|s.slots|] == s.slots;
    case Settle(slot, billed) =>
      if slot < |s.slots| && s.slots[slot].Held? {
        WeightsUpdate(s.slots, slot, Step(s, a).slots[slot]);
      }
    case Cancel(slot) =>
      if slot < |s.slots| && s.slots[slot].Held? {
        WeightsUpdate(s.slots, slot, Step(s, a).slots[slot]);
      }
    case Adjust(slot) =>
      if slot < |s.slots| && s.slots[slot].Closing? {
        FloorNeverFires(s, slot);
        WeightsUpdate(s.slots, slot, Step(s, a).slots[slot]);
      }
  }

  /** Conservation: under any interleaving the counter is the open estimates plus the settled amounts. */
  lemma {:induction false} LedgerConserved(actions: seq<Action>)
    ensures Ran(EMPTY, actions).counter == Weights(Ran(EMPTY, actions).slots) >= 0
  {
    if actions != [] {
      LedgerConserved(actions[..|actions| - 1]);
      StepConserves(Ran(EMPTY, actions[..|actions| - 1]), actions[|actions| - 1]);
    }
    WeightsNonNegative(Ran(EMPTY, actions).slots);
  }

  // ----- Each reservation closes once -----

  /** `later` continues `now`: same estimate, and a close that was decided stays as decided. */
  predicate Continues(now: Slot, later: Slot) {
    && later.estimate == now.estimate
    && (now.Closing? ==> !later.Held? && later.outcome == now.outcome)
    && (now.Closed? ==> later == now)
  }

  /** No later action undoes, repeats or changes a close, and no reservation disappears. */
  lemma {:induction false} ClosesOnce(s: Ledger, actions: seq<Action>, slot: nat)
    requires slot < |s.slots|
    ensures var later := Ran(s, actions).slots; slot < |later| && Continues(s.slots[slot], later[slot])
  {
    if actions != [] {
      ClosesOnce(s, actions[..|actions| - 1], slot);
    }
  }

  /** A close on a slot that is no longer held raises and leaves money and slots alone. */
  lemma SecondCloseRaises(s: Ledger, actions: seq<Action>, slot: nat, a: Action)
    requires slot < |s.slots| && !s.slots[slot].Held?
    requires a == Cancel(slot) || (a.Settle? && a.slot == slot)
    ensures var later := Ran(s, actions); Step(later, a) == later.(errors := later.errors + 1)
  {
    ClosesOnce(s, actions, slot);
  }

  // ----- Overdraw -----

  /** How far past its estimate a slot settled. */
  function Overrun(slot: Slot): int {
    if slot.Closed? && Delta(slot.estimate, slot.outcome) > 0 then Delta(slot.estimate, slot.outcome) else 0
  }

  function Overruns(slots: seq<Slot>): int {
    if slots == [] then 0 else Overruns(slots[..|slots| - 1]) + Overrun(slots[|slots| - 1])
  }

  lemma {:induction false} OverrunsUpdate(slots: seq<Slot>, i: nat, slot: Slot)
    requires i < |slots|
    ensures Overruns(slots[i := slot]) == Overruns(slots) - Overrun(slots[i]) + Overrun(slot)
  {
    var front := slots[..|slots| - 1];
    if i < |slots| - 1 {
      OverrunsUpdate(front, i, slot);
      assert slots[i := slot][..|slots| - 1] == front[i := slot];
    } else {
      assert slots[i := slot][..|slots| - 1] == front;
    }
  }

  lemma {:induction false} OverrunsNonNegative(slots: seq<Slot>)
    ensures Overruns(slots) >= 0
  {
    if slots != [] {
      OverrunsNonNegative(slots[..|slots| - 1]);
    }
  }

  predicate LimitsWithin(actions: seq<Action>, limitMicro: int) {
    forall a | a in actions && a.Reserve? :: a.limitMicro <= limitMicro
  }

  lemma StepOverdraw(s: Ledger, a: Action, limitMicro: int)
    requires Conserved(s) && s.counter <= limitMicro + Overruns(s.slots)
    requires a.Reserve? ==> a.limitMicro <= limitMicro
    ensures Step(s, a).counter <= limitMicro + Overruns(Step(s, a).slots)
  {
    hide ToMicro;
    OverrunsNonNegative(s.slots);
    match a
    case Reserve(estimate, _) =>
      assert (s.slots + [Held(estimate)])[..|s.slots|] == s.slots;
    case Settle(slot, billed) =>
      if slot < |s.slots| && s.slots[slot].Held? {
        OverrunsUpdate(s.slots, slot, Step(s, a).slots[slot]);
      }
    case Cancel(slot) =>
      if slot < |s.slots| && s.slots[slot].Held? {
        OverrunsUpdate(s.slots, slot, Step(s, a).slots[slot]);
      }
    case Adjust(slot) =>
      if slot < |s.slots| && s.slots[slot].Closing? {
        FloorNeverFires(s, slot);
        OverrunsUpdate(s.slots, slot, Step(s, a).slots[slot]);
      }
  }

  /** Overdraw bound: the counter never passes the limit by more than the settles overran their estimates. */
  lemma {:induction false} OverdrawBound(actions: seq<Action>, limitMicro: int)
    requires limitMicro >= 0 && LimitsWithin(actions, limitMicro)
    ensures Ran(EMPTY, actions).counter <= limitMicro + Overruns(Ran(EMPTY, actions).slots)
  {
    if actions != [] {
      var front := actions[..|actions| - 1];
      OverdrawBound(front, limitMicro);
      LedgerConserved(front);
      StepOverdraw(Ran(EMPTY, front), actions[|actions| - 1], limitMicro);
    }
  }

  /** Every settled cost rounds to at most its estimate. */
  predicate WithinEstimates(s: Ledger) {
    forall i | 0 <= i < |s.slots| :: Overrun(s.slots[i]) == 0
  }

  lemma {:induction false} NoOverruns(slots: seq<Slot>)
    requires forall i | 0 <= i < |slots| :: Overrun(slots[i]) == 0
    ensures Overruns(slots) == 0
  {
    if slots != [] {
      NoOverruns(slots[..|slots| - 1]);
    }
  }

  /** Never past the limit when every settle stayed within its estimate. */
  lemma NeverPastLimit(actions: seq<Action>, limitMicro: int)
    requires limitMicro >= 0 && LimitsWithin(actions, limitMicro)
    requires WithinEstimates(Ran(EMPTY, actions))
    ensures Ran(EMPTY, actions).counter <= limitMicro
  {
    OverdrawBound(actions, limitMicro);
    NoOverruns(Ran(EMPTY, actions).slots);
  }

  /** A settle passes the limit exactly when the overrun is larger than the headroom left by the counter. */
  lemma SettlePassesLimitIff(actions: seq<Action>, slot: nat, billed: Usd, limitMicro: int)
    requires var s := Ran(EMPTY, actions); slot < |s.slots| && s.slots[slot].Held?
    ensures var s := Ran(EMPTY, actions);
      var settled := Ran(EMPTY, actions + [Settle(slot, Some(billed))] + [Adjust(slot)]);
      settled.counter > limitMicro <==> ToMicro(billed) - ToMicro(s.slots[slot].estimate) > limitMicro - s.counter
  {
    var s := Ran(EMPTY, actions);
    LedgerConserved(actions);
    RanTwo(EMPTY, actions, Settle(slot, Some(billed)), Adjust(slot));
    StepConserves(s, Settle(slot, Some(billed)));
    var closing := Step(s, Settle(slot, Some(billed)));
    if closing.slots[slot].Closing? {
      FloorNeverFires(closing, slot);
    }
  }

  lemma RanTwo(s: Ledger, actions: seq<Action>, a: Action, b: Action)
    ensures Ran(s, actions + [a] + [b]) == Step(Step(Ran(s, actions), a), b)
  {
    assert (actions + [a] + [b])[..|actions| + 1] == actions + [a];
    assert (actions + [a])[..|actions|] == actions;
  }

  // ----- One reservation alone is the meter's contract -----

  /** A settle whose adjustment lands at once moves the counter as the reservation's contract says. */
  lemma SettleIsAtomicAlone(s: Ledger, slot: nat, billed: Option<Usd>)
    requires slot < |s.slots| && s.slots[slot].Held?
    ensures Step(Step(s, Settle(slot, billed)), Adjust(slot)).counter
         == SettledCounter(s.counter, s.slots[slot].estimate, billed)
    ensures Step(Step(s, Cancel(slot)), Adjust(slot)).counter == CancelledCounter(s.counter, s.slots[slot].estimate)
  {
    assert ToMicro(0.0) == 0;
  }

  // ----- Refusals -----

  /** What every requested reservation would hold together. */
  function Requested(actions: seq<Action>): int {
    if actions == [] then 0
    else
      var a := actions[|actions| - 1];
      Requested(actions[..|actions| - 1]) + (if a.Reserve? then ToMicro(a.estimate) else 0)
  }

  predicate BillsWithin(s: Ledger, a: Action) {
    a.Settle? && a.billed.Some? && a.slot < |s.slots| ==> ToMicro(a.billed.value) <= ToMicro(s.slots[a.slot].estimate)
  }

  /** Every settle of the run bills at most what its reservation holds. */
  predicate AllBillsWithin(s: Ledger, actions: seq<Action>) {
    forall k | 0 <= k < |actions| :: BillsWithin(Ran(s, actions[..k]), actions[k])
  }

  predicate NeverGrows(s: Ledger) {
    forall i | 0 <= i < |s.slots| && !s.slots[i].Held? :: Delta(s.slots[i].estimate, s.slots[i].outcome) <= 0
  }

  lemma StepNeverGrows(s: Ledger, a: Action)
    requires Conserved(s) && NeverGrows(s) && BillsWithin(s, a)
    ensures NeverGrows(Step(s, a))
    ensures Step(s, a).counter <= s.counter + (if a.Reserve? then ToMicro(a.estimate) else 0)
  {
    if a.Reserve? {
      ToMicroNonNegative(a.estimate);
    } else if a.slot < |s.slots| {
      ToMicroNonNegative(s.slots[a.slot].estimate);
      ToMicroNonNegative(0.0);
      if a.Adjust? && s.slots[a.slot].Closing? {
        FloorNeverFires(s, a.slot);
      }
    }
  }

  /** No refusal: when everything requested together fits every limit used and no bill passes its estimate,
      every reservation is granted, whatever the order of reservations, settles and cancels. */
  lemma {:induction false} AllGranted(actions: seq<Action>, limitMicro: int)
    requires AllBillsWithin(EMPTY, actions) && Requested(actions) <= limitMicro
    requires forall a | a in actions && a.Reserve? :: a.limitMicro >= limitMicro
    ensures var s := Ran(EMPTY, actions);
      s.refusals == 0 && NeverGrows(s) && s.counter <= Requested(actions)
  {
    if actions != [] {
      var front, a := actions[..|actions| - 1], actions[|actions| - 1];
      assert forall k | 0 <= k < |front| :: front[..k] == actions[..k];
      if a.Reserve? {
        ToMicroNonNegative(a.estimate);
      }
      assert BillsWithin(Ran(EMPTY, actions[..|actions| - 1]), actions[|actions| - 1]);
      AllGranted(front, limitMicro);
      LedgerConserved(front);
      StepNeverGrows(Ran(EMPTY, front), a);
    }
  }

  function Estimates(slots: seq<Slot>): int {
    if slots == [] then 0 else Estimates(slots[..|slots| - 1]) + ToMicro(slots[|slots| - 1].estimate)
  }

  lemma {:induction false} EstimatesKept(slots: seq<Slot>, i: nat, slot: Slot)
    requires i < |slots| && slot.estimate == slots[i].estimate
    ensures Estimates(slots[i := slot]) == Estimates(slots)
  {
    var front := slots[..|slots| - 1];
    if i < |slots| - 1 {
      EstimatesKept(front, i, slot);
      assert slots[i := slot][..|slots| - 1] == front[i := slot];
    } else {
      assert slots[i := slot][..|slots| - 1] == front;
    }
  }

  lemma StepEstimates(s: Ledger, a: Action)
    ensures Step(s, a).refusals == s.refusals ==>
      Estimates(Step(s, a).slots) == Estimates(s.slots) + (if a.Reserve? then ToMicro(a.estimate) else 0)
    ensures Step(s, a).refusals >= s.refusals
  {
    hide ToMicro, Adjusted;
    if a.Reserve? {
      assert (s.slots + [Held(a.estimate)])[..|s.slots|] == s.slots;
    } else if a.slot < |s.slots| {
      var s' := Step(s, a);
      if s'.slots != s.slots {
        EstimatesKept(s.slots, a.slot, s'.slots[a.slot]);
      }
    }
  }

  /** Without a refusal the slots hold estimates for everything requested. */
  lemma {:induction false} EstimatesRequested(actions: seq<Action>)
    requires Ran(EMPTY, actions).refusals == 0
    ensures Estimates(Ran(EMPTY, actions).slots) == Requested(actions)
  {
    if actions != [] {
      var front := actions[..|actions| - 1];
      StepEstimates(Ran(EMPTY, front), actions[|actions| - 1]);
      EstimatesRequested(front);
    }
  }

  lemma {:induction false} WeightsAreEstimates(slots: seq<Slot>)
    requires forall i | 0 <= i < |slots| :: Weight(slots[i]) == ToMicro(slots[i].estimate)
    ensures Weights(slots) == Estimates(slots)
  {
    if slots != [] {
      WeightsAreEstimates(slots[..|slots| - 1]);
    }
  }

  /** Spent in full: with nothing refused and every slot still on, or settled at, its estimate, the counter is
      everything
      requested. */
  lemma SpentInFull(actions: seq<Action>)
    requires var s := Ran(EMPTY, actions);
      s.refusals == 0 && forall i | 0 <= i < |s.slots| :: Weight(s.slots[i]) == ToMicro(s.slots[i].estimate)
    ensures Ran(EMPTY, actions).counter == Requested(actions)
  {
    LedgerConserved(actions);
    EstimatesRequested(actions);
    WeightsAreEstimates(Ran(EMPTY, actions).slots);
  }
}
