/** The session's counter against its record: every paid call of every node is on the record, except fills that were
    billed and then rejected (src/graph/nodes.py). */
module SessionMoney {
  import opened Schemas
  import opened Money
  import opened Text
  import opened BudgetOps
  import opened ChainSpec
  import opened SessionGraph
  import opened SessionRuns
  import ChainMoney

  /** The counter covers the record, to the micro-dollar apart from the rejected fills; a raise may leave more. */
  predicate MoneyInv(g: Graph) {
    && g.durable.counter >= 0 && g.unrecorded >= 0
    && ChainMoney.Surplus(g.durable) >= g.unrecorded
    && (!g.crashed ==> ChainMoney.Surplus(g.durable) == g.unrecorded)
  }

  /** An auxiliary call moves the counter by exactly its cost: a refused or refunded one not at all. */
  lemma CallMoney(inp: Inputs, g: Graph, kind: PaidCallKind, call: Aux)
    requires g.durable.counter >= 0
    ensures AuxCounter(inp, g, kind, call) == g.durable.counter + ToMicro(AuxCost(inp, g, kind, call))
    ensures ToMicro(AuxCost(inp, g, kind, call)) >= 0
  {
    ToMicroNonNegative(0.0);
    ToMicroNonNegative(FlatEstimate(inp, kind));
    ToMicroNonNegative(AuxCost(inp, g, kind, call));
    hide ToMicro;
  }

  /** The micro-dollars a log settled. */
  function SettledMicro(ops: seq<Op>): int {
    if ops == [] then 0
    else SettledMicro(ops[..|ops| - 1]) + (if ops[|ops| - 1].Settled? then ops[|ops| - 1].micro else 0)
  }

  /** The log of an auxiliary call says what it did: nothing when it was not needed; else one reservation at the flat
      price, granted exactly when it fits the limit, and behind a granted one its settlement or full refund. What the
      log settles is what the call put on the counter. */
  lemma CallLogTells(inp: Inputs, g: Graph, kind: PaidCallKind, call: Aux)
    requires g.durable.counter >= 0
    ensures var ops, flat := AuxOps(inp, g, kind, call), ToMicro(inp.flat(kind));
      var granted := Admits(g.durable.counter, flat, ToMicro(g.durable.session.budgetLimit));
      && (ops == [] <==> call.NotNeeded?)
      && (ops != [] ==> ops[0] == Reserved(kind, flat, granted) && |ops| == (if granted then 2 else 1))
      && (|ops| == 2 ==> if call.Billed? then ops[1].Settled? else ops[1] == Op.Cancelled(flat))
      && AuxCounter(inp, g, kind, call) == g.durable.counter + SettledMicro(ops)
  {
    CallMoney(inp, g, kind, call);
    ToMicroNonNegative(inp.flat(kind));
    var ops := AuxOps(inp, g, kind, call);
    assert ToMicro(0.0) == 0;
    hide ToMicro;
    if |ops| == 2 {
      assert ops == [ops[0]] + [ops[1]];
      SettledOfTwo(ops[0], ops[1]);
    } else if |ops| == 1 {
      assert ops[..0] == [];
    }
  }

  lemma SettledOfTwo(a: Op, b: Op)
    ensures SettledMicro([a] + [b]) == (if a.Settled? then a.micro else 0) + (if b.Settled? then b.micro else 0)
  {
    assert ([a] + [b])[..1] == [a] && [a][..0] == [];
    assert SettledMicro([a]) == (if a.Settled? then a.micro else 0);
  }

  lemma RecordedCall(s: Session, kind: PaidCallKind, cost: Usd)
    ensures RecordMicro(WithCall(s, kind, cost)) == RecordMicro(s) + ToMicro(cost)
  {
    ToMicroNonNegative(cost);
    ChainMoney.RecordWithCall(s, PaidCall(kind, cost));
  }

  lemma SameSpend(s: Session, s': Session)
    requires s'.iterations == s.iterations && s'.llmCalls == s.llmCalls
    ensures RecordMicro(s') == RecordMicro(s)
  {
  }

  /** A call and its line on the record keep counter and record together. */
  lemma RecordingMoney(inp: Inputs, g: Graph, kind: PaidCallKind, call: Aux)
    requires MoneyInv(g)
    ensures MoneyInv(Recording(inp, g, kind, call))
  {
    CallMoney(inp, g, kind, call);
    RecordedCall(g.durable.session, kind, AuxCost(inp, g, kind, call));
    hide AuxCounter, AuxOps, AuxCost, WithCall, RecordMicro, ToMicro;
  }

  /** Same money: counter, record, rejected fills. */
  predicate SameMoney(g: Graph, after: Graph) {
    && after.durable.counter == g.durable.counter && after.unrecorded == g.unrecorded && after.crashed == g.crashed
    && after.durable.session.iterations == g.durable.session.iterations
    && after.durable.session.llmCalls == g.durable.session.llmCalls
  }

  lemma SameMoneyInv(g: Graph, after: Graph)
    requires MoneyInv(g) && SameMoney(g, after)
    ensures MoneyInv(after)
  {
    SameSpend(g.durable.session, after.durable.session);
    hide RecordMicro;
  }

  lemma AskMoney(inp: Inputs, g: Graph, resume: Option<Answer>)
    ensures SameMoney(g, RunAsk(inp, g, resume))
  {
    hide AskInterrupts, AnswerText, Blank;
  }

  lemma ApproveMoney(g: Graph, resume: Option<Answer>)
    ensures SameMoney(g, RunApprove(g, resume))
  {
    hide Approves;
  }

  lemma EndMoney(g: Graph)
    ensures SameMoney(g, RunDone(g))
    ensures SameMoney(g, RunFail(g))
    ensures SameMoney(g, RunAnalyze(g))
  {
    hide CompletedSteps, GenerationsSpent, CostSpent;
  }

  lemma ParseMoney(inp: Inputs, g: Graph)
    requires MoneyInv(g)
    ensures MoneyInv(RunParseBrief(inp, g))
  {
    hide Recording, MoneyInv;
    RecordingMoney(inp, g, Classify, if Blank(inp.brief) then NotNeeded else inp.parse);
  }

  lemma InventoryMoney(inp: Inputs, g: Graph)
    requires MoneyInv(g)
    ensures MoneyInv(RunExtractInventory(inp, g))
  {
    hide Recording, MoneyInv;
    RecordingMoney(inp, g, Inventorying, inp.inventoryCall);
    if g.durable.face.inventory.None? {
      SameMoneyInv(Recording(inp, g, Inventorying, inp.inventoryCall), RunExtractInventory(inp, g));
    }
  }

  lemma PlanMoney(inp: Inputs, g: Graph)
    requires MoneyInv(g)
    ensures MoneyInv(RunPlanSteps(inp, g))
  {
    hide Recording, MoneyInv, PlanFor;
    RecordingMoney(inp, g, SlotFill, PlanCall(inp, g));
    SameMoneyInv(Recording(inp, g, SlotFill, PlanCall(inp, g)), RunPlanSteps(inp, g));
  }

  /** A rejected fill is settled but has no line; an accepted one gets its line. */
  lemma ResolveMoney(inp: Inputs, g: Graph)
    requires MoneyInv(g)
    ensures MoneyInv(RunResolve(inp, g))
  {
    ResolveFieldsMoney(inp, g);
    CallMoney(inp, g, SlotFill, FillAt(inp, g.resolves));
    RecordedCall(g.durable.session, SlotFill, AuxCost(inp, g, SlotFill, FillAt(inp, g.resolves)));
    hide RunResolve, AuxCounter, AuxOps, AuxCost, ToMicro, RecordMicro, WithCall;
    var s' := RunResolve(inp, g).durable.session;
    if RejectsAt(inp, g.resolves) {
      SameSpend(g.durable.session, s');
    } else {
      SameSpend(WithCall(g.durable.session, SlotFill, AuxCost(inp, g, SlotFill, FillAt(inp, g.resolves))), s');
    }
  }

  lemma ResolveFieldsMoney(inp: Inputs, g: Graph)
    ensures var call, after := FillAt(inp, g.resolves), RunResolve(inp, g);
      var cost, s' := AuxCost(inp, g, SlotFill, call), after.durable.session;
      var paid := if RejectsAt(inp, g.resolves) then g.durable.session else WithCall(g.durable.session, SlotFill, cost);
      && after.durable.counter == AuxCounter(inp, g, SlotFill, call) && after.crashed == g.crashed
      && after.unrecorded == g.unrecorded + (if RejectsAt(inp, g.resolves) then ToMicro(cost) else 0)
      && s'.iterations == paid.iterations && s'.llmCalls == paid.llmCalls
  {
    var call := FillAt(inp, g.resolves);
    var narrated := Narrate(g, StageEvent(Planning));
    assert AuxCounter(inp, narrated, SlotFill, call) == AuxCounter(inp, g, SlotFill, call);
    hide ToMicro, AuxCounter, AuxOps, AuxCost, WithCall;
  }

  lemma RecordNonNegative(s: Session)
    ensures RecordMicro(s) >= 0
  {
    SumMicroNonNegative(IterationCosts(s.iterations));
    SumMicroNonNegative(CallCosts(s.llmCalls));
  }

  lemma GenerateMoney(inp: Inputs, g: Graph, resume: Option<Answer>)
    requires EntersLoop(g) && MoneyInv(g)
    ensures MoneyInv(Visit(inp, g, resume))
  {
    GenerateFields(inp, g, resume);
    ChainMoney.LedgerMatchesRecord(inp.cfg, inp.world, g.durable);
    RecordNonNegative(Drive(inp.cfg, inp.world, g.durable).session);
    hide Visit, Drive, Worked, RecordMicro;
  }

  lemma NodeMoney(inp: Inputs, g: Graph, resume: Option<Answer>)
    requires !g.at.Generate? && MoneyInv(g)
    ensures MoneyInv(Execute(inp, g, resume))
  {
    hide RunAnalyze, RunParseBrief, RunExtractInventory, RunAsk, RunApprove, RunResolve, RunPlanSteps, RunGenerate;
    hide RunDone, RunFail, MoneyInv;
    match g.at
    case ParseBrief => ParseMoney(inp, g);
    case ExtractInventory => InventoryMoney(inp, g);
    case PlanSteps => PlanMoney(inp, g);
    case ResolveConstraints => ResolveMoney(inp, g);
    case _ =>
      AskMoney(inp, g, resume);
      ApproveMoney(g, resume);
      EndMoney(g);
      SameMoneyInv(g, Execute(inp, g, resume));
  }

  lemma VisitMoney(inp: Inputs, g: Graph, resume: Option<Answer>)
    requires (g.at.Generate? ==> EntersLoop(g)) && MoneyInv(g)
    ensures MoneyInv(Visit(inp, g, resume))
  {
    if g.at.Generate? {
      GenerateMoney(inp, g, resume);
    } else {
      NodeMoney(inp, g, resume);
      hide Execute, Next, MoneyInv;
      SameMoneyInv(Execute(inp, g, resume), Visit(inp, g, resume));
    }
  }
}
