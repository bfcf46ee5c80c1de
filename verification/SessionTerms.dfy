/** What a session sticks to: the preset's thresholds once they are frozen, the photo's inventory once it is there, and
    no auxiliary call that is not needed (src/graph/nodes.py). */
module SessionTerms {
  import opened Schemas
  import opened Money
  import opened BudgetOps
  import opened ChainSpec
  import opened SessionGraph
  import opened SessionRuns
  import opened SessionDelivery
  import opened SessionOutcomes
  import Text
  import ChainPrompts
  import ChainRecord
  import ChainRuns
  import Planner

  /** A blank brief is not parsed and a photo with an inventory is not catalogued again; both are reserved at their flat
      price. */
  predicate Needed(inp: Inputs, face: Face, op: Op) {
    op.Reserved? ==>
      && (op.kind == Classify ==> Text.Strip(inp.brief) != "")
      && (op.kind == Inventorying ==> face.inventory.None?)
      && (op.kind == Classify || op.kind == Inventorying ==> op.micro == ToMicro(inp.flat(op.kind)))
  }

  predicate AllNeeded(inp: Inputs, face: Face, ops: seq<Op>) {
    forall i | 0 <= i < |ops| :: Needed(inp, face, ops[i])
  }

  predicate Frozen(inp: Inputs, s: Session) {
    s.thresholds.Some? ==> s.thresholds.value == inp.thresholds
  }

  /** An inventory the photo came with is the one it keeps; else only the one extracted can be there. */
  predicate OnceCatalogued(inp: Inputs, face: Face, now: Face) {
    if face.inventory.Some? then now.inventory == face.inventory
    else now.inventory.None? || now.inventory == inp.extracted
  }

  /** The plan put up for approval covers every change the brief asks for. */
  predicate PlanCovers(inp: Inputs, g: Graph) {
    g.at.Approve? ==> Planner.Targets(inp.analysis) <= Planner.Covered(g.durable.session.plan)
  }

  predicate TermsInv(inp: Inputs, face: Face, g: Graph) {
    && Frozen(inp, g.durable.session) && OnceCatalogued(inp, face, g.durable.face) && AllNeeded(inp, face, g.ops)
    && PlanCovers(inp, g)
  }

  lemma NeededConcat(inp: Inputs, face: Face, a: seq<Op>, b: seq<Op>)
    requires AllNeeded(inp, face, a) && AllNeeded(inp, face, b)
    ensures AllNeeded(inp, face, a + b)
  {
    hide Needed;
  }

  lemma CallNeeded(inp: Inputs, face: Face, g: Graph, kind: PaidCallKind, call: Aux)
    requires call.NotNeeded? || kind == SlotFill || (kind == Classify && Text.Strip(inp.brief) != "")
      || (kind == Inventorying && face.inventory.None?)
    requires AllNeeded(inp, face, g.ops)
    ensures AllNeeded(inp, face, g.ops + AuxOps(inp, g, kind, call))
  {
    hide ToMicro, Text.Strip;
    NeededConcat(inp, face, g.ops, AuxOps(inp, g, kind, call));
  }

  /** A recorded auxiliary call leaves thresholds and inventory alone. */
  lemma RecordingTerms(inp: Inputs, face: Face, g: Graph, kind: PaidCallKind, call: Aux)
    requires call.NotNeeded? || kind == SlotFill || (kind == Classify && Text.Strip(inp.brief) != "")
      || (kind == Inventorying && face.inventory.None?)
    requires TermsInv(inp, face, g)
    ensures TermsInv(inp, face, Recording(inp, g, kind, call))
    ensures var after := Recording(inp, g, kind, call);
      && after.at == g.at && after.durable.face == g.durable.face
      && after.durable.session.thresholds == g.durable.session.thresholds
  {
    CallNeeded(inp, face, g, kind, call);
    CallKeeps(g.durable.session, kind, AuxCost(inp, g, kind, call));
    hide AuxOps, AuxCost, AuxCounter, WithCall, AllNeeded, Text.Strip, Planner.Targets, Planner.Covered;
  }

  lemma EarlyTerms(inp: Inputs, face: Face, g: Graph, resume: Option<Answer>)
    requires (g.at.ParseBrief? || g.at.ExtractInventory? || g.at.PlanSteps?) && TermsInv(inp, face, g)
    ensures TermsInv(inp, face, Execute(inp, g, resume)) && Execute(inp, g, resume).at == g.at
  {
    hide RunAnalyze, RunQualityGate, RunAsk, RunResolve, RunApprove, RunGenerate, RunDone, RunFail;
    hide Recording, AllNeeded, PlanFor, PlanCall, Text.Strip, Planner.Targets, Planner.Covered;
    match g.at
    case ParseBrief =>
      RecordingTerms(inp, face, g, Classify, if Text.Blank(inp.brief) then NotNeeded else inp.parse);
    case ExtractInventory =>
      if g.durable.face.inventory.None? {
        RecordingTerms(inp, face, g, Inventorying, inp.inventoryCall);
      }
    case _ =>
      RecordingTerms(inp, face, g, SlotFill, PlanCall(inp, g));
  }

  /** Nothing of the terms changed but the log. */
  predicate SameButLog(g: Graph, after: Graph) {
    && after.at == g.at && after.durable.face == g.durable.face
    && after.durable.session.plan == g.durable.session.plan
    && after.durable.session.thresholds == g.durable.session.thresholds
  }

  lemma SameTermsHold(inp: Inputs, face: Face, g: Graph, after: Graph)
    requires TermsInv(inp, face, g) && SameButLog(g, after) && after.ops == g.ops
    ensures TermsInv(inp, face, after)
  {
    hide AllNeeded, OnceCatalogued, Planner.Targets, Planner.Covered;
  }

  lemma SamePlanCovers(inp: Inputs, g: Graph, after: Graph)
    requires PlanCovers(inp, g) && after.at == g.at && after.durable.session.plan == g.durable.session.plan
    ensures PlanCovers(inp, after)
  {
  }

  lemma AskKeeps(inp: Inputs, g: Graph, resume: Option<Answer>)
    ensures SameButLog(g, RunAsk(inp, g, resume)) && RunAsk(inp, g, resume).ops == g.ops
  {
    hide Text.Strip, AnswerText, AskInterrupts;
    var asking := g.durable.session.(fsmState := NeedInput);
    PutKeeps(g, asking);
    hide Put;
  }

  lemma ApproveKeeps(g: Graph, resume: Option<Answer>)
    ensures SameButLog(g, RunApprove(g, resume)) && RunApprove(g, resume).ops == g.ops
  {
    hide Approves;
    var s := g.durable.session;
    if resume.Some? && Approves(resume.value) {
      assert RunApprove(g, resume) == Put(g, s.(approved := true));
      PutKeeps(g, s.(approved := true));
    } else {
      assert RunApprove(g, resume).durable == g.durable;
    }
    hide Put;
  }

  lemma PutKeeps(g: Graph, s: Session)
    requires s.plan == g.durable.session.plan && s.thresholds == g.durable.session.thresholds
    ensures SameButLog(g, Put(g, s)) && Put(g, s).ops == g.ops
  {
  }

  lemma ResolveTerms(inp: Inputs, face: Face, g: Graph)
    requires TermsInv(inp, face, g)
    ensures TermsInv(inp, face, RunResolve(inp, g)) && RunResolve(inp, g).at == g.at
  {
    var narrated, call := Narrate(g, StageEvent(Planning)), FillAt(inp, g.resolves);
    CallNeeded(inp, face, narrated, SlotFill, call);
    ResolveKeeps(inp, g);
    SamePlanCovers(inp, g, RunResolve(inp, g));
    hide RunResolve, AuxOps, AllNeeded, OnceCatalogued, PlanCovers;
  }

  lemma ResolveKeeps(inp: Inputs, g: Graph)
    ensures var after, narrated := RunResolve(inp, g), Narrate(g, StageEvent(Planning));
      && after.at == g.at && after.durable.face == g.durable.face
      && after.durable.session.plan == g.durable.session.plan
      && after.ops == narrated.ops + AuxOps(inp, narrated, SlotFill, FillAt(inp, g.resolves))
      && (after.durable.session.thresholds == g.durable.session.thresholds
          || after.durable.session.thresholds == Some(inp.thresholds))
  {
    hide AuxOps, AuxCost, AuxCounter, WithCall;
    CallKeeps(g.durable.session, SlotFill, AuxCost(inp, g, SlotFill, FillAt(inp, g.resolves)));
  }

  lemma PlainTerms(inp: Inputs, face: Face, g: Graph)
    requires TermsInv(inp, face, g)
    ensures TermsInv(inp, face, RunAnalyze(g)) && TermsInv(inp, face, RunQualityGate(inp, g))
    ensures TermsInv(inp, face, RunDone(g)) && TermsInv(inp, face, RunFail(g))
    ensures RunAnalyze(g).at == RunQualityGate(inp, g).at == RunDone(g).at == RunFail(g).at == g.at
  {
    hide AllNeeded, CompletedSteps, GenerationsSpent, CostSpent, Planner.Targets, Planner.Covered;
  }

  lemma LoopNeeded(inp: Inputs, face: Face, ops: seq<Op>)
    requires ChainPrompts.Frugal(inp.cfg, ops)
    ensures AllNeeded(inp, face, ops)
  {
    hide ToMicro;
  }

  lemma GenerateTerms(inp: Inputs, face: Face, g: Graph, resume: Option<Answer>)
    requires EntersLoop(g) && Untouched(g) && Approvable(g.durable.session.plan) && TermsInv(inp, face, g)
    ensures TermsInv(inp, face, Visit(inp, g, resume))
  {
    hide Visit, Drive, Worked, Untouched, Approvable, ChainRuns.Enters, AllNeeded, ChainPrompts.Frugal;
    hide ChainPrompts.RunSays, Planner.Targets, Planner.Covered;
    GenerateFields(inp, g, resume);
    FreshEnters(inp, g);
    ChainRecord.RunKeepsTerms(inp.cfg, inp.world, g.durable);
    ChainPrompts.EveryCallSaysItsStep(inp.cfg, inp.world, g.durable);
    LoopNeeded(inp, face, Drive(inp.cfg, inp.world, g.durable).ops);
    NeededConcat(inp, face, g.ops, Drive(inp.cfg, inp.world, g.durable).ops);
    LoopKeepsInventory(inp, g);
  }

  lemma LoopKeepsInventory(inp: Inputs, g: Graph)
    requires g.durable.session.thresholds.Some? && ChainRuns.Enters(inp.cfg, CharterOf(inp, g), g.durable)
    ensures Drive(inp.cfg, inp.world, g.durable).durable.face.inventory == g.durable.face.inventory
  {
    ChainRuns.EveryStoreStateResumable(inp.cfg, CharterOf(inp, g), inp.world, g.durable);
    hide Drive;
  }

  lemma VisitTerms(inp: Inputs, face: Face, g: Graph, resume: Option<Answer>, approved: bool)
    requires Shaped(g) && !g.waiting && !g.crashed && !g.at.End? && ApprovalInv(g, approved) && TermsInv(inp, face, g)
    ensures TermsInv(inp, face, Visit(inp, g, resume))
  {
    if g.at.Generate? {
      hide Untouched, Approvable, TermsInv, Visit;
      UntouchedEnters(g);
      GenerateTerms(inp, face, g, resume);
    } else {
      NodeTerms(inp, face, g, resume);
      hide AllNeeded, PlanCovers;
      LeadsToApproval(inp, g, resume);
      hide Execute, Next;
    }
  }

  lemma LeadsToApproval(inp: Inputs, g: Graph, resume: Option<Answer>)
    requires !g.waiting && !g.crashed && PlanCovers(inp, Execute(inp, g, resume)) && Execute(inp, g, resume).at == g.at
    ensures PlanCovers(inp, Visit(inp, g, resume))
  {
    hide Execute, Planner.Targets, Planner.Covered;
    if g.at.PlanSteps? {
      PlanFields(inp, g, resume);
      Planner.FinalPlanShape(inp.analysis, HasInventory(g), Pays(inp, g, SlotFill, PlanCall(inp, g)), inp.planReply,
          inp.presetId);
      hide Leaves;
    }
  }

  lemma NodeTerms(inp: Inputs, face: Face, g: Graph, resume: Option<Answer>)
    requires !g.at.Generate? && TermsInv(inp, face, g)
    ensures TermsInv(inp, face, Execute(inp, g, resume)) && Execute(inp, g, resume).at == g.at
  {
    hide TermsInv, RunAnalyze, RunQualityGate, RunAsk, RunApprove, RunDone, RunFail, RunGenerate;
    match g.at
    case ParseBrief => EarlyTerms(inp, face, g, resume);
    case ExtractInventory => EarlyTerms(inp, face, g, resume);
    case PlanSteps => EarlyTerms(inp, face, g, resume);
    case ResolveConstraints => ResolveTerms(inp, face, g);
    case _ =>
      AskKeeps(inp, g, resume);
      ApproveKeeps(g, resume);
      SameTermsHold(inp, face, g, if g.at.Ask? then RunAsk(inp, g, resume)
                                  else if g.at.Approve? then RunApprove(g, resume) else g);
      PlainTerms(inp, face, g);
  }

  lemma {:induction false} InvokeTerms(inp: Inputs, limit: Usd, face: Face, g: Graph, resume: Option<Answer>,
                                       approved: bool)
    requires Shaped(g) && !g.waiting && GraphInv(inp, limit, g, approved) && TermsInv(inp, face, g)
    ensures TermsInv(inp, face, Invoke(inp, g, resume))
    decreases MAX_REASKS - g.reasks, Position(g.at)
  {
    assert g.reasks <= MAX_REASKS;
    hide Visit, Shaped, Approves, TermsInv, GraphInv;
    if !g.at.End? && !g.crashed {
      VisitShaped(inp, g, resume);
      VisitInv(inp, limit, g, resume, approved);
      InvApproval(inp, limit, g, approved);
      VisitTerms(inp, face, g, resume, approved);
      var after := Visit(inp, g, resume);
      if !after.waiting && !after.crashed {
        InvokeTerms(inp, limit, face, after, None, approved || Yes(g, resume));
      }
    }
  }

  lemma InvApproval(inp: Inputs, limit: Usd, g: Graph, approved: bool)
    requires GraphInv(inp, limit, g, approved)
    ensures ApprovalInv(g, approved)
  {
  }

  /** In every session, however it stands and whatever is answered: frozen thresholds are the preset's, the inventory of
      a photo is taken once, no auxiliary call is made that is not needed, and a plan put up for approval covers the
      brief. */
  lemma {:induction false} SessionKeepsTerms(inp: Inputs, limit: Usd, face: Face, answers: seq<Answer>)
    ensures TermsInv(inp, face, Played(inp, limit, face, answers))
    decreases |answers|
  {
    hide GraphInv, Invoke, Facts, PlanApproved, AllNeeded;
    if answers == [] {
      StartedInv(inp, limit, face);
      NothingNeeded(inp, face);
      InvokeTerms(inp, limit, face, Started(limit, face), None, false);
    } else {
      var front, last := answers[..|answers| - 1], answers[|answers| - 1];
      SessionKeepsTerms(inp, limit, face, front);
      SessionFacts(inp, limit, face, front);
      var before := Played(inp, limit, face, front);
      if before.waiting && !before.crashed {
        InvokeTerms(inp, limit, face, before.(waiting := false), Some(last), PlanApproved(inp, limit, face, front));
      }
    }
  }

  lemma NothingNeeded(inp: Inputs, face: Face)
    ensures AllNeeded(inp, face, [])
  {
  }

  // ----- What the nodes call and plan -----

  /** Each node makes its one auxiliary call when it is needed, and only then. */
  lemma NodesCall(inp: Inputs, g: Graph)
    requires !g.waiting && !g.crashed
    ensures g.at.ParseBrief? ==>
      Visit(inp, g, None).ops
      == g.ops + (if Text.Strip(inp.brief) == "" then [] else AuxOps(inp, g, Classify, inp.parse))
    ensures g.at.ExtractInventory? ==>
      var known, after := g.durable.face.inventory, Visit(inp, g, None);
      && after.ops == g.ops + (if known.Some? then [] else AuxOps(inp, g, Inventorying, inp.inventoryCall))
      && after.durable.face.inventory == (if known.Some? then known else inp.extracted)
    ensures g.at.ResolveConstraints? ==>
      Visit(inp, g, None).ops == g.ops + AuxOps(inp, g, SlotFill, inp.fill(g.resolves))
  {
    hide AuxCost, AuxCounter, WithCall, Text.Strip, PlanFor, RunAsk, RunApprove, RunGenerate, RunDone, RunFail, ToMicro;
    var narrated := Narrate(g, StageEvent(Planning));
    assert AuxOps(inp, narrated, SlotFill, inp.fill(g.resolves)) == AuxOps(inp, g, SlotFill, inp.fill(g.resolves));
    CallKeeps(g.durable.session, Classify, AuxCost(inp, g, Classify, inp.parse));
    hide AuxOps;
  }

  /** The plan the session puts up is the model's exactly when there are two changes or something to preserve against an
      inventory, the budget admits the call and the reply is acceptable; it is announced as it is stored. */
  lemma PlanNodeTakesReply(inp: Inputs, g: Graph)
    requires g.at.PlanSteps? && !g.waiting && !g.crashed
    ensures var a, reply, after := inp.analysis, inp.planReply, Visit(inp, g, None);
      var asks := |a.changes| >= 2 || (HasInventory(g) && a.preserve != []);
      var usable := reply.Answered? && Planner.Acceptable(reply.content, Planner.Targets(a), HasInventory(g));
      var admitted := Admits(g.durable.counter, ToMicro(inp.flat(SlotFill)), ToMicro(g.durable.session.budgetLimit));
      var taken := asks && admitted && usable;
      && after.durable.session.plan
         == Planner.FinalPlan(
              if taken then Planner.StepsOf(Planner.Field(reply.content.value, "steps").items)
              else Planner.DeterministicSteps(a),
              a, inp.presetId)
      && after.stream == g.stream + [PlanEvent(after.durable.session.plan), CostEvent]
      && after.ops == g.ops + AuxOps(inp, g, SlotFill, if !asks then NotNeeded
                                                       else if usable then Billed(reply.billed) else Unusable)
  {
    PlanFields(inp, g, None);
    PlanCalls(inp, g);
    hide Visit, Leaves, Planner.FinalPlan, Planner.StepsOf, Planner.DeterministicSteps, Planner.Acceptable;
    hide Planner.Targets, AuxOps, ToMicro;
  }

  lemma PlanCalls(inp: Inputs, g: Graph)
    requires g.at.PlanSteps? && !g.waiting && !g.crashed
    ensures Visit(inp, g, None).ops == g.ops + AuxOps(inp, g, SlotFill, PlanCall(inp, g))
  {
    hide AuxOps, AuxCost, AuxCounter, WithCall, PlanFor, PlanCall;
  }

  /** So the identity a session promises is measured against the thresholds of its preset. */
  lemma SessionMeetsPreset(inp: Inputs, limit: Usd, face: Face, answers: seq<Answer>)
    requires Played(inp, limit, face, answers).durable.session.best.Some?
    ensures var s, th := Played(inp, limit, face, answers).durable.session, inp.thresholds;
      && ChainRecord.NamesIteration(s.best.value, s.iterations)
      && s.best.value.similarity >= (if th.identityFloor <= th.similarityThreshold then th.identityFloor
                                     else th.similarityThreshold)
      && (s.best.value.verdict == Passed <==> s.best.value.similarity >= th.similarityThreshold)
  {
    hide Played, AllNeeded, OnceCatalogued, ChainRecord.NamesIteration, Banded;
    SessionKeepsTerms(inp, limit, face, answers);
    SessionKeepsIdentity(inp, limit, face, answers);
    ChainRecord.BandedGuarantee(Played(inp, limit, face, answers).durable.session.best.value.similarity,
                                inp.thresholds);
  }
}
