/** Whole sessions: for any answers from outside, how a session pauses and ends, what it spends, and what approval
    guards (src/graph/nodes.py, src/graph/builder.py, src/api/deps.py). */
module SessionRuns {
  import opened Schemas
  import opened Money
  import opened ChainSpec
  import opened SessionGraph
  import Text
  import ChainTrace
  import ChainRuns
  import Planner

  // ----- What a node leaves alone -----

  /** A generator call, or the reservation for one. */
  predicate GenerationOp(op: Op) {
    op.Called? || (op.Reserved? && op.kind == Generation)
  }

  predicate NoGeneration(ops: seq<Op>) {
    forall i | 0 <= i < |ops| :: !GenerationOp(ops[i])
  }

  lemma NoGenerationConcat(a: seq<Op>, b: seq<Op>)
    requires NoGeneration(b)
    ensures NoGeneration(a + b) <==> NoGeneration(a)
  {
    assert forall i | 0 <= i < |a| :: (a + b)[i] == a[i];
  }

  lemma AuxOpsFree(inp: Inputs, g: Graph, kind: PaidCallKind, call: Aux)
    requires kind != Generation
    ensures NoGeneration(g.ops + AuxOps(inp, g, kind, call)) <==> NoGeneration(g.ops)
  {
    hide ToMicro;
    NoGenerationConcat(g.ops, AuxOps(inp, g, kind, call));
  }

  /** The node did not touch what the loop records or what was agreed, reserved no generation, and published exactly
      `events`. */
  predicate Leaves(g: Graph, after: Graph, events: seq<Event>) {
    && after.stream == g.stream + events && !after.crashed
    && after.durable.session.iterations == g.durable.session.iterations
    && after.durable.session.best == g.durable.session.best
    && after.idem == g.idem
    && after.durable.session.budgetLimit == g.durable.session.budgetLimit
    && (!g.at.PlanSteps? ==> after.durable.session.plan == g.durable.session.plan)
    && (NoGeneration(g.ops) ==> NoGeneration(after.ops))
  }

  lemma CallKeeps(s: Session, kind: PaidCallKind, cost: Usd)
    ensures var s' := WithCall(s, kind, cost);
      && s'.iterations == s.iterations && s'.best == s.best && s'.approved == s.approved && s'.plan == s.plan
      && s'.thresholds == s.thresholds && s'.fsmState == s.fsmState && s'.budgetLimit == s.budgetLimit
  {
  }

  lemma AnalyzeFields(inp: Inputs, g: Graph, resume: Option<Answer>)
    requires g.at.Analyze? && !g.waiting && !g.crashed
    ensures var after := Visit(inp, g, resume);
      Leaves(g, after, [StageEvent(FaceCheck)]) && after.at.QualityGate? && !after.waiting
  {
    hide RunQualityGate, RunParseBrief, RunExtractInventory, RunAsk, RunApprove, RunGenerate, RunDone, RunFail;
    hide RunResolve, RunPlanSteps;
  }

  lemma QuietFields(inp: Inputs, g: Graph, resume: Option<Answer>)
    requires (g.at.QualityGate? || g.at.ParseBrief? || g.at.ExtractInventory?) && !g.waiting && !g.crashed
    ensures var after := Visit(inp, g, resume);
      && Leaves(g, after, []) && !after.waiting
      && (after.at.FailNode? || after.at.ParseBrief? || after.at.ExtractInventory? || after.at.Ask?)
  {
    hide RunAnalyze, RunAsk, RunApprove, RunGenerate, RunDone, RunFail, RunResolve, RunPlanSteps;
    hide NoGeneration, AuxCounter, AuxOps, AuxCost, WithCall;
    AuxOpsFree(inp, g, Classify, if Text.Blank(inp.brief) then NotNeeded else inp.parse);
    AuxOpsFree(inp, g, Inventorying, inp.inventoryCall);
    CallKeeps(g.durable.session, Classify, AuxCost(inp, g, Classify,
        if Text.Blank(inp.brief) then NotNeeded else inp.parse));
    CallKeeps(g.durable.session, Inventorying, AuxCost(inp, g, Inventorying, inp.inventoryCall));
  }

  lemma AskFields(inp: Inputs, g: Graph, resume: Option<Answer>)
    requires g.at.Ask? && !g.waiting && !g.crashed
    ensures var after := Visit(inp, g, resume);
      && Leaves(g, after, [])
      && (after.at.FailNode? || after.at.Ask? || after.at.ResolveConstraints?)
      && (after.at.Ask? <==> after.waiting)
      && (after.waiting ==> after.durable.session.fsmState == NeedInput)
  {
    hide RunQualityGate, RunParseBrief, RunExtractInventory, RunAnalyze, RunApprove, RunGenerate, RunDone, RunFail;
    hide RunResolve, RunPlanSteps, AskInterrupts, AnswerText;
  }

  lemma ResolveFields(inp: Inputs, g: Graph, resume: Option<Answer>)
    requires g.at.ResolveConstraints? && !g.waiting && !g.crashed
    ensures var after := Visit(inp, g, resume);
      && Leaves(g, after, [StageEvent(Planning)]) && !after.waiting
      && (after.at.FailNode? || after.at.Ask? || after.at.PlanSteps?)
      && (after.at.PlanSteps? ==> after.durable.session.thresholds.Some?)
  {
    hide RunQualityGate, RunParseBrief, RunExtractInventory, RunAnalyze, RunAsk, RunApprove, RunGenerate, RunDone;
    hide RunFail;
    hide RunPlanSteps, AuxCounter, AuxCost, WithCall;
    AuxOpsFree(inp, Narrate(g, StageEvent(Planning)), SlotFill, FillAt(inp, g.resolves));
    CallKeeps(g.durable.session, SlotFill, AuxCost(inp, g, SlotFill, FillAt(inp, g.resolves)));
  }

  lemma PlanFields(inp: Inputs, g: Graph, resume: Option<Answer>)
    requires g.at.PlanSteps? && !g.waiting && !g.crashed
    ensures var after := Visit(inp, g, resume);
      && Leaves(g, after, [PlanEvent(PlanFor(inp, g)), CostEvent]) && !after.waiting && after.at.Approve?
      && after.durable.session.plan == PlanFor(inp, g)
      && after.durable.session.thresholds == g.durable.session.thresholds
      && after.durable.session.fsmState == AwaitingApproval
  {
    hide RunQualityGate, RunParseBrief, RunExtractInventory, RunAnalyze, RunAsk, RunApprove, RunGenerate, RunDone;
    hide RunFail;
    hide RunResolve, AuxCounter, AuxCost, WithCall, PlanFor;
    AuxOpsFree(inp, g, SlotFill, PlanCall(inp, g));
    CallKeeps(g.durable.session, SlotFill, AuxCost(inp, g, SlotFill, PlanCall(inp, g)));
  }

  lemma ApproveFields(inp: Inputs, g: Graph, resume: Option<Answer>)
    requires Shaped(g) && g.at.Approve? && !g.waiting && !g.crashed
    ensures var after := Visit(inp, g, resume);
      && Leaves(g, after, [])
      && after.durable.session == g.durable.session.(approved := after.durable.session.approved)
      && (if resume.None? then after.at.Approve? && after.waiting
          else if Approves(resume.value)
          then after.at.Generate? && !after.waiting && after.durable.session.approved
          else after.at.FailNode? && !after.waiting)
  {
    hide RunQualityGate, RunParseBrief, RunExtractInventory, RunAnalyze, RunAsk, RunGenerate, RunDone, RunFail;
    hide RunResolve, RunPlanSteps, Approves;
  }

  /** About to run the loop for the first time. */
  predicate EntersLoop(g: Graph) {
    g.at.Generate? && !g.waiting && !g.crashed && g.idem.None? && g.durable.session.thresholds.Some?
  }

  lemma GenerateFields(inp: Inputs, g: Graph, resume: Option<Answer>)
    requires EntersLoop(g)
    ensures var after, r, ch := Visit(inp, g, resume), Drive(inp.cfg, inp.world, g.durable), Worked(inp.cfg,
        inp.world, g.durable);
      && after.stream == g.stream + [StageEvent(Generating)] + r.stream
      && after.durable == r.durable && !after.waiting && after.unrecorded == g.unrecorded
      && after.ops == g.ops + r.ops
      && (after.crashed <==> ch.state.Broken?)
      && (if after.crashed then after.at.Generate?
          else if ch.run.session.best.Some? then after.at.DoneNode?
          else after.at.End?)
  {
    hide RunQualityGate, RunParseBrief, RunExtractInventory, RunAnalyze, RunAsk, RunApprove, RunDone, RunFail;
    hide RunResolve, RunPlanSteps, Drive, Worked, GenerationsSpent, CostSpent;
  }

  predicate BeforePlan(n: Node) {
    n.Analyze? || n.QualityGate? || n.ParseBrief? || n.ExtractInventory? || n.Ask? || n.ResolveConstraints?
  }

  /** What the nodes before planning publish. */
  function StageOf(n: Node): seq<Event> {
    match n
    case Analyze => [StageEvent(FaceCheck)]
    case ResolveConstraints => [StageEvent(Planning)]
    case _ => []
  }

  lemma EarlyFields(inp: Inputs, g: Graph, resume: Option<Answer>)
    requires BeforePlan(g.at) && !g.waiting && !g.crashed
    ensures var after := Visit(inp, g, resume);
      && Leaves(g, after, StageOf(g.at))
      && (BeforePlan(after.at) || after.at.FailNode? || after.at.PlanSteps?)
      && (after.at.PlanSteps? ==> after.durable.session.thresholds.Some?)
      && (after.waiting ==> after.at.Ask? && after.durable.session.fsmState == NeedInput)
  {
    hide Visit, Leaves;
    match g.at
    case Analyze => AnalyzeFields(inp, g, resume);
    case Ask => AskFields(inp, g, resume);
    case ResolveConstraints => ResolveFields(inp, g, resume);
    case _ => QuietFields(inp, g, resume);
  }

  // ----- The closing event -----

  function Closings(stream: seq<Event>): nat {
    if stream == [] then 0
    else Closings(stream[..|stream| - 1]) + (if ClosesStream(stream[|stream| - 1]) then 1 else 0)
  }

  lemma ClosingsAppend(stream: seq<Event>, e: Event)
    ensures Closings(stream + [e]) == Closings(stream) + (if ClosesStream(e) then 1 else 0)
  {
    assert (stream + [e])[..|stream|] == stream;
  }

  lemma {:induction false} ClosingsConcat(a: seq<Event>, b: seq<Event>)
    ensures Closings(a + b) == Closings(a) + Closings(b)
  {
    if b == [] {
      assert a + b == a;
    } else {
      var front, last := b[..|b| - 1], b[|b| - 1];
      ClosingsConcat(a, front);
      ClosingsAppend(a + front, last);
      assert a + b == a + front + [last];
    }
  }

  lemma {:induction false} NoClosings(stream: seq<Event>)
    requires forall i | 0 <= i < |stream| :: !ClosesStream(stream[i])
    ensures Closings(stream) == 0
  {
    if stream != [] {
      NoClosings(stream[..|stream| - 1]);
    }
  }

  /** A trace the grammar accepts holds no done event: only the session publishes that. */
  lemma {:induction false} LoopNeverDone(narrated: bool, next: nat, trace: seq<Event>)
    requires !ChainTrace.Observe(narrated, next, trace).phase.Bad?
    ensures forall i | 0 <= i < |trace| :: !trace[i].DoneEvent?
  {
    if trace != [] {
      LoopNeverDone(narrated, next, trace[..|trace| - 1]);
    }
  }

  /** The loop closes the stream once when it fails, and leaves it open when it delivers or raises. */
  lemma LoopCloses(cfg: Config, w: World, d: Durable)
    requires d.session.thresholds.Some?
    ensures var r, ch := Drive(cfg, w, d), Worked(cfg, w, d);
      if ch.state.Broken? then Closings(r.stream) == 0
      else
        && r.stream != [] && r.stream[|r.stream| - 1] == TerminalEvent(ch.run.session, ch.code)
        && r.durable.session == r.session
        && (if ch.run.session.best.Some?
            then Closings(r.stream) == 0 && r.session.fsmState == Done
            else Closings(r.stream) == 1 && r.session.fsmState == Failed && r.stream[|r.stream| - 1].FailedEvent?)
  {
    hide Drive, Worked, ChainTrace.Observe;
    var narrated, next := |ChainSpec.PlanSteps(cfg, d.session)| > 1, |d.session.iterations| + 1;
    var r, ch := Drive(cfg, w, d), Worked(cfg, w, d);
    ChainTrace.RunSpeaksGrammar(cfg, w, d);
    LoopNeverDone(narrated, next, r.stream);
    ChainTrace.AcceptedTrace(narrated, next, r.stream);
    if ch.state.Broken? {
      NoClosings(r.stream);
    } else {
      ChainRuns.DriveFinishes(cfg, w, d);
      var front := ch.run.stream;
      assert forall i | 0 <= i < |front| :: front[i] == r.stream[i];
      NoClosings(front);
      ClosingsAppend(front, TerminalEvent(ch.run.session, ch.code));
    }
  }

  predicate ClosedAs(e: Event, state: FsmState) {
    (e.DoneEvent? && state == Done) || (e.FailedEvent? && state == Failed)
  }

  /** Nothing closes the stream before the graph ends; then its last event does, once, as the stored state says. */
  predicate ClosingInv(g: Graph) {
    && Closings(g.stream) == (if g.at.End? then 1 else 0)
    && (g.at.End? ==> g.stream != [] && ClosedAs(g.stream[|g.stream| - 1], g.durable.session.fsmState))
    && (g.at.DoneNode? ==> g.durable.session.fsmState == Done)
    && (g.crashed ==> g.at.Generate?)
  }

  lemma OneMoreEvent(stream: seq<Event>, e: Event)
    ensures Closings(stream + [e]) == Closings(stream) + (if ClosesStream(e) then 1 else 0)
    ensures (stream + [e])[|stream|] == e
  {
    ClosingsAppend(stream, e);
  }

  lemma GenerateClosing(inp: Inputs, g: Graph, resume: Option<Answer>)
    requires EntersLoop(g) && ClosingInv(g)
    ensures ClosingInv(Visit(inp, g, resume))
  {
    GenerateFields(inp, g, resume);
    hide Visit, Drive, Worked, TerminalEvent;
    OneMoreEvent(g.stream, StageEvent(Generating));
    LoopCloses(inp.cfg, inp.world, g.durable);
    ClosingsConcat(g.stream + [StageEvent(Generating)], Drive(inp.cfg, inp.world, g.durable).stream);
  }

  lemma EndingClosing(inp: Inputs, g: Graph, resume: Option<Answer>)
    requires (g.at.DoneNode? || g.at.FailNode?) && !g.waiting && !g.crashed && ClosingInv(g)
    ensures ClosingInv(Visit(inp, g, resume))
  {
    var e := EndingFields(inp, g, resume);
    hide Visit;
    OneMoreEvent(g.stream, e);
  }

  lemma LeavesClosings(g: Graph, after: Graph, events: seq<Event>)
    requires Leaves(g, after, events) && !g.at.End? && ClosingInv(g) && Closings(events) == 0
    requires !after.at.End? && !after.at.DoneNode?
    ensures ClosingInv(after)
  {
    ClosingsConcat(g.stream, events);
  }

  lemma VisitClosing(inp: Inputs, g: Graph, resume: Option<Answer>)
    requires Shaped(g) && !g.waiting && !g.crashed && !g.at.End? && (g.at.Generate? ==> EntersLoop(g)) && ClosingInv(g)
    ensures ClosingInv(Visit(inp, g, resume))
  {
    var after := Visit(inp, g, resume);
    NoClosings(StageOf(g.at));
    NoClosings([]);
    NoClosings([PlanEvent(PlanFor(inp, g)), CostEvent]);
    hide Visit, ClosingInv, Leaves, PlanFor, Approves;
    if BeforePlan(g.at) {
      EarlyFields(inp, g, resume);
      LeavesClosings(g, after, StageOf(g.at));
    } else if g.at.PlanSteps? {
      PlanFields(inp, g, resume);
      LeavesClosings(g, after, [PlanEvent(PlanFor(inp, g)), CostEvent]);
    } else if g.at.Approve? {
      ApproveFields(inp, g, resume);
      LeavesClosings(g, after, []);
    } else if g.at.Generate? {
      GenerateClosing(inp, g, resume);
    } else {
      EndingClosing(inp, g, resume);
    }
  }

  // ----- Approval -----

  /** Nothing the loop does has happened: no generation reserved, called, announced or recorded. */
  predicate Untouched(g: Graph) {
    && NoGeneration(g.ops)
    && g.durable.session.iterations == [] && g.durable.session.best.None? && g.idem.None?
    && forall i | 0 <= i < |g.stream| :: !g.stream[i].IterationStartEvent?
  }

  /** The plan to approve: numbered from one, a main step at least, all pending, the only enhance step last. */
  predicate Approvable(plan: seq<EditStep>) {
    && |plan| >= 2
    && forall i | 0 <= i < |plan| ::
         && plan[i].n == i + 1 && plan[i].status == Pending && plan[i].resultRef.None?
         && (plan[i].isEnhance <==> i == |plan| - 1)
  }

  /** `approved`: an answer to the approval question said yes. */
  predicate ApprovalInv(g: Graph, approved: bool) {
    && (!approved ==> Untouched(g) && !g.at.Generate? && !g.at.DoneNode?)
    && (!g.crashed && (Position(g.at) >= Position(Generate) || g.at.FailNode?) ==> Untouched(g))
    && (!g.crashed && (g.at.PlanSteps? || g.at.Approve? || g.at.Generate?) ==> g.durable.session.thresholds.Some?)
    && (!g.crashed && (g.at.Approve? || g.at.Generate?) ==> Approvable(g.durable.session.plan))
    && (!g.crashed && g.at.Generate? ==> g.durable.session.approved)
    && (g.at.Approve? ==> g.durable.session.fsmState == AwaitingApproval)
    && (g.waiting && g.at.Ask? ==> g.durable.session.fsmState == NeedInput)
  }

  predicate Yes(g: Graph, resume: Option<Answer>) {
    g.at.Approve? && resume.Some? && Approves(resume.value)
  }

  lemma LeavesUntouched(g: Graph, after: Graph, events: seq<Event>)
    requires Leaves(g, after, events) && Untouched(g)
    requires forall i | 0 <= i < |events| :: !events[i].IterationStartEvent?
    ensures Untouched(after)
  {
  }

  lemma PlanApprovable(inp: Inputs, g: Graph)
    ensures Approvable(PlanFor(inp, g))
  {
    Planner.FinalPlanShape(inp.analysis, HasInventory(g), Pays(inp, g, SlotFill, PlanCall(inp, g)), inp.planReply,
        inp.presetId);
    hide Planner.FinalPlan, Planner.PlannedSteps, Planner.Covered, Planner.Targets;
  }

  lemma EndingFields(inp: Inputs, g: Graph, resume: Option<Answer>) returns (e: Event)
    requires (g.at.DoneNode? || g.at.FailNode?) && !g.waiting && !g.crashed
    ensures var after := Visit(inp, g, resume);
      && Leaves(g, after, [e]) && ClosesStream(e) && after.at.End? && !after.waiting
      && ClosedAs(e, after.durable.session.fsmState) == (g.at.FailNode? || g.durable.session.fsmState == Done)
  {
    hide RunAnalyze, RunParseBrief, RunExtractInventory, RunAsk, RunApprove, RunPlanSteps, RunResolve, RunGenerate;
    hide CompletedSteps, GenerationsSpent, CostSpent, RunQualityGate;
    e := (if g.at.DoneNode? then RunDone(g) else RunFail(g)).stream[|g.stream|];
  }

  lemma EarlyApproval(inp: Inputs, g: Graph, resume: Option<Answer>, approved: bool)
    requires BeforePlan(g.at) && !g.waiting && !g.crashed && ApprovalInv(g, approved)
    ensures ApprovalInv(Visit(inp, g, resume), approved)
  {
    EarlyFields(inp, g, resume);
    LeavesUntouched(g, Visit(inp, g, resume), StageOf(g.at));
    LeavesNotCrashed(g, Visit(inp, g, resume), StageOf(g.at));
    hide Visit, Leaves, Untouched, Approvable;
  }

  lemma LeavesNotCrashed(g: Graph, after: Graph, events: seq<Event>)
    requires Leaves(g, after, events)
    ensures !after.crashed
  {
  }

  lemma VisitApproval(inp: Inputs, g: Graph, resume: Option<Answer>, approved: bool)
    requires Shaped(g) && !g.waiting && !g.crashed && !g.at.End? && ApprovalInv(g, approved)
    ensures ApprovalInv(Visit(inp, g, resume), approved || Yes(g, resume))
  {
    if BeforePlan(g.at) {
      EarlyApproval(inp, g, resume, approved);
    } else {
      LateApproval(inp, g, resume, approved);
    }
  }

  lemma LateApproval(inp: Inputs, g: Graph, resume: Option<Answer>, approved: bool)
    requires Shaped(g) && !g.waiting && !g.crashed && !g.at.End? && !BeforePlan(g.at) && ApprovalInv(g, approved)
    ensures ApprovalInv(Visit(inp, g, resume), approved || Yes(g, resume))
  {
    var after := Visit(inp, g, resume);
    hide Visit, Untouched, Approvable, PlanFor, Approves, Drive, Worked, Shaped, Leaves;
    match g.at
    case PlanSteps =>
      PlanFields(inp, g, resume);
      PlanApprovable(inp, g);
      LeavesUntouched(g, after, [PlanEvent(PlanFor(inp, g)), CostEvent]);
    case Approve =>
      ApproveFields(inp, g, resume);
      LeavesUntouched(g, after, []);
    case Generate =>
      UntouchedEnters(g);
      GenerateFields(inp, g, resume);
    case DoneNode =>
      var _ := EndingFields(inp, g, resume);
    case FailNode =>
      var e := EndingFields(inp, g, resume);
      LeavesUntouched(g, after, [e]);
  }

  lemma UntouchedEnters(g: Graph)
    requires g.at.Generate? && !g.waiting && !g.crashed && Untouched(g) && g.durable.session.thresholds.Some?
    ensures EntersLoop(g)
  {
  }
}
