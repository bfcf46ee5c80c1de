/** What a session delivers: its closing event, its plan and its best agree, and the best kept the identity
    (src/graph/nodes.py, src/graph/builder.py). */
module SessionDelivery {
  import opened Schemas
  import opened Money
  import opened ChainSpec
  import opened SessionGraph
  import opened SessionRuns
  import ChainRecord
  import ChainResume
  import ChainRuns

  predicate NoneCompleted(plan: seq<EditStep>) {
    forall i | 0 <= i < |plan| :: plan[i].status != Completed
  }

  /** The best names a recorded iteration that cleared the session's floor. */
  predicate IdentityHeld(inp: Inputs, s: Session) {
    s.best.Some? ==>
      s.thresholds.Some?
      && ChainRuns.IdentityKept(ChainResume.Charter(inp.cfg.sessionKey, s.thresholds.value, s.plan, None), s)
  }

  /** A closing event that tells of the plan: done exactly when a step completed and there is a best, with exact
      counts. */
  predicate EndsAs(e: Event, s: Session) {
    && (e.DoneEvent? <==> ChainResume.SomeCompleted(s.plan))
    && (e.DoneEvent? <==> s.best.Some?)
    && (e.DoneEvent? ==> e.stepsCompleted == CompletedSteps(s.plan) && e.stepsTotal == |s.plan|)
  }

  predicate DeliveryInv(inp: Inputs, limit: Usd, g: Graph) {
    && g.durable.session.budgetLimit == SessionBudget(limit)
    && IdentityHeld(inp, g.durable.session)
    && (!g.crashed && (Position(g.at) >= Position(Generate) || g.at.FailNode?) ==>
          NoneCompleted(g.durable.session.plan) && g.durable.session.best.None?)
    && (g.at.DoneNode? ==> ChainResume.SomeCompleted(g.durable.session.plan) && g.durable.session.best.Some?)
    && (g.at.End? ==> g.stream != [] && EndsAs(g.stream[|g.stream| - 1], g.durable.session))
  }

  function CompletedIndices(plan: seq<EditStep>): set<nat> {
    set i | 0 <= i < |plan| && plan[i].status == Completed
  }

  lemma {:induction false} CompletedStepsCounts(plan: seq<EditStep>)
    ensures CompletedSteps(plan) == |CompletedIndices(plan)| <= |plan|
    ensures CompletedSteps(plan) > 0 <==> ChainResume.SomeCompleted(plan)
  {
    if plan != [] {
      CompletedStepsCounts(plan[..|plan| - 1]);
      OneMoreIndex(plan);
    }
    SomeIndex(plan);
    hide CompletedIndices, ChainResume.SomeCompleted;
  }

  lemma OneMoreIndex(plan: seq<EditStep>)
    requires plan != []
    ensures |CompletedIndices(plan)|
         == |CompletedIndices(plan[..|plan| - 1])| + (if plan[|plan| - 1].status == Completed then 1 else 0)
  {
    var front := plan[..|plan| - 1];
    assert forall i | 0 <= i < |front| :: front[i] == plan[i];
    var last: set<nat> := if plan[|front|].status == Completed then {|front|} else {};
    assert CompletedIndices(plan) == CompletedIndices(front) + last;
    assert |front| !in CompletedIndices(front);
  }

  lemma SomeIndex(plan: seq<EditStep>)
    ensures |CompletedIndices(plan)| > 0 <==> ChainResume.SomeCompleted(plan)
  {
    if ChainResume.SomeCompleted(plan) {
      var i :| 0 <= i < |plan| && plan[i].status == Completed;
      assert i in CompletedIndices(plan);
    } else {
      assert CompletedIndices(plan) == {};
    }
  }

  // ----- Entering the loop -----

  function CharterOf(inp: Inputs, g: Graph): ChainResume.Charter
    requires g.durable.session.thresholds.Some?
  {
    ChainResume.Charter(inp.cfg.sessionKey, g.durable.session.thresholds.value, g.durable.session.plan,
                        g.durable.face.inventory)
  }

  /** An untouched session with a plan to approve is one the chain theorems speak of. */
  lemma FreshEnters(inp: Inputs, g: Graph)
    requires Untouched(g) && Approvable(g.durable.session.plan) && g.durable.session.thresholds.Some?
    ensures ChainRuns.Enters(inp.cfg, CharterOf(inp, g), g.durable)
  {
  }

  lemma GenerateDelivery(inp: Inputs, limit: Usd, g: Graph, resume: Option<Answer>)
    requires EntersLoop(g) && Untouched(g) && Approvable(g.durable.session.plan) && DeliveryInv(inp, limit, g)
    ensures DeliveryInv(inp, limit, Visit(inp, g, resume))
  {
    hide Visit, Drive, Worked, Untouched, Approvable, ChainRuns.Enters, ChainRuns.IdentityKept, NoneCompleted;
    hide ChainResume.SomeCompleted, CompletedSteps;
    var x, after := CharterOf(inp, g), Visit(inp, g, resume);
    FreshEnters(inp, g);
    GenerateFields(inp, g, resume);
    ChainRecord.RunKeepsTerms(inp.cfg, inp.world, g.durable);
    StoredIdentity(inp.cfg, x, inp.world, g.durable);
    SameIdentity(inp, x, after.durable.session);
    if !after.crashed {
      ApprovablePlanned(g.durable.session.plan);
      ChainRuns.ResultIffStepCompleted(inp.cfg, x, inp.world, g.durable);
      ChainRuns.DriveFinishes(inp.cfg, inp.world, g.durable);
    }
  }

  lemma ApprovablePlanned(plan: seq<EditStep>)
    requires Approvable(plan)
    ensures plan != [] && NoneCompleted(plan)
  {
  }

  lemma StoredIdentity(cfg: Config, x: ChainResume.Charter, w: World, d: Durable)
    requires ChainRuns.Enters(cfg, x, d)
    ensures d.session.thresholds == Some(x.thresholds) && x.key == cfg.sessionKey
    ensures ChainRuns.IdentityKept(x, Drive(cfg, w, d).durable.session)
  {
    ChainRuns.EveryStoreStateResumable(cfg, x, w, d);
    ChainRuns.ResumableKeepsIdentity(x, Drive(cfg, w, d).durable.session);
    hide Drive, ChainRuns.IdentityKept;
  }

  /** Identity depends on the session key and the thresholds alone. */
  lemma SameIdentity(inp: Inputs, x: ChainResume.Charter, s: Session)
    requires ChainRuns.IdentityKept(x, s) && s.thresholds == Some(x.thresholds) && x.key == inp.cfg.sessionKey
    ensures IdentityHeld(inp, s)
  {
  }

  // ----- The other nodes -----

  lemma LeavesDelivery(inp: Inputs, limit: Usd, g: Graph, after: Graph, events: seq<Event>)
    requires Leaves(g, after, events) && DeliveryInv(inp, limit, g) && g.durable.session.best.None?
    requires NoneCompleted(after.durable.session.plan) && !after.at.DoneNode? && !after.at.End?
    ensures DeliveryInv(inp, limit, after)
  {
    hide EndsAs, NoneCompleted;
  }

  lemma LeavesPlan(g: Graph, after: Graph, events: seq<Event>)
    requires Leaves(g, after, events) && !g.at.PlanSteps?
    ensures after.durable.session.plan == g.durable.session.plan
  {
  }

  lemma EndingDelivery(inp: Inputs, limit: Usd, g: Graph, resume: Option<Answer>)
    requires (g.at.DoneNode? || g.at.FailNode?) && !g.waiting && !g.crashed && DeliveryInv(inp, limit, g)
    ensures DeliveryInv(inp, limit, Visit(inp, g, resume))
  {
    hide RunAnalyze, RunParseBrief, RunExtractInventory, RunAsk, RunApprove, RunPlanSteps, RunResolve, RunGenerate;
    hide CompletedSteps, GenerationsSpent, CostSpent, RunQualityGate, ChainRecord.NamesIteration;
    var s := g.durable.session;
    if g.at.FailNode? {
      NothingCompleted(s.plan);
    }
  }

  lemma NothingCompleted(plan: seq<EditStep>)
    requires NoneCompleted(plan)
    ensures !ChainResume.SomeCompleted(plan)
  {
  }

  lemma VisitDelivery(inp: Inputs, limit: Usd, g: Graph, resume: Option<Answer>, approved: bool)
    requires Shaped(g) && !g.waiting && !g.crashed && !g.at.End?
    requires ApprovalInv(g, approved) && DeliveryInv(inp, limit, g)
    ensures DeliveryInv(inp, limit, Visit(inp, g, resume))
  {
    hide Visit, Leaves, PlanFor, Approves, Untouched, Approvable, IdentityHeld, EndsAs, NoneCompleted;
    var after := Visit(inp, g, resume);
    if BeforePlan(g.at) {
      EarlyFields(inp, g, resume);
      LeavesPlan(g, after, StageOf(g.at));
      LeavesDelivery(inp, limit, g, after, StageOf(g.at));
    } else if g.at.PlanSteps? {
      PlanFields(inp, g, resume);
      PlanApprovable(inp, g);
      ApprovablePlanned(PlanFor(inp, g));
      LeavesDelivery(inp, limit, g, after, [PlanEvent(PlanFor(inp, g)), CostEvent]);
    } else if g.at.Approve? {
      ApproveFields(inp, g, resume);
      LeavesPlan(g, after, []);
      LeavesDelivery(inp, limit, g, after, []);
    } else if g.at.Generate? {
      UntouchedEnters(g);
      GenerateDelivery(inp, limit, g, resume);
    } else {
      EndingDelivery(inp, limit, g, resume);
    }
  }
}
