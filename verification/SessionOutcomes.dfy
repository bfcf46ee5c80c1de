/** What every session amounts to, whatever the outside answers: how it stands between runs, how it ends, what guards
    its spending, and what a re-executed node repeats (src/graph/nodes.py, src/graph/builder.py, src/api/deps.py). */
module SessionOutcomes {
  import opened Schemas
  import opened Money
  import opened ChainSpec
  import opened SessionGraph
  import opened SessionRuns
  import opened SessionMoney
  import opened SessionDelivery
  import ChainTrace
  import ChainResume
  import ChainRuns

  predicate GraphInv(inp: Inputs, limit: Usd, g: Graph, approved: bool) {
    ClosingInv(g) && ApprovalInv(g, approved) && MoneyInv(g) && DeliveryInv(inp, limit, g)
  }

  lemma VisitInv(inp: Inputs, limit: Usd, g: Graph, resume: Option<Answer>, approved: bool)
    requires Shaped(g) && !g.waiting && !g.crashed && !g.at.End? && GraphInv(inp, limit, g, approved)
    ensures GraphInv(inp, limit, Visit(inp, g, resume), approved || Yes(g, resume))
  {
    hide Visit, ClosingInv, MoneyInv, DeliveryInv, Approvable;
    if g.at.Generate? {
      UntouchedEnters(g);
    }
    hide ApprovalInv;
    VisitClosing(inp, g, resume);
    VisitApproval(inp, g, resume, approved);
    VisitMoney(inp, g, resume);
    VisitDelivery(inp, limit, g, resume, approved);
  }

  lemma {:induction false} InvokeInv(inp: Inputs, limit: Usd, g: Graph, resume: Option<Answer>, approved: bool)
    requires Shaped(g) && !g.waiting && GraphInv(inp, limit, g, approved)
    ensures GraphInv(inp, limit, Invoke(inp, g, resume), approved || Yes(g, resume))
    decreases MAX_REASKS - g.reasks, Position(g.at)
  {
    assert g.reasks <= MAX_REASKS;
    hide Visit, GraphInv, Shaped, Approves;
    if !g.at.End? && !g.crashed {
      VisitShaped(inp, g, resume);
      VisitInv(inp, limit, g, resume, approved);
      var after := Visit(inp, g, resume);
      if !after.waiting && !after.crashed {
        InvokeInv(inp, limit, after, None, approved || Yes(g, resume));
      }
    } else {
      ApprovedMore(inp, limit, g, approved, approved || Yes(g, resume));
    }
  }

  lemma ApprovedMore(inp: Inputs, limit: Usd, g: Graph, approved: bool, more: bool)
    requires GraphInv(inp, limit, g, approved) && (approved ==> more)
    ensures GraphInv(inp, limit, g, more)
  {
    hide ClosingInv, MoneyInv, DeliveryInv;
  }

  // ----- Between runs -----

  /** The plan was approved: some answer met the approval question and said yes. */
  predicate PlanApproved(inp: Inputs, limit: Usd, face: Face, answers: seq<Answer>) {
    answers != []
    && (var front, last := answers[..|answers| - 1], answers[|answers| - 1];
        var g := Played(inp, limit, face, front);
        PlanApproved(inp, limit, face, front) || (g.waiting && !g.crashed && g.at.Approve? && Approves(last)))
  }

  function LastEvent(g: Graph): Option<Event> {
    if g.stream == [] then None else Some(g.stream[|g.stream| - 1])
  }

  /** How a session stands when its runner is done: raised and closed with an internal failure, waiting with the
      stream open and the question as its last event, or ended with exactly one closing event, the last one, that
      agrees with the stored state. */
  predicate Stands(g: Graph) {
    if g.crashed then Closings(g.stream) == 1 && LastEvent(g) == Some(FailedEvent(Internal, 0, 0, 0.0))
    else if g.waiting then
      && Closings(g.stream) == 0 && LastEvent(g).Some? && LastEvent(g).value.NeedInputEvent?
      && g.durable.session.fsmState == (if g.at.Ask? then NeedInput else AwaitingApproval)
    else
      && g.at.End? && Closings(g.stream) == 1
      && LastEvent(g).Some? && ClosedAs(LastEvent(g).value, g.durable.session.fsmState)
  }

  /** Without approval nothing was generated or announced, and no generation reserved or called. */
  predicate Guarded(g: Graph, approved: bool) {
    !approved ==>
      && NoGeneration(g.ops)
      && g.durable.session.iterations == [] && g.durable.session.best.None?
      && forall i | 0 <= i < |g.stream| :: !g.stream[i].IterationStartEvent?
  }

  /** What the session carries and delivers: the budget of its start, a best that kept the identity, and, when it ended
      through its nodes, a closing event that tells exactly what the plan completed. */
  predicate Delivers(inp: Inputs, limit: Usd, g: Graph) {
    && g.durable.session.budgetLimit == SessionBudget(limit)
    && IdentityHeld(inp, g.durable.session)
    && (!g.crashed && !g.waiting ==> LastEvent(g).Some? && EndsAs(LastEvent(g).value, g.durable.session))
  }

  predicate Facts(inp: Inputs, limit: Usd, g: Graph, approved: bool) {
    Stands(g) && Guarded(g, approved) && MoneyInv(g) && Delivers(inp, limit, g)
  }

  lemma SurfacedGuarded(g: Graph, approved: bool)
    requires ApprovalInv(g, approved) && MoneyInv(g)
    ensures Guarded(Surfaced(g), approved) && MoneyInv(Surfaced(g)) && MoneyInv(Surfaced(g).(waiting := false))
  {
    hide MoneyInv, Approvable, NoGeneration;
    SameMoneyInv(g, Surfaced(g));
    SameMoneyInv(g, Surfaced(g).(waiting := false));
  }

  lemma SurfacedDelivers(inp: Inputs, limit: Usd, g: Graph)
    requires Shaped(g) && DeliveryInv(inp, limit, g) && (g.waiting || g.crashed || g.at.End?)
    ensures Delivers(inp, limit, Surfaced(g))
    ensures g.waiting && !g.crashed ==> DeliveryInv(inp, limit, Surfaced(g).(waiting := false))
  {
    hide IdentityHeld, EndsAs, NoneCompleted, ChainResume.SomeCompleted;
  }

  lemma PausedInv(g: Graph, approved: bool)
    requires Shaped(g) && ClosingInv(g) && ApprovalInv(g, approved) && g.waiting && !g.crashed
    ensures Stands(Surfaced(g))
    ensures ClosingInv(Surfaced(g).(waiting := false)) && ApprovalInv(Surfaced(g).(waiting := false), approved)
  {
    hide Approvable, NoGeneration;
    OneMoreEvent(g.stream, NeedInputEvent("slot"));
    OneMoreEvent(g.stream, NeedInputEvent("approve"));
  }

  lemma SurfacedFacts(inp: Inputs, limit: Usd, g: Graph, approved: bool)
    requires Shaped(g) && GraphInv(inp, limit, g, approved) && (g.waiting || g.crashed || g.at.End?)
    ensures Facts(inp, limit, Surfaced(g), approved)
    ensures Surfaced(g).waiting == g.waiting && Surfaced(g).crashed == g.crashed
    ensures g.waiting && !g.crashed ==> GraphInv(inp, limit, Surfaced(g).(waiting := false), approved)
  {
    hide MoneyInv, Guarded, ApprovalInv, DeliveryInv, Delivers;
    SurfacedGuarded(g, approved);
    SurfacedDelivers(inp, limit, g);
    if g.crashed {
      OneMoreEvent(g.stream, FailedEvent(Internal, 0, 0, 0.0));
    } else if g.waiting {
      hide ClosingInv, Stands;
      PausedInv(g, approved);
    }
  }

  lemma {:induction false} SessionFacts(inp: Inputs, limit: Usd, face: Face, answers: seq<Answer>)
    ensures var g, approved := Played(inp, limit, face, answers), PlanApproved(inp, limit, face, answers);
      && Facts(inp, limit, g, approved)
      && (g.waiting && !g.crashed ==> GraphInv(inp, limit, g.(waiting := false), approved))
    decreases |answers|
  {
    hide GraphInv, Facts, Invoke, Surfaced, Approves;
    if answers == [] {
      var g := Started(limit, face);
      StartedInv(inp, limit, face);
      InvokeInv(inp, limit, g, None, false);
      SurfacedFacts(inp, limit, Invoke(inp, g, None), false);
    } else {
      var front, last := answers[..|answers| - 1], answers[|answers| - 1];
      SessionFacts(inp, limit, face, front);
      var before, approved := Played(inp, limit, face, front), PlanApproved(inp, limit, face, front);
      if before.waiting && !before.crashed {
        var g := before.(waiting := false);
        InvokeInv(inp, limit, g, Some(last), approved);
        SurfacedFacts(inp, limit, Invoke(inp, g, Some(last)), approved || Yes(g, Some(last)));
      } else {
        FactsMore(inp, limit, before, approved, PlanApproved(inp, limit, face, answers));
      }
    }
  }

  lemma FactsMore(inp: Inputs, limit: Usd, g: Graph, approved: bool, more: bool)
    requires Facts(inp, limit, g, approved) && (approved ==> more)
    ensures Facts(inp, limit, g, more)
  {
    hide Stands, MoneyInv, Delivers;
  }

  lemma StartedInv(inp: Inputs, limit: Usd, face: Face)
    ensures Shaped(Started(limit, face)) && GraphInv(inp, limit, Started(limit, face), false)
  {
    hide SessionBudget;
    assert IterationCosts([]) == [] && CallCosts([]) == [];
  }

  /** The whole-session theorem, for any inputs and any answers: how the session stands, and what approval guards. */
  lemma SessionStands(inp: Inputs, limit: Usd, face: Face, answers: seq<Answer>)
    ensures var g := Played(inp, limit, face, answers);
      Stands(g) && Guarded(g, PlanApproved(inp, limit, face, answers))
  {
    hide Played, PlanApproved, Stands, Guarded, MoneyInv, Delivers;
    SessionFacts(inp, limit, face, answers);
  }

  /** A session that ended without a raise closed with done exactly when a step of its stored plan completed, which is
      exactly when it has a best to deliver; its failed event is the other case. */
  lemma DoneIffStepCompleted(inp: Inputs, limit: Usd, face: Face, answers: seq<Answer>)
    requires var g := Played(inp, limit, face, answers); !g.waiting && !g.crashed
    ensures var g := Played(inp, limit, face, answers);
      && LastEvent(g).Some? && ClosedAs(LastEvent(g).value, g.durable.session.fsmState)
      && (LastEvent(g).value.DoneEvent? <==> ChainResume.SomeCompleted(g.durable.session.plan))
      && (LastEvent(g).value.DoneEvent? <==> g.durable.session.best.Some?)
  {
    hide Played, PlanApproved, Guarded, MoneyInv;
    SessionFacts(inp, limit, face, answers);
  }

  /** And its counts are exact: the completed steps of the stored plan, at least one, out of all of them. */
  lemma DoneReportsCompletedSteps(inp: Inputs, limit: Usd, face: Face, answers: seq<Answer>)
    requires var g := Played(inp, limit, face, answers); LastEvent(g).Some? && LastEvent(g).value.DoneEvent?
    ensures var g, plan := Played(inp, limit, face, answers), Played(inp, limit, face, answers).durable.session.plan;
      var e := LastEvent(g).value;
      e.stepsCompleted == |CompletedIndices(plan)| && e.stepsTotal == |plan| && 1 <= e.stepsCompleted <= e.stepsTotal
  {
    hide Played, PlanApproved, Guarded, MoneyInv;
    SessionFacts(inp, limit, face, answers);
    CompletedStepsCounts(Played(inp, limit, face, answers).durable.session.plan);
  }

  /** In every session, however it stands, the best is a recorded frame of the session that cleared its frozen floor. */
  lemma SessionKeepsIdentity(inp: Inputs, limit: Usd, face: Face, answers: seq<Answer>)
    requires Played(inp, limit, face, answers).durable.session.best.Some?
    ensures var s := Played(inp, limit, face, answers).durable.session;
      s.thresholds.Some?
      && ChainRuns.IdentityKept(ChainResume.Charter(inp.cfg.sessionKey, s.thresholds.value, s.plan, None), s)
  {
    hide Played, PlanApproved, Stands, Guarded, MoneyInv, ChainRuns.IdentityKept;
    SessionFacts(inp, limit, face, answers);
  }

  /** Every session carries the budget of its start rounded up to the grid, and meters against exactly that. */
  lemma SessionBudgetOnGrid(inp: Inputs, limit: Usd, face: Face, answers: seq<Answer>)
    ensures var budget := Played(inp, limit, face, answers).durable.session.budgetLimit;
      OnGrid(budget) && ToMicro(budget) == ToMicro(limit)
  {
    hide Played, PlanApproved, Stands, Guarded, MoneyInv;
    SessionFacts(inp, limit, face, answers);
    MicroRoundTrip(ToMicro(limit));
  }

  /** At most `MAX_REASKS + 1` resolve executions in a session, and a raise is the only way not to pause or end. */
  lemma SessionBounded(inp: Inputs, limit: Usd, face: Face, answers: seq<Answer>)
    ensures var g := Played(inp, limit, face, answers);
      g.resolves <= MAX_REASKS + 1 && (g.waiting || g.crashed || g.at.End?)
  {
    hide Played;
  }

  /** What the session reports as spent never exceeds its counter, not even together with the rejected fills that
      the record leaves out. */
  lemma SessionSpendCovered(inp: Inputs, limit: Usd, face: Face, answers: seq<Answer>)
    ensures var g := Played(inp, limit, face, answers);
      CostSpent(g.durable.session) + FromMicro(g.unrecorded) <= FromMicro(g.durable.counter)
    ensures var g := Played(inp, limit, face, answers);
      !g.crashed ==> g.durable.counter == RecordMicro(g.durable.session) + g.unrecorded
  {
    hide Played, PlanApproved, Stands, Guarded, Delivers;
    SessionFacts(inp, limit, face, answers);
    var g := Played(inp, limit, face, answers);
    var s := g.durable.session;
    SumUsdWithinMicro(IterationCosts(s.iterations));
    SumUsdWithinMicro(CallCosts(s.llmCalls));
    assert FromMicro(RecordMicro(s)) == FromMicro(SumMicro(IterationCosts(s.iterations)))
                                      + FromMicro(SumMicro(CallCosts(s.llmCalls)));
    assert FromMicro(RecordMicro(s) + g.unrecorded) == FromMicro(RecordMicro(s)) + FromMicro(g.unrecorded);
  }

  // ----- Entering the loop -----

  /** The states in which an invocation enters its nodes. */
  function Visits(inp: Inputs, g: Graph, resume: Option<Answer>): seq<Graph>
    requires Shaped(g) && !g.waiting
    decreases MAX_REASKS - g.reasks, Position(g.at)
  {
    if g.at.End? || g.crashed then []
    else
      VisitShaped(inp, g, resume);
      var after := Visit(inp, g, resume);
      [g] + (if after.waiting || after.crashed then [] else Visits(inp, after, None))
  }

  /** And those of a whole session. */
  function Visited(inp: Inputs, limit: Usd, face: Face, answers: seq<Answer>): seq<Graph>
    decreases |answers|
  {
    if answers == [] then Visits(inp, Started(limit, face), None)
    else
      var front := answers[..|answers| - 1];
      var before := Played(inp, limit, face, front);
      Visited(inp, limit, face, front)
      + (if !before.waiting || before.crashed then []
         else Visits(inp, before.(waiting := false), Some(answers[|answers| - 1])))
  }

  predicate EntryInv(inp: Inputs, limit: Usd, v: Graph, approved: bool) {
    GraphInv(inp, limit, v, approved) && !v.waiting && !v.crashed
  }

  lemma {:induction false} VisitsInv(inp: Inputs, limit: Usd, g: Graph, resume: Option<Answer>, approved: bool)
    requires Shaped(g) && !g.waiting && GraphInv(inp, limit, g, approved)
    ensures forall v | v in Visits(inp, g, resume) :: EntryInv(inp, limit, v, approved || Yes(g, resume))
    decreases MAX_REASKS - g.reasks, Position(g.at)
  {
    assert g.reasks <= MAX_REASKS;
    hide Visit, GraphInv, Shaped, Approves;
    if !g.at.End? && !g.crashed {
      VisitShaped(inp, g, resume);
      ApprovedMore(inp, limit, g, approved, approved || Yes(g, resume));
      VisitInv(inp, limit, g, resume, approved);
      var after := Visit(inp, g, resume);
      if !after.waiting && !after.crashed {
        VisitsInv(inp, limit, after, None, approved || Yes(g, resume));
      }
    }
  }

  lemma {:induction false} VisitedInv(inp: Inputs, limit: Usd, face: Face, answers: seq<Answer>)
    ensures forall v | v in Visited(inp, limit, face, answers) ::
      EntryInv(inp, limit, v, PlanApproved(inp, limit, face, answers))
    decreases |answers|
  {
    hide GraphInv, Visits, Played, Approves;
    if answers == [] {
      StartedInv(inp, limit, face);
      VisitsInv(inp, limit, Started(limit, face), None, false);
    } else {
      var front, last := answers[..|answers| - 1], answers[|answers| - 1];
      var before, approved := Played(inp, limit, face, front), PlanApproved(inp, limit, face, front);
      VisitedInv(inp, limit, face, front);
      forall v | v in Visited(inp, limit, face, front)
        ensures EntryInv(inp, limit, v, PlanApproved(inp, limit, face, answers))
      {
        ApprovedMore(inp, limit, v, approved, PlanApproved(inp, limit, face, answers));
      }
      if before.waiting && !before.crashed {
        SessionFacts(inp, limit, face, front);
        VisitsInv(inp, limit, before.(waiting := false), Some(last), approved);
      }
    }
  }

  /** Whenever a session reaches the loop, an answer has approved the plan, and the loop is entered on that plan without
      a completed step, an iteration or a best: the chain theorems for fresh runs hold of every session. */
  lemma LoopEnteredFresh(inp: Inputs, limit: Usd, face: Face, answers: seq<Answer>, g: Graph)
    requires g in Visited(inp, limit, face, answers) && g.at.Generate?
    ensures PlanApproved(inp, limit, face, answers) && g.durable.session.approved
    ensures EntersLoop(g) && Approvable(g.durable.session.plan) && NoGeneration(g.ops)
    ensures g.durable.session.iterations == [] && g.durable.session.best.None?
    ensures ChainRuns.Enters(inp.cfg, CharterOf(inp, g), g.durable)
  {
    hide Visited, PlanApproved, ClosingInv, MoneyInv, DeliveryInv, Approvable, ChainRuns.Enters, NoGeneration;
    VisitedInv(inp, limit, face, answers);
    FreshEnters(inp, g);
  }

  // ----- Re-execution -----

  /** An interrupted node re-executed from the top publishes nothing and stores what it stored: pausing again changes
      nothing, and the answer takes effect as if the node had never paused. */
  lemma InterruptIsRepeatable(inp: Inputs, g: Graph, a: Answer)
    requires (g.at.Ask? || g.at.Approve?) && !g.waiting && Execute(inp, g, None).waiting
    ensures var paused := Execute(inp, g, None);
      && paused.stream == g.stream
      && Execute(inp, paused.(waiting := false), None) == paused
      && Execute(inp, paused.(waiting := false), Some(a)) == Execute(inp, g, Some(a))
  {
    hide RunAnalyze, RunQualityGate, RunParseBrief, RunExtractInventory, RunResolve, RunPlanSteps, RunGenerate;
    hide RunDone, RunFail;
    hide Approves, AnswerText;
  }

  /** A generate node executed again, after a crash between its outcome and its checkpoint, replays the recorded
      outcome: no money, no iteration, no second terminal, one stage event. */
  lemma GenerateReplays(inp: Inputs, g: Graph)
    requires EntersLoop(g) && !RunGenerate(inp, g).crashed
    ensures var after := RunGenerate(inp, g);
      RunGenerate(inp, after) == Narrate(after, StageEvent(Generating))
  {
    hide Drive, Worked, TerminalEvent;
  }

  /** Without the record it is not: a process that dies between the loop's terminal and its record drives again, and the
      stream of the session gets a second terminal of the loop, its last event; a result stays a result. */
  lemma LostRecordRepeatsTerminal(inp: Inputs, again: Inputs, x: ChainResume.Charter, g: Graph)
    requires EntersLoop(g) && !RunGenerate(inp, g).crashed && again.cfg == inp.cfg
    requires ChainRuns.Enters(inp.cfg, x, g.durable)
    requires !RunGenerate(again, RunGenerate(inp, g).(idem := None)).crashed
    ensures var first := RunGenerate(inp, g);
      var second := RunGenerate(again, first.(idem := None));
      && first.stream != [] && LoopTerminal(first.stream[|first.stream| - 1])
      && |second.stream| > |first.stream| && second.stream[..|first.stream|] == first.stream
      && LoopTerminal(second.stream[|second.stream| - 1])
      && (forall i | |first.stream| <= i < |second.stream| - 1 :: !LoopTerminal(second.stream[i]))
      && (first.delivered ==> second.delivered)
  {
    hide Drive, Worked, TerminalEvent, ChainRuns.Enters;
    var first := RunGenerate(inp, g);
    EntersAgain(inp.cfg, x, inp.world, g.durable);
    ChainRuns.EntersPlanned(inp.cfg, x, Drive(inp.cfg, inp.world, g.durable).durable);
    LoopTerminates(inp, g);
    LoopTerminates(again, first.(idem := None));
    ChainRuns.ResultIffStepCompleted(inp.cfg, x, inp.world, g.durable);
    ChainRuns.ResultIffStepCompleted(again.cfg, x, again.world, first.durable);
  }

  lemma EntersAgain(cfg: Config, x: ChainResume.Charter, w: World, d: Durable)
    requires ChainRuns.Enters(cfg, x, d)
    ensures d.session.thresholds.Some? && ChainRuns.Enters(cfg, x, Drive(cfg, w, d).durable)
  {
    ChainRuns.EveryStoreStateResumable(cfg, x, w, d);
    hide Drive;
  }

  /** A generate node that ran the loop put the loop's events on the stream, one terminal last. */
  lemma LoopTerminates(inp: Inputs, g: Graph)
    requires g.idem.None? && g.durable.session.thresholds.Some? && !RunGenerate(inp, g).crashed && !g.crashed
    ensures var after, r := RunGenerate(inp, g), Drive(inp.cfg, inp.world, g.durable);
      && after.stream == g.stream + [StageEvent(Generating)] + r.stream && after.durable == r.durable
      && !Worked(inp.cfg, inp.world, g.durable).state.Broken?
      && r.stream != [] && LoopTerminal(r.stream[|r.stream| - 1])
      && (forall i | 0 <= i < |r.stream| - 1 :: !LoopTerminal(r.stream[i]))
      && after.delivered == r.stream[|r.stream| - 1].ResultEvent?
  {
    hide Drive, Worked, TerminalEvent, ChainTrace.Range, ChainTrace.StartNumbers, ChainTrace.ResultNumbers;
    ChainTrace.FinishedRunEvents(inp.cfg, inp.world, g.durable);
    ChainRuns.DriveFinishes(inp.cfg, inp.world, g.durable);
  }
}
