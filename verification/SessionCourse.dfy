/** The course of a session, told from the answers alone: what it asks, when it gives up, and which answer to the
    approval question lets it generate (src/graph/nodes.py, src/graph/builder.py, src/api/deps.py). */
module SessionCourse {
  import opened Schemas
  import opened Money
  import opened Text
  import opened ChainSpec
  import opened SessionGraph
  import opened SessionRuns
  import opened SessionOutcomes
  import ChainRecord
  import SessionDelivery
  import SessionMoney

  /** `Asking` waits at the preset's question after `rejected` rejected scenes, `Deciding` at the approval question.
      `GaveUp` ended before the loop, `Approved` went into it. */
  datatype Stand = Asking(rejected: nat) | Deciding | GaveUp(code: FailureCode) | Approved

  /** After the scene of resolve number `k`: a clean one is planned. A rejected one is asked for again, at most twice; a
      preset without a question resolves again at once. */
  function Resolved(inp: Inputs, k: nat): Stand
    decreases 2 - k
  {
    if !inp.rejects(k) then Deciding
    else if k >= 2 then GaveUp(SceneRejected)
    else if inp.askSlot.NoSlot? then Resolved(inp, k + 1)
    else Asking(k + 1)
  }

  /** How a session opens: an unusable photo and an unknown preset end it; a question with listed options is always
      asked, a free one only when the brief does not answer it. */
  function Opening(inp: Inputs): Stand {
    if !inp.gatePasses then GaveUp(InputRejected)
    else if !inp.presetFound then GaveUp(NoPreset)
    else if inp.askSlot.EnumSlot? || (inp.askSlot.FreeFormSlot? && Strip(inp.brief) == "") then Asking(0)
    else Resolved(inp, 0)
  }

  /** Neither a true decision nor one of the four words of consent, in any case and padding. */
  predicate SaysNo(a: Answer) {
    match a
    case Decision(approved, _) => !approved
    case Plain(text) =>
      var word := Lower(Strip(text));
      word != "approve" && word != "approved" && word != "yes" && word != "true"
  }

  /** What an answer does. */
  function Answered(inp: Inputs, st: Stand, a: Answer): Stand {
    match st
    case Asking(k) => Resolved(inp, k)
    case Deciding =>
      if SaysNo(a) then GaveUp(PlanRejected) else Approved
    case _ => st
  }

  function Course(inp: Inputs, answers: seq<Answer>): Stand {
    if answers == [] then Opening(inp)
    else Answered(inp, Course(inp, answers[..|answers| - 1]), answers[|answers| - 1])
  }

  /** The failure a session ends with, and what it had used and spent by then. */
  function FailureOf(s: Session, code: FailureCode): Event {
    FailedEvent(code, |s.iterations|, GenerationsSpent(s.iterations), CostSpent(s))
  }

  /** The graph stands where the course says. */
  predicate At(g: Graph, st: Stand) {
    match st
    case Asking(k) => g.waiting && !g.crashed && g.at.Ask? && g.resolves == k && g.reasks == k && (g.reask <==> k > 0)
    case Deciding => g.waiting && !g.crashed && g.at.Approve?
    case GaveUp(code) =>
      && !g.waiting && !g.crashed && g.at.End? && g.durable.session.fsmState == Failed
      && LastEvent(g) == Some(FailureOf(g.durable.session, code))
    case Approved =>
      && !g.waiting && (g.crashed || g.at.End?)
      && g.durable.session.approved && StageEvent(Generating) in g.stream
  }

  // ----- From each node on -----

  lemma InvokeStep(inp: Inputs, g: Graph, resume: Option<Answer>)
    requires Shaped(g) && !g.waiting && !g.crashed && !g.at.End?
    ensures var after := Visit(inp, g, resume);
      && Shaped(after)
      && Invoke(inp, g, resume) == if after.waiting || after.crashed then after else Invoke(inp, after, None)
  {
    VisitShaped(inp, g, resume);
    hide Visit, Shaped;
  }

  lemma EndStays(inp: Inputs, g: Graph)
    requires Shaped(g) && !g.waiting && (g.at.End? || g.crashed)
    ensures Invoke(inp, g, None) == g
  {
  }

  lemma FailReaches(inp: Inputs, g: Graph, code: FailureCode)
    requires Shaped(g) && g.at.FailNode? && !g.waiting && !g.crashed && g.failure == Some(code)
    ensures At(Invoke(inp, g, None), GaveUp(code))
  {
    InvokeStep(inp, g, None);
    FailVisit(inp, g, code);
    hide Visit, Invoke;
    EndStays(inp, Visit(inp, g, None));
  }

  lemma FailVisit(inp: Inputs, g: Graph, code: FailureCode)
    requires g.at.FailNode? && !g.waiting && !g.crashed && g.failure == Some(code)
    ensures At(Visit(inp, g, None), GaveUp(code))
  {
    hide GenerationsSpent, CostSpent;
  }

  lemma GenerateReaches(inp: Inputs, g: Graph)
    requires Shaped(g) && EntersLoop(g) && g.durable.session.approved
    ensures At(Invoke(inp, g, None), Approved)
  {
    hide Visit, Drive, Worked, Invoke;
    InvokeStep(inp, g, None);
    GenerateFields(inp, g, None);
    ChainRecord.RunKeepsTerms(inp.cfg, inp.world, g.durable);
    var after := Visit(inp, g, None);
    assert after.stream[|g.stream|] == StageEvent(Generating);
    if !after.crashed {
      if after.at.DoneNode? {
        DoneReaches(inp, after);
      } else {
        EndStays(inp, after);
      }
    }
  }

  lemma DoneReaches(inp: Inputs, g: Graph)
    requires Shaped(g) && g.at.DoneNode? && !g.waiting && !g.crashed
    requires g.durable.session.approved && StageEvent(Generating) in g.stream
    ensures At(Invoke(inp, g, None), Approved)
  {
    InvokeStep(inp, g, None);
    DoneVisit(inp, g);
    hide Visit, Invoke;
    EndStays(inp, Visit(inp, g, None));
  }

  lemma DoneVisit(inp: Inputs, g: Graph)
    requires g.at.DoneNode? && !g.waiting && !g.crashed
    requires g.durable.session.approved && StageEvent(Generating) in g.stream
    ensures At(Visit(inp, g, None), Approved) && Visit(inp, g, None).at.End? && !Visit(inp, g, None).crashed
  {
    hide CompletedSteps;
    var i :| 0 <= i < |g.stream| && g.stream[i] == StageEvent(Generating);
    assert Visit(inp, g, None).stream[i] == StageEvent(Generating);
  }

  /** Ready to be approved: the loop has not run and the thresholds are frozen. */
  predicate Approving(g: Graph) {
    g.at.Approve? && !g.waiting && !g.crashed && g.failure.None? && g.idem.None? && g.durable.session.thresholds.Some?
  }

  lemma ApproveReaches(inp: Inputs, g: Graph, a: Answer)
    requires Shaped(g) && Approving(g)
    ensures At(Invoke(inp, g, Some(a)), Answered(inp, Deciding, a))
  {
    InvokeStep(inp, g, Some(a));
    ApproveVisit(inp, g, a);
    hide Visit, Invoke, Answered;
    var after := Visit(inp, g, Some(a));
    if after.at.Generate? {
      GenerateReaches(inp, after);
    } else {
      FailReaches(inp, after, PlanRejected);
    }
  }

  lemma ApproveVisit(inp: Inputs, g: Graph, a: Answer)
    requires Approving(g)
    ensures var after := Visit(inp, g, Some(a));
      if Answered(inp, Deciding, a).Approved? then EntersLoop(after) && after.durable.session.approved
      else
        && Answered(inp, Deciding, a) == GaveUp(PlanRejected)
        && after.at.FailNode? && !after.waiting && !after.crashed && after.failure == Some(PlanRejected)
  {
    hide Lower, Strip;
  }

  lemma PlanReaches(inp: Inputs, g: Graph)
    requires Shaped(g) && g.at.PlanSteps? && !g.waiting && !g.crashed && g.failure.None?
    ensures At(Invoke(inp, g, None), Deciding)
  {
    InvokeStep(inp, g, None);
    PlanFields(inp, g, None);
    hide Visit, Invoke, Leaves;
    var after := Visit(inp, g, None);
    PlanKeepsFailure(inp, g);
    InvokeStep(inp, after, None);
    ApprovePauses(inp, after);
  }

  lemma PlanKeepsFailure(inp: Inputs, g: Graph)
    requires g.at.PlanSteps? && !g.waiting && !g.crashed
    ensures var after := Visit(inp, g, None); !after.crashed && after.failure == g.failure && after.idem == g.idem
    ensures Visit(inp, g, None).durable.session.thresholds == g.durable.session.thresholds
  {
    hide PlanFor, AuxCounter, AuxOps, AuxCost;
  }

  lemma ApprovePauses(inp: Inputs, g: Graph)
    requires g.at.Approve? && !g.waiting && !g.crashed
    ensures At(Visit(inp, g, None), Deciding)
  {
  }

  /** About to run node `n` with nothing failed, after `k` rejected scenes. */
  predicate Unasked(g: Graph, k: nat) {
    && Shaped(g) && !g.waiting && !g.crashed && g.failure.None?
    && g.reasks == k && g.resolves == k && (g.reask <==> k > 0)
  }

  lemma ResolveLeads(inp: Inputs, g: Graph, k: nat)
    requires g.at.ResolveConstraints? && Unasked(g, k)
    ensures var after := Visit(inp, g, None);
      && !after.waiting && !after.crashed
      && (if !RejectsAt(inp, k) then after.at.PlanSteps? && after.failure.None?
          else if k >= 2 then after.at.FailNode? && after.failure == Some(SceneRejected)
          else
            && after.at.Ask? && after.failure.None?
            && after.reasks == k + 1 && after.resolves == k + 1 && after.reask)
  {
    hide RunAnalyze, RunQualityGate, RunParseBrief, RunExtractInventory, RunAsk, RunApprove, RunGenerate, RunDone;
    hide RunFail, RunPlanSteps, AuxCounter, AuxOps, AuxCost, WithCall;
  }

  lemma AskLeads(inp: Inputs, g: Graph, k: nat, resume: Option<Answer>)
    requires g.at.Ask? && Unasked(g, k) && inp.presetFound
    ensures var after := Visit(inp, g, resume);
      var asks := inp.askSlot.EnumSlot? || (inp.askSlot.FreeFormSlot? && (Strip(inp.brief) == "" || k > 0));
      && !after.crashed && after.failure.None? && after.reasks == k && after.resolves == k && after.reask == g.reask
      && (if asks && resume.None? then after.waiting && after.at.Ask?
          else !after.waiting && after.at.ResolveConstraints?)
  {
    hide RunAnalyze, RunQualityGate, RunParseBrief, RunExtractInventory, RunApprove, RunGenerate, RunDone, RunFail;
    hide RunPlanSteps, RunResolve, Strip, AnswerText;
  }

  lemma ResolveReaches(inp: Inputs, g: Graph, k: nat)
    requires g.at.ResolveConstraints? && Unasked(g, k) && inp.presetFound
    ensures At(Invoke(inp, g, None), Resolved(inp, k))
    decreases 2 - k
  {
    hide Visit, Invoke, Strip;
    InvokeStep(inp, g, None);
    ResolveLeads(inp, g, k);
    var after := Visit(inp, g, None);
    hide At, Shaped;
    if !RejectsAt(inp, k) {
      PlanReaches(inp, after);
    } else if k >= 2 {
      FailReaches(inp, after, SceneRejected);
    } else {
      InvokeStep(inp, after, None);
      AskLeads(inp, after, k + 1, None);
      var asked := Visit(inp, after, None);
      if asked.waiting {
        WaitsAsking(asked, k + 1);
      } else {
        ResolveReaches(inp, asked, k + 1);
      }
    }
  }

  lemma WaitsAsking(g: Graph, k: nat)
    requires g.waiting && !g.crashed && g.at.Ask? && g.resolves == k && g.reasks == k && (g.reask <==> k > 0)
    ensures At(g, Asking(k))
  {
  }

  lemma AskReaches(inp: Inputs, g: Graph, k: nat, resume: Option<Answer>)
    requires g.at.Ask? && Unasked(g, k) && inp.presetFound
    ensures var asks := inp.askSlot.EnumSlot? || (inp.askSlot.FreeFormSlot? && (Strip(inp.brief) == "" || k > 0));
      At(Invoke(inp, g, resume), if asks && resume.None? then Asking(k) else Resolved(inp, k))
  {
    hide Visit, Invoke, Strip, At, Resolved;
    InvokeStep(inp, g, resume);
    AskLeads(inp, g, k, resume);
    var after := Visit(inp, g, resume);
    hide Shaped;
    if after.waiting {
      WaitsAsking(after, k);
    } else {
      ResolveReaches(inp, after, k);
    }
  }

  // ----- The opening -----

  lemma OpeningLeads(inp: Inputs, g: Graph)
    requires g.at in {Analyze, QualityGate, ParseBrief, ExtractInventory} && Unasked(g, 0)
    ensures var after := Visit(inp, g, None);
      && !after.waiting && !after.crashed && after.reasks == 0 && after.resolves == 0 && !after.reask
      && (if g.at.QualityGate? && !inp.gatePasses
          then after.at.FailNode? && after.failure == Some(InputRejected)
          else
            && after.failure.None?
            && after.at == (match g.at
                            case Analyze => QualityGate
                            case QualityGate => ParseBrief
                            case ParseBrief => ExtractInventory
                            case _ => Ask))
  {
    hide RunResolve, RunAsk, RunApprove, RunGenerate, RunDone, RunFail, RunPlanSteps;
    hide AuxCounter, AuxOps, AuxCost, WithCall;
  }

  lemma UnknownPreset(inp: Inputs, g: Graph)
    requires g.at.Ask? && Unasked(g, 0) && !inp.presetFound
    ensures At(Invoke(inp, g, None), GaveUp(NoPreset))
  {
    InvokeStep(inp, g, None);
    UnknownPresetLeads(inp, g);
    hide Visit, Invoke;
    FailReaches(inp, Visit(inp, g, None), NoPreset);
  }

  lemma UnknownPresetLeads(inp: Inputs, g: Graph)
    requires g.at.Ask? && Unasked(g, 0) && !inp.presetFound
    ensures var after := Visit(inp, g, None);
      after.at.FailNode? && !after.waiting && !after.crashed && after.failure == Some(NoPreset)
  {
    hide RunAnalyze, RunQualityGate, RunParseBrief, RunExtractInventory, RunApprove, RunGenerate, RunDone, RunFail;
    hide RunPlanSteps, RunResolve;
  }

  /** From any of the nodes before the question. */
  lemma OpeningReaches(inp: Inputs, g: Graph)
    requires g.at in {Analyze, QualityGate, ParseBrief, ExtractInventory, Ask} && Unasked(g, 0)
    requires Position(g.at) < Position(QualityGate) ==> inp.gatePasses
    ensures At(Invoke(inp, g, None), Opening(inp))
    decreases Position(g.at)
  {
    hide Visit, Invoke, Strip, At, Resolved;
    if g.at.Ask? {
      if inp.presetFound {
        AskReaches(inp, g, 0, None);
      } else {
        UnknownPreset(inp, g);
      }
    } else {
      InvokeStep(inp, g, None);
      OpeningLeads(inp, g);
      var after := Visit(inp, g, None);
      if after.at.FailNode? {
        FailReaches(inp, after, InputRejected);
      } else {
        OpeningReaches(inp, after);
      }
    }
  }

  // ----- The whole session -----

  lemma SurfacedAt(g: Graph, st: Stand)
    requires At(g, st)
    ensures At(Surfaced(g), st)
  {
    if st.Approved? {
      var i :| 0 <= i < |g.stream| && g.stream[i] == StageEvent(Generating);
      assert g.crashed ==> Surfaced(g).stream[i] == StageEvent(Generating);
    }
  }

  /** A session can only be at the question, or refused for a rejected scene, with a known preset. */
  predicate Sensible(inp: Inputs, st: Stand) {
    st.Asking? ==> inp.presetFound
  }

  lemma {:induction false} ResolvedSensible(inp: Inputs, k: nat)
    requires inp.presetFound
    ensures Sensible(inp, Resolved(inp, k))
    decreases 2 - k
  {
    if RejectsAt(inp, k) && k < 2 && inp.askSlot.NoSlot? {
      ResolvedSensible(inp, k + 1);
    }
  }

  lemma {:induction false} CourseSensible(inp: Inputs, answers: seq<Answer>)
    ensures Sensible(inp, Course(inp, answers))
    decreases |answers|
  {
    hide Resolved, Strip, Lower;
    if answers == [] {
      if inp.presetFound {
        ResolvedSensible(inp, 0);
      }
    } else {
      var front := answers[..|answers| - 1];
      CourseSensible(inp, front);
      if Course(inp, front).Asking? {
        ResolvedSensible(inp, Course(inp, front).rejected);
      }
    }
  }

  /** The whole session graph refines the course: for any inputs and any answers it stands where the course says. */
  lemma {:induction false} SessionFollowsCourse(inp: Inputs, limit: Usd, face: Face, answers: seq<Answer>)
    ensures At(Played(inp, limit, face, answers), Course(inp, answers))
    decreases |answers|
  {
    hide Invoke, Surfaced, At, Opening, Answered, GraphInv, Facts, PlanApproved;
    if answers == [] {
      var g := Started(limit, face);
      OpeningReaches(inp, g);
      SurfacedAt(Invoke(inp, g, None), Opening(inp));
    } else {
      var front, last := answers[..|answers| - 1], answers[|answers| - 1];
      SessionFollowsCourse(inp, limit, face, front);
      CourseSensible(inp, front);
      SessionFacts(inp, limit, face, front);
      var before, st := Played(inp, limit, face, front), Course(inp, front);
      AnswerFollows(inp, limit, before, st, last, PlanApproved(inp, limit, face, front));
      if before.waiting && !before.crashed {
        SurfacedAt(Invoke(inp, before.(waiting := false), Some(last)), Answered(inp, st, last));
      }
    }
  }

  lemma AnswerFollows(inp: Inputs, limit: Usd, g: Graph, st: Stand, a: Answer, approved: bool)
    requires Shaped(g) && At(g, st) && Sensible(inp, st)
    requires g.waiting && !g.crashed ==> GraphInv(inp, limit, g.(waiting := false), approved)
    ensures g.waiting && !g.crashed ==> At(Invoke(inp, g.(waiting := false), Some(a)), Answered(inp, st, a))
    ensures !g.waiting || g.crashed ==> Answered(inp, st, a) == st
  {
    hide Invoke, ClosingInv, SessionMoney.MoneyInv, SessionDelivery.DeliveryInv, Resolved, Lower, Strip;
    hide NoGeneration, Approvable;
    if g.waiting && !g.crashed {
      var resumed := g.(waiting := false);
      match st
      case Asking(k) =>
        AskedAgain(inp, resumed, k, a);
      case Deciding =>
        ApproveReaches(inp, resumed, a);
    }
  }

  lemma AskedAgain(inp: Inputs, g: Graph, k: nat, a: Answer)
    requires g.at.Ask? && Unasked(g, k) && inp.presetFound
    ensures At(Invoke(inp, g, Some(a)), Resolved(inp, k))
  {
    hide Invoke, At, Resolved, Strip;
    AskReaches(inp, g, k, Some(a));
  }

  // ----- What approval means -----

  /** An answer approved the plan exactly when the course went into the loop. */
  lemma {:induction false} ApprovedIffInLoop(inp: Inputs, limit: Usd, face: Face, answers: seq<Answer>)
    ensures PlanApproved(inp, limit, face, answers) <==> Course(inp, answers).Approved?
    decreases |answers|
  {
    hide Played, Opening, Resolved, Strip, Lower;
    if answers == [] {
      OpeningNotApproved(inp);
    } else {
      var front, last := answers[..|answers| - 1], answers[|answers| - 1];
      ApprovedIffInLoop(inp, limit, face, front);
      SessionFollowsCourse(inp, limit, face, front);
      AnswerApproves(inp, last);
      if Course(inp, front).Asking? {
        ResolvedNotApproved(inp, Course(inp, front).rejected);
      }
      hide Approves;
    }
  }

  lemma AnswerApproves(inp: Inputs, a: Answer)
    ensures Answered(inp, Deciding, a).Approved? <==> Approves(a)
  {
    hide Lower, Strip;
  }

  lemma {:induction false} ResolvedNotApproved(inp: Inputs, k: nat)
    ensures !Resolved(inp, k).Approved?
    decreases 2 - k
  {
    if RejectsAt(inp, k) && k < 2 && inp.askSlot.NoSlot? {
      ResolvedNotApproved(inp, k + 1);
    }
  }

  lemma OpeningNotApproved(inp: Inputs)
    ensures !Opening(inp).Approved?
  {
    hide Resolved, Strip;
    ResolvedNotApproved(inp, 0);
  }

  /** A plan turned down is never generated. When the answer to the approval question is a false decision, or text other
      than the four words, the session ends with a plan-rejected failure as its last event and in the failed state; no
      generation was reserved or called, nothing recorded. */
  lemma RejectedPlanIsNotGenerated(inp: Inputs, limit: Usd, face: Face, answers: seq<Answer>, a: Answer)
    requires var g := Played(inp, limit, face, answers); g.waiting && !g.crashed && g.at.Approve?
    requires SaysNo(a)
    ensures var g := Played(inp, limit, face, answers + [a]);
      && !g.waiting && !g.crashed && g.at.End? && g.durable.session.fsmState == Failed
      && g.stream != [] && g.stream[|g.stream| - 1] == FailureOf(g.durable.session, PlanRejected)
      && NoGeneration(g.ops) && g.durable.session.iterations == [] && g.durable.session.best.None?
      && forall i | 0 <= i < |g.stream| :: !g.stream[i].IterationStartEvent?
  {
    var all := answers + [a];
    assert all[..|all| - 1] == answers;
    SessionFollowsCourse(inp, limit, face, answers);
    SessionFollowsCourse(inp, limit, face, all);
    ApprovedIffInLoop(inp, limit, face, all);
    SessionStands(inp, limit, face, all);
    hide Played, PlanApproved, Lower, Strip, Opening, Resolved, Stands, NoGeneration;
    assert Course(inp, answers).Deciding?;
    assert Course(inp, all) == GaveUp(PlanRejected);
  }

  /** And a true decision, or one of the four words in any case and padding, enters the paid loop. */
  lemma ApprovedPlanIsGenerated(inp: Inputs, limit: Usd, face: Face, answers: seq<Answer>, a: Answer)
    requires var g := Played(inp, limit, face, answers); g.waiting && !g.crashed && g.at.Approve?
    requires !SaysNo(a)
    ensures var g := Played(inp, limit, face, answers + [a]);
      && g.durable.session.approved && StageEvent(Generating) in g.stream && !g.waiting
      && PlanApproved(inp, limit, face, answers + [a])
  {
    var all := answers + [a];
    assert all[..|all| - 1] == answers;
    SessionFollowsCourse(inp, limit, face, answers);
    SessionFollowsCourse(inp, limit, face, all);
    ApprovedIffInLoop(inp, limit, face, all);
    hide Played, PlanApproved, Lower, Strip, Opening, Resolved;
    assert Course(inp, answers).Deciding?;
    assert Course(inp, all) == Stand.Approved;
  }
}
