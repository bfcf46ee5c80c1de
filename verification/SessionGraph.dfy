/** The session FSM: graph nodes over the stored session and the stream, routing, interrupts, and the runner that
    drives them from one answer to the next (src/graph/nodes.py, src/graph/builder.py, src/api/deps.py). */
module SessionGraph {
  import opened Schemas
  import opened Money
  import opened Text
  import opened LockItems
  import opened BudgetOps
  import opened ChainSpec
  import Planner

  const MAX_REASKS: nat := 2

  // ----- What the outside answers -----

  /** A budgeted auxiliary call: not attempted, attempted without a usable answer (refunded), or billed. */
  datatype Aux = NotNeeded | Unusable | Billed(cost: Option<Usd>)

  datatype AskSlot = NoSlot | EnumSlot | FreeFormSlot

  /** `fill` and `rejects` answer the slot filler and the injection guard, by number of the resolve execution. */
  datatype Inputs = Inputs(
    gatePasses: bool,
    presetFound: bool,
    presetId: string,
    askSlot: AskSlot,
    brief: string,
    analysis: Planner.Analysis,
    parse: Aux,
    inventoryCall: Aux,
    extracted: Option<Inventory>,
    fill: nat -> Aux,
    rejects: nat -> bool,
    planReply: Planner.PlannerReply,
    thresholds: Thresholds,
    flat: PaidCallKind -> Usd,
    cfg: Config,
    world: World)

  function FillAt(inp: Inputs, n: nat): Aux { inp.fill(n) }
  predicate RejectsAt(inp: Inputs, n: nat) { inp.rejects(n) }
  function FlatEstimate(inp: Inputs, kind: PaidCallKind): Usd { inp.flat(kind) }

  /** What a resume carries: plain text, or the decision object with its text rendering. */
  datatype Answer = Plain(text: string) | Decision(approved: bool, rendered: string)

  function AnswerText(a: Answer): string {
    if a.Plain? then a.text else a.rendered
  }

  predicate Approves(a: Answer) {
    match a
    case Plain(text) => Lower(Strip(text)) in {"approve", "approved", "yes", "true"}
    case Decision(approved, _) => approved
  }

  // ----- The graph's state -----

  datatype Node =
    | Analyze | QualityGate | ParseBrief | ExtractInventory | Ask | ResolveConstraints | PlanSteps
    | Approve | Generate | DoneNode | FailNode | End

  /** The node to run next with the working state, the store and the stream. `idem` is the generation record,
      `ops` every budget operation and generator call so far, `resolves` counts resolve executions, `unrecorded` the
      micro-dollars billed by fills that were then rejected. */
  datatype Graph = Graph(
    at: Node,
    waiting: bool,
    crashed: bool,
    failure: Option<FailureCode>,
    answer: Option<string>,
    reasks: nat,
    reask: bool,
    delivered: bool,
    durable: Durable,
    idem: Option<Event>,
    stream: seq<Event>,
    ops: seq<Op>,
    resolves: nat,
    unrecorded: int)

  /** The record a start makes: the budget goes through the checkpoint as micro-dollars. */
  function NewSession(limit: Usd): Session {
    Session(Created, [], [], [], None, None, SessionBudget(limit), false)
  }

  function Started(limit: Usd, face: Face): Graph {
    Graph(Analyze, false, false, None, None, 0, false, false, Durable(0, NewSession(limit), face), None, [], [], 0, 0)
  }

  function Put(g: Graph, s: Session): Graph {
    g.(durable := g.durable.(session := s))
  }

  function Narrate(g: Graph, e: Event): Graph {
    g.(stream := g.stream + [e])
  }

  /** The bracket every auxiliary connector puts around its call: reserve the flat estimate, then settle or refund. */
  predicate Pays(inp: Inputs, g: Graph, kind: PaidCallKind, call: Aux) {
    call.Billed? && Admits(g.durable.counter, ToMicro(FlatEstimate(inp, kind)), ToMicro(g.durable.session.budgetLimit))
  }

  function AuxCost(inp: Inputs, g: Graph, kind: PaidCallKind, call: Aux): Usd {
    if Pays(inp, g, kind, call) then SettledCost(FlatEstimate(inp, kind), call.cost) else 0.0
  }

  function AuxCounter(inp: Inputs, g: Graph, kind: PaidCallKind, call: Aux): int {
    var estimate := FlatEstimate(inp, kind);
    var reserved := g.durable.counter + ToMicro(estimate);
    if call.NotNeeded? || !Admits(g.durable.counter, ToMicro(estimate), ToMicro(g.durable.session.budgetLimit))
    then g.durable.counter
    else if call.Unusable? then CancelledCounter(reserved, estimate)
    else SettledCounter(reserved, estimate, call.cost)
  }

  /** The budget operations of the bracket. */
  function AuxOps(inp: Inputs, g: Graph, kind: PaidCallKind, call: Aux): seq<Op> {
    var estimate := FlatEstimate(inp, kind);
    var granted := Admits(g.durable.counter, ToMicro(estimate), ToMicro(g.durable.session.budgetLimit));
    if call.NotNeeded? then []
    else if !granted then [Reserved(kind, ToMicro(estimate), false)]
    else [Reserved(kind, ToMicro(estimate), true),
          if call.Unusable? then Op.Cancelled(ToMicro(estimate)) else Settled(ToMicro(SettledCost(estimate,
              call.cost)))]
  }

  function AfterCall(inp: Inputs, g: Graph, kind: PaidCallKind, call: Aux): Graph {
    g.(durable := g.durable.(counter := AuxCounter(inp, g, kind, call)), ops := g.ops + AuxOps(inp, g, kind, call))
  }

  /** Records the line of a paid call, when there was a cost. */
  function WithCall(s: Session, kind: PaidCallKind, cost: Usd): Session {
    if cost > 0.0 then s.(llmCalls := s.llmCalls + [PaidCall(kind, cost)]) else s
  }

  function Recording(inp: Inputs, g: Graph, kind: PaidCallKind, call: Aux): Graph {
    var called := AfterCall(inp, g, kind, call);
    Put(called, WithCall(called.durable.session, kind, AuxCost(inp, g, kind, call)))
  }

  // ----- The nodes -----

  function RunAnalyze(g: Graph): Graph {
    Narrate(Put(g, g.durable.session.(fsmState := FaceCheck)), StageEvent(FaceCheck))
  }

  function RunQualityGate(inp: Inputs, g: Graph): Graph {
    if inp.gatePasses then g else g.(failure := Some(InputRejected))
  }

  function RunParseBrief(inp: Inputs, g: Graph): Graph {
    Recording(inp, g, Classify, if Blank(inp.brief) then NotNeeded else inp.parse)
  }

  /** Once per photo: a profile that carries an inventory is reused, an empty extraction is not stored. */
  function RunExtractInventory(inp: Inputs, g: Graph): Graph {
    if g.durable.face.inventory.Some? then g
    else
      var called := Recording(inp, g, Inventorying, inp.inventoryCall);
      if inp.extracted.None? then called
      else called.(durable := called.durable.(face := called.durable.face.(inventory := inp.extracted)))
  }

  /** The question interrupts, unless the brief answers it or there is nothing to ask. */
  predicate AskInterrupts(inp: Inputs, g: Graph) {
    inp.presetFound && !inp.askSlot.NoSlot? && !(inp.askSlot.FreeFormSlot? && !Blank(inp.brief) && !g.reask)
  }

  function RunAsk(inp: Inputs, g: Graph, resume: Option<Answer>): Graph {
    if !inp.presetFound then g.(failure := Some(NoPreset))
    else if inp.askSlot.NoSlot? then g.(answer := None)
    else if !AskInterrupts(inp, g) then g.(answer := Some(inp.brief))
    else
      var asking := Put(g, g.durable.session.(fsmState := NeedInput));
      if resume.None? then asking.(waiting := true) else asking.(answer := Some(AnswerText(resume.value)))
  }

  function RunResolve(inp: Inputs, g: Graph): Graph {
    var call := FillAt(inp, g.resolves);
    var filled := AfterCall(inp, Narrate(g, StageEvent(Planning)), SlotFill, call).(resolves := g.resolves + 1);
    if RejectsAt(inp, g.resolves) then
      var billed := filled.(unrecorded := g.unrecorded + ToMicro(AuxCost(inp, g, SlotFill, call)));
      if g.reasks >= MAX_REASKS then billed.(failure := Some(SceneRejected))
      else billed.(reasks := g.reasks + 1, reask := true)
    else
      var s := WithCall(filled.durable.session, SlotFill, AuxCost(inp, g, SlotFill, call));
      Put(filled, s.(fsmState := Planning, thresholds := Some(inp.thresholds))).(reask := false)
  }

  predicate HasInventory(g: Graph) {
    g.durable.face.inventory.Some?
  }

  /** The planner's call, seen from the ledger. */
  function PlanCall(inp: Inputs, g: Graph): Aux {
    if !Planner.NeedsCall(inp.analysis, HasInventory(g)) then NotNeeded
    else if Planner.Usable(inp.analysis, HasInventory(g), inp.planReply) then Billed(inp.planReply.billed)
    else Unusable
  }

  function PlanFor(inp: Inputs, g: Graph): seq<EditStep> {
    Planner.FinalPlan(
      Planner.PlannedSteps(inp.analysis, HasInventory(g), Pays(inp, g, SlotFill, PlanCall(inp, g)), inp.planReply),
      inp.analysis, inp.presetId)
  }

  function RunPlanSteps(inp: Inputs, g: Graph): Graph {
    var plan := PlanFor(inp, g);
    var called := Recording(inp, g, SlotFill, PlanCall(inp, g));
    var planned := Put(called, called.durable.session.(plan := plan, fsmState := AwaitingApproval));
    Narrate(Narrate(planned, PlanEvent(plan)), CostEvent)
  }

  function RunApprove(g: Graph, resume: Option<Answer>): Graph {
    if resume.None? then g.(waiting := true)
    else if !Approves(resume.value) then g.(failure := Some(PlanRejected))
    else Put(g, g.durable.session.(approved := true))
  }

  /** The paid loop, once per session: a recorded outcome is replayed, a session without thresholds raises. */
  function RunGenerate(inp: Inputs, g: Graph): Graph {
    var staged := Narrate(g, StageEvent(Generating));
    if g.idem.Some? then staged.(delivered := g.idem.value.ResultEvent?)
    else if g.durable.session.thresholds.None? then staged.(crashed := true)
    else
      var r := Drive(inp.cfg, inp.world, g.durable);
      var ch := Worked(inp.cfg, inp.world, g.durable);
      var driven := staged.(durable := r.durable, stream := staged.stream + r.stream, ops := staged.ops + r.ops);
      if ch.state.Broken? then driven.(crashed := true)
      else
        var outcome := TerminalEvent(ch.run.session, ch.code);
        driven.(idem := Some(outcome), delivered := outcome.ResultEvent?)
  }

  function CompletedSteps(plan: seq<EditStep>): nat {
    if plan == [] then 0
    else CompletedSteps(plan[..|plan| - 1]) + (if plan[|plan| - 1].status == Completed then 1 else 0)
  }

  function RunDone(g: Graph): Graph {
    Narrate(g, DoneEvent(CompletedSteps(g.durable.session.plan), |g.durable.session.plan|))
  }

  function RunFail(g: Graph): Graph {
    var s := g.durable.session.(fsmState := Failed);
    Narrate(Put(g, s), FailedEvent(g.failure.GetOr(Internal), |s.iterations|, GenerationsSpent(s.iterations),
        CostSpent(s)))
  }

  function Execute(inp: Inputs, g: Graph, resume: Option<Answer>): Graph {
    match g.at
    case Analyze => RunAnalyze(g)
    case QualityGate => RunQualityGate(inp, g)
    case ParseBrief => RunParseBrief(inp, g)
    case ExtractInventory => RunExtractInventory(inp, g)
    case Ask => RunAsk(inp, g, resume)
    case ResolveConstraints => RunResolve(inp, g)
    case PlanSteps => RunPlanSteps(inp, g)
    case Approve => RunApprove(g, resume)
    case Generate => RunGenerate(inp, g)
    case DoneNode => RunDone(g)
    case FailNode => RunFail(g)
    case End => g
  }

  /** The edges of the graph. */
  function Next(g: Graph): Node {
    match g.at
    case Analyze => QualityGate
    case QualityGate => if g.failure.Some? then FailNode else ParseBrief
    case ParseBrief => ExtractInventory
    case ExtractInventory => Ask
    case Ask => if g.failure.Some? then FailNode else ResolveConstraints
    case ResolveConstraints => if g.failure.Some? then FailNode else if g.reask then Ask else PlanSteps
    case PlanSteps => Approve
    case Approve => if g.failure.Some? then FailNode else Generate
    case Generate => if g.delivered then DoneNode else End
    case _ => End
  }

  /** One node: an interrupted or crashed node is not left. */
  function Visit(inp: Inputs, g: Graph, resume: Option<Answer>): Graph {
    var after := Execute(inp, g, resume);
    if after.waiting || after.crashed then after else after.(at := Next(after))
  }

  // ----- Invocations and the runner -----

  /** `ask` and `resolve_constraints` form the only cycle, and every round of it spends a re-ask. */
  predicate Shaped(g: Graph) {
    && g.reasks <= MAX_REASKS
    && (Position(g.at) >= Position(ResolveConstraints) ==> g.resolves == g.reasks)
    && g.resolves <= g.reasks + 1
    && (g.waiting ==> g.at.Ask? || g.at.Approve?)
    && (g.failure.Some? ==> g.at.FailNode? || g.at.End?)
  }

  function Position(n: Node): nat {
    match n
    case Analyze => 11
    case QualityGate => 10
    case ParseBrief => 9
    case ExtractInventory => 8
    case Ask => 7
    case ResolveConstraints => 6
    case PlanSteps => 5
    case Approve => 4
    case Generate => 3
    case DoneNode => 2
    case FailNode => 2
    case End => 0
  }

  predicate Progressed(g: Graph, after: Graph) {
    && Shaped(after)
    && (after.waiting || after.crashed || after.reasks > g.reasks
        || (after.reasks == g.reasks && Position(after.at) < Position(g.at)))
  }

  /** Nodes that only touch store and stream. */
  lemma PlainVisit(inp: Inputs, g: Graph, resume: Option<Answer>)
    requires Shaped(g) && !g.waiting && !g.crashed
    requires g.at in {Analyze, ParseBrief, ExtractInventory, PlanSteps, DoneNode, FailNode}
    ensures Progressed(g, Visit(inp, g, resume))
  {
    hide RunAsk, RunApprove, RunResolve, RunGenerate, RunQualityGate;
    hide AuxCounter, AuxOps, AuxCost, WithCall, PlanFor, RunDone, RunFail;
    WithCallKeeps(g.durable.session, SlotFill, AuxCost(inp, g, SlotFill, PlanCall(inp, g)));
    DoneFlow(g);
    FailFlow(g);
  }

  lemma WithCallKeeps(s: Session, kind: PaidCallKind, cost: Usd)
    ensures WithCall(s, kind, cost) == s.(llmCalls := WithCall(s, kind, cost).llmCalls)
  {
  }

  lemma DoneFlow(g: Graph)
    ensures RunDone(g) == g.(stream := RunDone(g).stream)
  {
  }

  lemma FailFlow(g: Graph)
    ensures RunFail(g) == g.(stream := RunFail(g).stream, durable := RunFail(g).durable)
  {
  }

  lemma AskVisit(inp: Inputs, g: Graph, resume: Option<Answer>)
    requires Shaped(g) && !g.waiting && !g.crashed && (g.at.Ask? || g.at.Approve? || g.at.QualityGate?)
    ensures Progressed(g, Visit(inp, g, resume))
  {
    hide RunAnalyze, RunParseBrief, RunExtractInventory, RunResolve, RunPlanSteps, RunGenerate, RunDone, RunFail;
    hide Approves, AskInterrupts, AnswerText;
  }

  lemma ResolveVisit(inp: Inputs, g: Graph, resume: Option<Answer>)
    requires Shaped(g) && !g.waiting && !g.crashed && g.at.ResolveConstraints?
    ensures Progressed(g, Visit(inp, g, resume))
  {
    hide RunAnalyze, RunParseBrief, RunExtractInventory, RunAsk, RunApprove, RunPlanSteps, RunGenerate, RunDone;
    hide RunFail;
    hide AuxCounter, AuxOps, AuxCost, WithCall;
  }

  lemma GenerateVisit(inp: Inputs, g: Graph, resume: Option<Answer>)
    requires Shaped(g) && !g.waiting && !g.crashed && g.at.Generate?
    ensures Progressed(g, Visit(inp, g, resume))
  {
    hide RunAnalyze, RunParseBrief, RunExtractInventory, RunAsk, RunApprove, RunPlanSteps, RunResolve, RunDone, RunFail;
    hide Drive, Worked, TerminalEvent;
  }

  lemma VisitShaped(inp: Inputs, g: Graph, resume: Option<Answer>)
    requires Shaped(g) && !g.waiting && !g.crashed && !g.at.End?
    ensures Progressed(g, Visit(inp, g, resume))
  {
    hide Visit, Shaped;
    match g.at
    case Ask => AskVisit(inp, g, resume);
    case Approve => AskVisit(inp, g, resume);
    case QualityGate => AskVisit(inp, g, resume);
    case ResolveConstraints => ResolveVisit(inp, g, resume);
    case Generate => GenerateVisit(inp, g, resume);
    case _ =>
      PlainVisit(inp, g, resume);
  }

  /** Runs the graph from a node until it pauses on an interrupt, ends or raises. A resume value goes to the
      interrupt of the node it re-executes. */
  function Invoke(inp: Inputs, g: Graph, resume: Option<Answer>): (after: Graph)
    requires Shaped(g) && !g.waiting
    ensures Shaped(after) && (after.waiting || after.crashed || after.at.End?)
    decreases MAX_REASKS - g.reasks, Position(g.at)
  {
    if g.at.End? || g.crashed then g
    else
      VisitShaped(inp, g, resume);
      var after := Visit(inp, g, resume);
      if after.waiting || after.crashed then after else Invoke(inp, after, None)
  }

  /** The runner narrates a pause or a raise; the nodes themselves publish nothing before an interrupt. */
  function Surfaced(g: Graph): Graph {
    if g.crashed then Narrate(g, FailedEvent(Internal, 0, 0, 0.0))
    else if g.waiting then Narrate(g, NeedInputEvent(if g.at.Ask? then "slot" else "approve"))
    else g
  }

  /** A whole session: started, then resumed with each answer while it waits for one. */
  function Played(inp: Inputs, limit: Usd, face: Face, answers: seq<Answer>): (g: Graph)
    ensures Shaped(g) && (g.waiting || g.crashed || g.at.End?)
    decreases |answers|
  {
    if answers == [] then Surfaced(Invoke(inp, Started(limit, face), None))
    else
      var before := Played(inp, limit, face, answers[..|answers| - 1]);
      if !before.waiting || before.crashed then before
      else Surfaced(Invoke(inp, before.(waiting := false), Some(answers[|answers| - 1])))
  }
}
