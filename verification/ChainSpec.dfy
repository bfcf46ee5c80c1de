/** The generation run as a function of what the provider, the face check and the writer answer
    (src/services/generation_loop.py). The class in GenerationLoop.dfy is proved to compute it. */
module ChainSpec {
  import opened Schemas
  import opened Money
  import opened Text
  import opened LockItems
  import opened BudgetOps

  // ----- What the outside world answers -----

  datatype CheckReply = CheckCrashed | NoFaceDetected | Scored(similarity: real)

  /** One generator call: billed without an image, failed without a bill, or a frame. `kept` is false
      when post-processing or storing the paid frame raises. */
  datatype ProviderReply =
    | Refused(billed: Option<Usd>)
    | TransportFailed
    | Frame(billed: Option<Usd>, image: Bytes, kept: bool, check: CheckReply)

  datatype LlmReply = LlmFailed | Composed(billed: Option<Usd>, body: string)

  /** Everything a run can observe: the stored photo, and per iteration number the provider's and the
      writer's answer. */
  datatype World = World(reference: Option<Bytes>, provider: nat -> ProviderReply, writer: nat -> LlmReply)

  // ----- Configuration -----

  datatype OutputSize = OneK | FourK

  datatype Prompt =
    | EditPrompt(body: string, change: string, locks: seq<LockItem>)
    | PlainPrompt(body: string)

  /** `injected` and `poisoned` are the guards' verdicts on a text and on a rendered lock item,
      `template` the deterministic body of a step and `price` the padded reservation for a prompt. */
  datatype Config = Config(
    sessionKey: string,
    presetTitle: string,
    maxIterations: int,
    llmWriter: bool,
    flatEstimate: Usd,
    preserve: seq<string>,
    injected: string -> bool,
    poisoned: LockItem -> bool,
    template: EditStep -> string,
    emphasize: string -> string,
    price: (Prompt, OutputSize) -> Usd)

  const ENHANCE_BODY: string := "enhance the technical rendering quality"
  const ENHANCE_CHANGE: string := "enhance rendering quality"

  function ReplyAt(w: World, n: nat): ProviderReply { w.provider(n) }
  function LlmReplyAt(w: World, n: nat): LlmReply { w.writer(n) }
  function Estimate(cfg: Config, prompt: Prompt, size: OutputSize): Usd { cfg.price(prompt, size) }
  predicate Injected(cfg: Config, text: string) { cfg.injected(text) }
  function TemplateBody(cfg: Config, step: EditStep): string { cfg.template(step) }
  function Emphasized(cfg: Config, body: string): string { cfg.emphasize(body) }

  // ----- The state a run reads and writes -----

  datatype Face = Face(inventory: Option<Inventory>, convergence: Convergence)

  /** What the store holds for the session: all that survives a crash. */
  datatype Durable = Durable(counter: int, session: Session, face: Face)

  /** One interaction with the budget meter or the generator. */
  datatype Op =
    | Reserved(kind: PaidCallKind, micro: int, granted: bool)
    | Called(attempt: nat, stepIndex: nat, size: OutputSize, prompt: Prompt, image: Bytes, replied: bool)
    | Settled(micro: int)
    | Cancelled(micro: int)

  /** The in-memory session and face, the store, every store state since entry, and the events and
      operations since entry. */
  datatype Run = Run(
    session: Session,
    face: Face,
    durable: Durable,
    trail: seq<Durable>,
    stream: seq<Event>,
    ops: seq<Op>)

  function Entered(d: Durable): Run {
    Run(d.session, d.face, d, [], [], [])
  }

  function Stored(r: Run, d: Durable): Run {
    r.(durable := d, trail := r.trail + [d])
  }

  /** Checkpoint: the store takes a copy of the session. */
  function Saved(r: Run): Run {
    Stored(r, r.durable.(session := r.session))
  }

  function FaceSaved(r: Run): Run {
    Stored(r, r.durable.(face := r.face))
  }

  function Published(r: Run, e: Event): Run {
    r.(stream := r.stream + [e])
  }

  function Logged(r: Run, op: Op): Run {
    r.(ops := r.ops + [op])
  }

  function Limit(r: Run): int {
    ToMicro(r.session.budgetLimit)
  }

  predicate Affordable(r: Run, estimate: Usd) {
    Admits(r.durable.counter, ToMicro(estimate), Limit(r))
  }

  function Reserve(r: Run, kind: PaidCallKind, estimate: Usd): Run {
    var micro := ToMicro(estimate);
    if Affordable(r, estimate)
    then Logged(Stored(r, r.durable.(counter := r.durable.counter + micro)), Reserved(kind, micro, true))
    else Logged(r, Reserved(kind, micro, false))
  }

  function Settle(r: Run, estimate: Usd, billed: Option<Usd>): Run {
    Logged(Stored(r, r.durable.(counter := SettledCounter(r.durable.counter, estimate, billed))),
           Settled(ToMicro(SettledCost(estimate, billed))))
  }

  function Cancel(r: Run, estimate: Usd): Run {
    Logged(Stored(r, r.durable.(counter := CancelledCounter(r.durable.counter, estimate))),
           Op.Cancelled(ToMicro(estimate)))
  }

  // ----- The prompt writer -----

  function Fallback(cfg: Config, step: EditStep, revising: Option<string>): string {
    if revising.Some? then Emphasized(cfg, revising.value) else TemplateBody(cfg, step)
  }

  /** A compose (or, from a previous body, a revise): reserve, ask, settle; any failure cancels and
      degrades to the deterministic body. A positive cost is recorded on the session. */
  function Written(cfg: Config, w: World, r: Run, step: EditStep, revising: Option<string>): (Run, string) {
    var fallback := Fallback(cfg, step, revising);
    if !cfg.llmWriter then (r, fallback)
    else
      var reserved := Reserve(r, SlotFill, cfg.flatEstimate);
      if !Affordable(r, cfg.flatEstimate) then (reserved, fallback)
      else
        match LlmReplyAt(w, |r.session.iterations| + 1)
        case LlmFailed => (Cancel(reserved, cfg.flatEstimate), fallback)
        case Composed(billed, body) =>
          (WriterRecorded(Settle(reserved, cfg.flatEstimate, billed), SettledCost(cfg.flatEstimate, billed)), body)
  }

  function WriterRecorded(r: Run, cost: Usd): Run {
    if cost > 0.0
    then Saved(r.(session := r.session.(llmCalls := r.session.llmCalls + [PaidCall(SlotFill, cost)])))
    else r
  }

  /** The edit prompt; a rejected instruction degrades to the plain prompt, a poisoned body raises. */
  function Assemble(cfg: Config, step: EditStep, body: string, locks: seq<LockItem>): Option<Prompt> {
    if Injected(cfg, body) then None
    else if Blank(step.instruction) || Injected(cfg, Strip(step.instruction)) then Some(PlainPrompt(Strip(body)))
    else Some(EditPrompt(Strip(body), Strip(step.instruction), locks))
  }

  // ----- One attempt -----

  /** The fixed surroundings of one step. */
  datatype Context = Context(
    cfg: Config,
    thresholds: Thresholds,
    step: EditStep,
    index: nat,
    locks: seq<LockItem>,
    working: Bytes)
  {
    function MaxAttempts(): int {
      if 1 + thresholds.kMaxRetries <= cfg.maxIterations then 1 + thresholds.kMaxRetries else cfg.maxIterations
    }

    function Size(): OutputSize {
      if step.isEnhance then FourK else OneK
    }
  }

  datatype Progress = Going | Delivered | Exhausted | Raised

  /** The retry cycle so far: keep-best, its frame, the body and prompt of the next attempt. */
  datatype Tally = Tally(
    run: Run,
    best: Option<BestResult>,
    image: Bytes,
    body: string,
    prompt: Prompt,
    code: FailureCode,
    progress: Progress)

  function Banded(similarity: real, th: Thresholds): Verdict {
    if similarity >= th.similarityThreshold then Passed
    else if similarity >= th.identityFloor then Soft
    else BelowFloor
  }

  function RiskOf(v: Verdict): RiskLevel {
    match v
    case Passed => LowRisk
    case Soft => MediumRisk
    case BelowFloor => HighRisk
  }

  /** Strictly better similarity wins; a frame below the floor never enters. */
  predicate KeepsBest(current: Option<BestResult>, similarity: real, verdict: Verdict) {
    verdict != BelowFloor && (current.None? || similarity > current.value.similarity)
  }

  function Tracked(c: Convergence, similarity: real): Convergence {
    var better := c.bestSimilarity.None? || similarity > c.bestSimilarity.value;
    Convergence(c.attempts + 1, if better then Some(similarity) else c.bestSimilarity,
                Some(similarity), Some(better))
  }

  function Recorded(r: Run, it: Iteration): Run {
    Saved(r.(session := r.session.(iterations := r.session.iterations + [it])))
  }

  /** Rewrites the iteration just recorded. */
  function Amended(r: Run, it: Iteration): Run
    requires r.session.iterations != []
  {
    r.(session := r.session.(iterations := r.session.iterations[|r.session.iterations| - 1 := it]))
  }

  function Announced(r: Run, it: Iteration, retry: bool): Run {
    var told := Published(r, IterationResultEvent(it.n, it.charged, it.cost, it.similarity, it.verdict,
                                                  it.resultRef, it.error));
    if retry then Published(told, RetryEvent(it.n + 1)) else told
  }

  function FailedIteration(c: Context, n: nat, cost: Usd): Iteration {
    Iteration(n, c.step.n, None, None, None, cost > 0.0, cost, Some(GenerationFailed))
  }

  function AfterRefusal(c: Context, t: Tally, n: nat, estimate: Usd, billed: Option<Usd>, more: bool): Tally {
    var it := FailedIteration(c, n, SettledCost(estimate, billed));
    t.(run := Announced(Recorded(Settle(t.run, estimate, billed), it), it, more), code := GenerationFailed)
  }

  function AfterTransportFailure(c: Context, t: Tally, n: nat, estimate: Usd, more: bool): Tally {
    var it := FailedIteration(c, n, 0.0);
    t.(run := Announced(Recorded(Cancel(t.run, estimate), it), it, more), code := GenerationFailed)
  }

  function FrameIteration(c: Context, n: nat, cost: Usd): Iteration {
    Iteration(n, c.step.n, Some(Ref(c.cfg.sessionKey, n)), None, None, cost > 0.0, cost, None)
  }

  function AfterCheckCrash(t: Tally, it: Iteration, more: bool): Tally
    requires t.run.session.iterations != []
  {
    var failed := it.(error := Some(GenerationFailed));
    t.(run := Announced(Saved(Amended(t.run, failed)), failed, more), code := GenerationFailed)
  }

  function AfterMeasurement(c: Context, t: Tally, it: Iteration, image: Bytes, similarity: real, more: bool): Tally
    requires t.run.session.iterations != []
    requires it.resultRef.Some?
  {
    var verdict := Banded(similarity, c.thresholds);
    var measured := it.(similarity := Some(similarity), verdict := Some(verdict));
    var kept := KeepsBest(t.best, similarity, verdict);
    var r := Amended(t.run, measured);
    var r := r.(face := r.face.(convergence := Tracked(r.face.convergence, similarity)));
    t.(run := Announced(FaceSaved(Saved(r)), measured, more && verdict != Passed),
       best := if kept
               then Some(BestResult(it.n, it.resultRef.value, similarity, verdict, RiskOf(verdict)))
               else t.best,
       image := if kept then image else t.image,
       code := if verdict == Passed then t.code else NoDeliverable,
       progress := if verdict == Passed then Delivered else Going)
  }

  function SimilarityOf(check: CheckReply): real {
    if check.Scored? then check.similarity else 0.0
  }

  function AfterFrame(c: Context, t: Tally, n: nat, estimate: Usd, reply: ProviderReply, more: bool): Tally
    requires reply.Frame?
  {
    var paid := t.(run := Settle(t.run, estimate, reply.billed));
    if !reply.kept then paid.(progress := Raised)
    else
      var it := FrameIteration(c, n, SettledCost(estimate, reply.billed));
      var recorded := paid.(run := Recorded(paid.run, it));
      if reply.check.CheckCrashed?
      then AfterCheckCrash(recorded, it, more)
      else AfterMeasurement(c, recorded, it, reply.image, SimilarityOf(reply.check), more)
  }

  function AfterReply(c: Context, t: Tally, n: nat, estimate: Usd, reply: ProviderReply, more: bool): Tally {
    match reply
    case Refused(billed) => AfterRefusal(c, t, n, estimate, billed, more)
    case TransportFailed => AfterTransportFailure(c, t, n, estimate, more)
    case Frame(_, _, _, _) => AfterFrame(c, t, n, estimate, reply, more)
  }

  /** A retry of an edit step revises the body first. */
  function Prepared(c: Context, w: World, t: Tally, attempt: nat): Tally {
    if attempt <= 1 || c.step.isEnhance then t
    else
      var (r, body) := Written(c.cfg, w, t.run, c.step, Some(t.body));
      WithBody(c, t.(run := r), body)
  }

  function WithBody(c: Context, t: Tally, body: string): Tally {
    var prompt := Assemble(c.cfg, c.step, body, c.locks);
    if prompt.Some? then t.(body := body, prompt := prompt.value) else t.(progress := Raised)
  }

  /** The price of the next attempt's prompt. */
  function Price(c: Context, t: Tally): Usd {
    Estimate(c.cfg, t.prompt, c.Size())
  }

  /** Reserved, announced and sent: the generator edits the working image. */
  function Calling(c: Context, w: World, t: Tally): Tally {
    var n := |t.run.session.iterations| + 1;
    var announced := Published(Reserve(t.run, Generation, Price(c, t)), IterationStartEvent(n));
    t.(run := Logged(announced, Called(n, c.index, c.Size(), t.prompt, c.working, !ReplyAt(w, n).TransportFailed?)))
  }

  /** Reserve the prompt's price, then call the generator. */
  function Fired(c: Context, w: World, t: Tally, attempt: nat): Tally {
    var n := |t.run.session.iterations| + 1;
    if !Affordable(t.run, Price(c, t))
    then t.(run := Reserve(t.run, Generation, Price(c, t)), code := BudgetExhausted, progress := Exhausted)
    else AfterReply(c, Calling(c, w, t), n, Price(c, t), ReplyAt(w, n), attempt < c.MaxAttempts())
  }

  function Attempted(c: Context, w: World, t: Tally, attempt: nat): Tally {
    var ready := Prepared(c, w, t, attempt);
    if ready.progress.Raised? then ready else Fired(c, w, ready, attempt)
  }

  function Attempts(c: Context, w: World, t: Tally, attempt: nat): Tally
    decreases c.MaxAttempts() - attempt
  {
    if attempt > c.MaxAttempts() || !t.progress.Going? then t
    else Attempts(c, w, Attempted(c, w, t, attempt), attempt + 1)
  }

  // ----- One step -----

  function Opened(c: Context, w: World, r: Run): Tally {
    var blank := Tally(r, None, "", "", EditPrompt(ENHANCE_BODY, ENHANCE_CHANGE, c.locks), NoDeliverable, Going);
    if c.step.isEnhance then blank
    else
      var (r', body) := Written(c.cfg, w, r, c.step, None);
      WithBody(c, blank.(run := r'), body)
  }

  function StepRun(c: Context, w: World, r: Run): Tally {
    Attempts(c, w, Opened(c, w, r), 1)
  }

  // ----- The chain of steps -----

  /** What later steps must keep: applied phrases, edited targets and instructions so far. */
  datatype LockLedger = LockLedger(applied: seq<string>, targets: seq<string>, text: seq<string>)

  const EMPTY_LEDGER: LockLedger := LockLedger([], [], [])

  function AppliedPhrase(step: EditStep): string {
    if step.applied != "" then step.applied else "the result of the earlier edit: " + step.instruction
  }

  function Absorbed(l: LockLedger, step: EditStep): LockLedger {
    LockLedger(l.applied + [AppliedPhrase(step)], l.targets + step.targets, l.text + [step.instruction])
  }

  function AbsorbCompleted(steps: seq<EditStep>): LockLedger {
    if steps == [] then EMPTY_LEDGER
    else
      var last := steps[|steps| - 1];
      var l := AbsorbCompleted(steps[..|steps| - 1]);
      if last.status == Completed then Absorbed(l, last) else l
  }

  /** An enhance step locks only the person and what was applied; an edit step the whole enumeration. */
  function LocksFor(cfg: Config, inventory: Option<Inventory>, l: LockLedger, step: EditStep): seq<LockItem> {
    if step.isEnhance then Enumerate(cfg.poisoned, None, [], l.applied, [], "")
    else Enumerate(cfg.poisoned, inventory, cfg.preserve, l.applied,
                   l.targets + step.targets, Join(l.text + [step.instruction]))
  }

  datatype StepStart = StepStart(index: nat, ledger: LockLedger, locks: seq<LockItem>, working: Bytes)
  datatype StepBest = StepBest(index: nat, isEnhance: bool, best: BestResult)
  datatype ChainState = Open | Closed | Broken

  /** The chain so far. `starts` and `bests` list the steps begun and completed in this run. */
  datatype Chain = Chain(
    run: Run,
    steps: seq<EditStep>,
    working: Bytes,
    ledger: LockLedger,
    code: FailureCode,
    state: ChainState,
    starts: seq<StepStart>,
    bests: seq<StepBest>)

  predicate Narrated(ch: Chain) {
    |ch.steps| > 1
  }

  function Told(ch: Chain, e: Event): Run {
    if Narrated(ch) then Published(ch.run, e) else ch.run
  }

  /** The latest completed step wins, except an enhance step of strictly lower similarity. */
  function Promoted(prior: Option<BestResult>, isEnhance: bool, best: BestResult): Option<BestResult> {
    if isEnhance && prior.Some? && best.similarity < prior.value.similarity then prior else Some(best)
  }

  function ContextAt(cfg: Config, th: Thresholds, ch: Chain, i: nat): Context
    requires i < |ch.steps|
  {
    Context(cfg, th, ch.steps[i], i, LocksFor(cfg, ch.run.face.inventory, ch.ledger, ch.steps[i]), ch.working)
  }

  /** A plan's steps are the session's own; the synthetic single step is not. */
  function WithSteps(s: Session, steps: seq<EditStep>): Session {
    if s.plan == [] then s else s.(plan := steps)
  }

  function StepCompleted(ch: Chain, i: nat, t: Tally): Chain
    requires i < |ch.steps| && t.best.Some?
  {
    var best, step := t.best.value, ch.steps[i];
    var steps := ch.steps[i := step.(status := Completed, resultRef := Some(best.resultRef))];
    var session := WithSteps(t.run.session, steps).(best := Promoted(t.run.session.best, step.isEnhance, best));
    var saved := ch.(run := Saved(t.run.(session := session)),
                     steps := steps,
                     working := t.image,
                     ledger := Absorbed(ch.ledger, step),
                     code := t.code,
                     state := if t.progress.Exhausted? then Closed else Open,
                     bests := ch.bests + [StepBest(i, step.isEnhance, best)]);
    saved.(run := Told(saved, StepResultEvent(step.n, Completed, Some(best.resultRef), Some(best.similarity))))
  }

  function StepEnded(ch: Chain, i: nat, t: Tally): Chain
    requires i < |ch.steps|
  {
    var after := ch.(run := t.run, code := t.code);
    if t.progress.Raised? then after.(state := Broken)
    else if t.best.None? then
      after.(run := Told(after, StepResultEvent(ch.steps[i].n, Pending, None, None)), state := Closed)
    else StepCompleted(ch, i, t)
  }

  function Begun(cfg: Config, ch: Chain, i: nat): Chain
    requires i < |ch.steps|
  {
    var step := ch.steps[i];
    var start := StepStart(i, ch.ledger, LocksFor(cfg, ch.run.face.inventory, ch.ledger, step), ch.working);
    ch.(run := Told(ch, StepStartedEvent(step.n, step.title, step.targets)), starts := ch.starts + [start])
  }

  function Advanced(cfg: Config, th: Thresholds, w: World, ch: Chain, i: nat): (after: Chain)
    requires i < |ch.steps|
    ensures |after.steps| == |ch.steps|
  {
    match ch.steps[i].status
    case Skipped => ch.(run := Told(ch, StepResultEvent(ch.steps[i].n, Skipped, None, None)))
    case Completed => ch
    case Pending =>
      var begun := Begun(cfg, ch, i);
      StepEnded(begun, i, StepRun(ContextAt(cfg, th, begun, i), w, begun.run))
  }

  function Chained(cfg: Config, th: Thresholds, w: World, ch: Chain, i: nat): (after: Chain)
    ensures |after.steps| == |ch.steps|
    decreases |ch.steps| - i
  {
    if i >= |ch.steps| || !ch.state.Open? then ch
    else Chained(cfg, th, w, Advanced(cfg, th, w, ch, i), i + 1)
  }

  // ----- The run -----

  function PlanSteps(cfg: Config, s: Session): seq<EditStep> {
    if s.plan != [] then s.plan else [EditStep(1, cfg.presetTitle, "", [], "", false, Pending, None)]
  }

  function Launched(cfg: Config, d: Durable, reference: Bytes): Chain {
    var r := Entered(d);
    var steps := PlanSteps(cfg, d.session);
    Chain(Saved(r.(session := r.session.(fsmState := Generating))), steps, reference, AbsorbCompleted(steps),
          NoDeliverable, Open, [], [])
  }

  function TerminalEvent(s: Session, code: FailureCode): Event {
    if s.best.Some?
    then ResultEvent(s.best.value, |s.iterations|, GenerationsSpent(s.iterations), CostSpent(s))
    else FailedEvent(code, |s.iterations|, GenerationsSpent(s.iterations), CostSpent(s))
  }

  /** Deliver the session's best, else fail. */
  function Finished(r: Run, code: FailureCode): Run {
    var ended := Saved(r.(session := r.session.(fsmState := if r.session.best.Some? then Done else Failed)));
    Published(ended, TerminalEvent(r.session, code))
  }

  function Unlaunched(cfg: Config, d: Durable): Chain {
    var steps := PlanSteps(cfg, d.session);
    Chain(Entered(d), steps, "", AbsorbCompleted(steps), ReferenceMissing, Closed, [], [])
  }

  /** The chain a run works through before it finishes or raises. */
  function Worked(cfg: Config, w: World, d: Durable): Chain
    requires d.session.thresholds.Some?
  {
    if w.reference.None? then Unlaunched(cfg, d)
    else Chained(cfg, d.session.thresholds.value, w, Launched(cfg, d, w.reference.value), 0)
  }

  function Drive(cfg: Config, w: World, d: Durable): Run
    requires d.session.thresholds.Some?
  {
    var ch := Worked(cfg, w, d);
    if ch.state.Broken? then ch.run else Finished(ch.run, ch.code)
  }
}
