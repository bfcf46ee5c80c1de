/** The session contract: closed vocabularies, the durable session record and the stream events. */
module Schemas {
  import opened Money

  datatype Option<+T> = None | Some(value: T) {
    function GetOr(default: T): T {
      if Some? then value else default
    }
  }

  type Bytes = string

  datatype Verdict = Passed | Soft | BelowFloor
  datatype RiskLevel = LowRisk | MediumRisk | HighRisk
  datatype StepStatus = Pending | Completed | Skipped
  datatype PaidCallKind = Generation | SlotFill | Classify | Inventorying

  datatype FsmState =
    | Created | FaceCheck | NeedInput | Planning | AwaitingApproval | Generating
    | Done | Failed | Cancelled

  datatype FailureCode =
    | InputRejected | NoPreset | SceneRejected | PlanRejected | BudgetExhausted
    | NoDeliverable | GenerationFailed | ReferenceMissing | WallClock | CancelledByCaller | Internal

  datatype Thresholds = Thresholds(similarityThreshold: real, identityFloor: real, kMaxRetries: int)

  /** Object-storage key of the frame generated by iteration `n` of a session. */
  datatype Ref = Ref(sessionKey: string, n: nat)

  /** One generation attempt; `error` says why it carries no measurement. */
  datatype Iteration = Iteration(
    n: nat,
    stepN: int,
    resultRef: Option<Ref>,
    similarity: Option<real>,
    verdict: Option<Verdict>,
    charged: bool,
    cost: Usd,
    error: Option<FailureCode>)

  datatype PaidCall = PaidCall(kind: PaidCallKind, cost: Usd)

  datatype EditStep = EditStep(
    n: int,
    title: string,
    instruction: string,
    targets: seq<string>,
    applied: string,
    isEnhance: bool,
    status: StepStatus,
    resultRef: Option<Ref>)

  datatype BestResult = BestResult(
    iterationN: nat,
    resultRef: Ref,
    similarity: real,
    verdict: Verdict,
    riskLevel: RiskLevel)

  /** What the store keeps under a session key. An empty plan is the legacy single-shot session. */
  datatype Session = Session(
    fsmState: FsmState,
    iterations: seq<Iteration>,
    llmCalls: seq<PaidCall>,
    plan: seq<EditStep>,
    best: Option<BestResult>,
    thresholds: Option<Thresholds>,
    budgetLimit: Usd,
    approved: bool)

  /** Running identity-similarity statistics of a face profile. */
  datatype Convergence = Convergence(
    attempts: nat,
    bestSimilarity: Option<real>,
    lastSimilarity: Option<real>,
    improvedLast: Option<bool>)

  datatype Event =
    | StageEvent(stage: FsmState)
    | NeedInputEvent(slot: string)
    | PlanEvent(steps: seq<EditStep>)
    | CostEvent
    | StepStartedEvent(n: int, title: string, targets: seq<string>)
    | StepResultEvent(n: int, status: StepStatus, resultRef: Option<Ref>, similarity: Option<real>)
    | IterationStartEvent(attempt: nat)
    | IterationResultEvent(attempt: nat, charged: bool, cost: Usd, similarity: Option<real>,
                           verdict: Option<Verdict>, resultRef: Option<Ref>, error: Option<FailureCode>)
    | RetryEvent(attempt: nat)
    | ResultEvent(best: BestResult, iterationsUsed: nat, generationsSpent: nat, costSpent: real)
    | FailedEvent(code: FailureCode, iterationsUsed: nat, generationsSpent: nat, costSpent: real)
    | DoneEvent(stepsCompleted: nat, stepsTotal: nat)

  predicate LoopTerminal(e: Event) {
    e.ResultEvent? || e.FailedEvent?
  }

  /** The events behind which the relay closes a client's stream. */
  predicate ClosesStream(e: Event) {
    e.DoneEvent? || e.FailedEvent?
  }

  function IterationCosts(its: seq<Iteration>): (costs: seq<Usd>)
    ensures |costs| == |its|
  {
    seq(|its|, i requires 0 <= i < |its| => its[i].cost)
  }

  function CallCosts(calls: seq<PaidCall>): (costs: seq<Usd>)
    ensures |costs| == |calls|
  {
    seq(|calls|, i requires 0 <= i < |calls| => calls[i].cost)
  }

  /** Dollars actually billed in the session: generations plus auxiliary LLM calls. */
  function CostSpent(s: Session): real {
    SumUsd(IterationCosts(s.iterations)) + SumUsd(CallCosts(s.llmCalls))
  }

  /** Every recorded cost counts once: what a session spent grows by exactly the cost of the line it records. */
  lemma SpentGrows(s: Session, it: Iteration, call: PaidCall)
    ensures CostSpent(s.(iterations := s.iterations + [it])) == CostSpent(s) + it.cost
    ensures CostSpent(s.(llmCalls := s.llmCalls + [call])) == CostSpent(s) + call.cost
    ensures CostSpent(s.(iterations := [], llmCalls := [])) == 0.0
  {
    assert IterationCosts(s.iterations + [it]) == IterationCosts(s.iterations) + [it.cost];
    assert CallCosts(s.llmCalls + [call]) == CallCosts(s.llmCalls) + [call.cost];
    SumAppend(IterationCosts(s.iterations), it.cost);
    SumAppend(CallCosts(s.llmCalls), call.cost);
  }

  /** Paid generations: attempts whose settled cost was charged. */
  function GenerationsSpent(its: seq<Iteration>): nat {
    if its == [] then 0
    else GenerationsSpent(its[..|its| - 1]) + (if its[|its| - 1].charged then 1 else 0)
  }

  /** The same record on the counter's grid: every recorded cost rounded up. */
  function RecordMicro(s: Session): int {
    SumMicro(IterationCosts(s.iterations)) + SumMicro(CallCosts(s.llmCalls))
  }
}
