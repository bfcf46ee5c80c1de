/** When an announced retry is not followed by an attempt: exactly when the revised body is rejected or the budget
    refuses it (src/services/generation_loop.py). */
module ChainRetry {
  import opened Schemas
  import opened Money
  import opened Text
  import opened ChainSpec
  import opened ChainRecord
  import opened ChainOps
  import ChainTruth

  predicate NoStartAfter(stream: seq<Event>, i: nat) {
    forall j | i < j < |stream| :: !stream[j].IterationStartEvent?
  }

  /** A retry is announced and no attempt starts after it. */
  predicate Unanswered(stream: seq<Event>) {
    exists i | 0 <= i < |stream| :: stream[i].RetryEvent? && NoStartAfter(stream, i)
  }

  /** The same, read from the end. */
  predicate OpenRetry(stream: seq<Event>) {
    if stream == [] then false
    else
      var last := stream[|stream| - 1];
      last.RetryEvent? || (!last.IterationStartEvent? && OpenRetry(stream[..|stream| - 1]))
  }

  lemma {:induction false} OpenRetryMeans(stream: seq<Event>)
    ensures Unanswered(stream) <==> OpenRetry(stream)
  {
    if stream != [] {
      var front, last := stream[..|stream| - 1], stream[|stream| - 1];
      OpenRetryMeans(front);
      assert forall i | 0 <= i < |front| :: stream[i] == front[i];
      forall i | 0 <= i < |stream| && stream[i].RetryEvent? && NoStartAfter(stream, i)
        ensures last.RetryEvent? || (!last.IterationStartEvent? && Unanswered(front))
      {
        if i < |front| {
          assert !stream[|front|].IterationStartEvent?;
          assert front[i].RetryEvent? && NoStartAfter(front, i);
        }
      }
      if last.RetryEvent? {
        assert stream[|front|].RetryEvent?;
      } else if OpenRetry(front) && !last.IterationStartEvent? {
        var i :| 0 <= i < |front| && front[i].RetryEvent? && NoStartAfter(front, i);
        assert stream[i].RetryEvent? && NoStartAfter(stream, i);
      }
    }
  }

  lemma OpenRetryAppend(stream: seq<Event>, e: Event)
    ensures OpenRetry(stream + [e]) <==> e.RetryEvent? || (!e.IterationStartEvent? && OpenRetry(stream))
  {
    assert (stream + [e])[..|stream|] == stream;
  }

  // ----- The last attempt of a run -----

  /** An attempt about to be made: the tally it starts from and its number within the step. */
  datatype Try = Try(c: Context, t: Tally, attempt: nat)

  function LastTry(c: Context, w: World, t: Tally, attempt: nat): Option<Try>
    decreases c.MaxAttempts() - attempt
  {
    if attempt > c.MaxAttempts() || !t.progress.Going? then None
    else
      var later := LastTry(c, w, Attempted(c, w, t, attempt), attempt + 1);
      if later.Some? then later else Some(Try(c, t, attempt))
  }

  function ChainTry(cfg: Config, th: Thresholds, w: World, ch: Chain, i: nat, prior: Option<Try>): Option<Try>
    decreases |ch.steps| - i
  {
    if i >= |ch.steps| || !ch.state.Open? then prior
    else
      var begun := Begun(cfg, ch, i);
      var c := ContextAt(cfg, th, begun, i);
      ChainTry(cfg, th, w, Advanced(cfg, th, w, ch, i), i + 1,
               if ch.steps[i].status == Pending then LastTry(c, w, Opened(c, w, begun.run), 1) else prior)
  }

  /** The last attempt the last begun step of a run made, if it made one. */
  function RunTry(cfg: Config, w: World, d: Durable): Option<Try>
    requires d.session.thresholds.Some?
  {
    if w.reference.None? then None
    else ChainTry(cfg, d.session.thresholds.value, w, Launched(cfg, d, w.reference.value), 0, None)
  }

  /** The revised body of a later attempt reads as an injection. */
  predicate RevisionRejected(w: World, x: Try) {
    x.attempt > 1 && !x.c.step.isEnhance
    && Injected(x.c.cfg, Written(x.c.cfg, w, x.t.run, x.c.step, Some(x.t.body)).1)
  }

  /** The budget refuses a later attempt. */
  predicate RetryRefused(w: World, x: Try) {
    var ready := Prepared(x.c, w, x.t, x.attempt);
    x.attempt > 1 && !ready.progress.Raised? && !Affordable(ready.run, Price(x.c, ready))
  }

  predicate LeavesRetry(w: World, x: Option<Try>) {
    x.Some? && (RevisionRejected(w, x.value) || RetryRefused(w, x.value))
  }

  // ----- One attempt -----

  lemma PreparedRetry(c: Context, w: World, t: Tally, attempt: nat)
    requires t.progress.Going?
    ensures var ready := Prepared(c, w, t, attempt);
      && ready.run.stream == t.run.stream
      && (ready.progress.Raised? <==> RevisionRejected(w, Try(c, t, attempt)))
      && (ready.progress.Raised? ==> attempt > 1)
      && (!ready.progress.Raised? ==> ready.progress.Going?)
  {
    ChainTruth.WrittenTellsNothing(c.cfg, w, t.run, c.step, Some(t.body));
    hide Written;
  }

  lemma FiredRetry(c: Context, w: World, t: Tally, attempt: nat)
    requires t.progress.Going?
    ensures var t', paid := Fired(c, w, t, attempt), Affordable(t.run, Price(c, t));
      && (t'.progress.Exhausted? <==> !paid)
      && (!paid ==> t'.run.stream == t.run.stream)
      && (paid && t'.progress.Going? ==> (OpenRetry(t'.run.stream) <==> attempt < c.MaxAttempts()))
      && (paid && !t'.progress.Going? ==> !OpenRetry(t'.run.stream))
  {
    var n := |t.run.session.iterations| + 1;
    var estimate, reply, more := Price(c, t), ReplyAt(w, n), attempt < c.MaxAttempts();
    if Affordable(t.run, estimate) {
      var calling := Calling(c, w, t);
      ChainTruth.CallingTells(c, w, t);
      OpenRetryAppend(t.run.stream, IterationStartEvent(n));
      ReplyRecords(c, calling, n, estimate, reply, more);
      var retry := ChainTruth.ReplyTells(c, calling, n, estimate, reply, more);
      LostRaises(c, calling, n, estimate, reply, more);
      hide Calling, AfterReply, NewIteration, OpenRetry;
      if !(reply.Frame? && !reply.kept) {
        AnnouncementOpens(calling.run.stream, NewIteration(c, n, estimate, reply), retry);
      }
    }
  }

  lemma AnnouncementOpens(stream: seq<Event>, it: Iteration, retry: bool)
    ensures OpenRetry(stream + ChainTruth.AnnouncementOf(it, retry)) <==> retry || OpenRetry(stream)
  {
    var told := stream + [ChainTruth.ResultOf(it)];
    OpenRetryAppend(stream, ChainTruth.ResultOf(it));
    OpenRetryAppend(told, RetryEvent(it.n + 1));
    assert told + [RetryEvent(it.n + 1)] == stream + ([ChainTruth.ResultOf(it)] + [RetryEvent(it.n + 1)]);
  }

  /** How an attempt ends, and what it leaves of the retry announced before it. */
  predicate Ends(w: World, x: Try, t': Tally) {
    && (t'.progress.Going? ==> (OpenRetry(t'.run.stream) <==> x.attempt < x.c.MaxAttempts()))
    && (t'.progress.Delivered? ==> !OpenRetry(t'.run.stream))
    && (!t'.progress.Going? ==> (OpenRetry(t'.run.stream) <==> LeavesRetry(w, Some(x))))
    && (t'.progress.Going? || t'.progress.Delivered? ==> !LeavesRetry(w, Some(x)))
    && (t'.progress.Raised? ==> !RetryRefused(w, x))
    && (!t'.progress.Raised? ==> !RevisionRejected(w, x))
    && (t'.progress.Exhausted? && x.attempt > 1 ==> RetryRefused(w, x))
    && (!t'.progress.Exhausted? ==> !RetryRefused(w, x))
  }

  lemma AttemptRetry(c: Context, w: World, t: Tally, attempt: nat)
    requires t.progress.Going? && (OpenRetry(t.run.stream) <==> attempt > 1)
    ensures Ends(w, Try(c, t, attempt), Attempted(c, w, t, attempt))
  {
    hide Prepared, Fired, OpenRetry, RevisionRejected;
    PreparedRetry(c, w, t, attempt);
    var ready := Prepared(c, w, t, attempt);
    if !ready.progress.Raised? {
      FiredRetry(c, w, ready, attempt);
    }
  }

  /** How a retry cycle ends. */
  predicate CycleEndsAt(w: World, x: Option<Try>, t': Tally) {
    && (OpenRetry(t'.run.stream) <==> LeavesRetry(w, x))
    && (t'.progress.Going? || t'.progress.Delivered? ==> !LeavesRetry(w, x))
    && (t'.progress.Raised? && x.Some? ==> !RetryRefused(w, x.value))
    && (!t'.progress.Raised? && x.Some? ==> !RevisionRejected(w, x.value))
    && (t'.progress.Exhausted? ==> x.Some? && (x.value.attempt > 1 ==> RetryRefused(w, x.value)))
    && (!t'.progress.Exhausted? && x.Some? ==> !RetryRefused(w, x.value))
  }

  lemma {:induction false} AttemptsRetry(c: Context, w: World, t: Tally, attempt: nat)
    requires attempt >= 1 && t.progress.Going? && attempt <= c.MaxAttempts()
    requires OpenRetry(t.run.stream) <==> attempt > 1
    ensures CycleEndsAt(w, LastTry(c, w, t, attempt), Attempts(c, w, t, attempt))
    decreases c.MaxAttempts() - attempt
  {
    hide Attempted, OpenRetry, RevisionRejected, RetryRefused;
    AttemptRetry(c, w, t, attempt);
    var t' := Attempted(c, w, t, attempt);
    if t'.progress.Going? && attempt < c.MaxAttempts() {
      AttemptsRetry(c, w, t', attempt + 1);
      LastTryFound(c, w, t', attempt + 1);
    }
  }

  lemma LastTryFound(c: Context, w: World, t: Tally, attempt: nat)
    requires t.progress.Going? && attempt <= c.MaxAttempts()
    ensures LastTry(c, w, t, attempt).Some?
  {
  }

  lemma StepRetry(c: Context, w: World, r: Run)
    requires !OpenRetry(r.stream)
    ensures CycleEndsAt(w, LastTry(c, w, Opened(c, w, r), 1), StepRun(c, w, r))
  {
    ChainTruth.WrittenTellsNothing(c.cfg, w, r, c.step, None);
    hide Written, Attempted, OpenRetry, RevisionRejected, RetryRefused;
    var t := Opened(c, w, r);
    assert t.run.stream == r.stream;
    if t.progress.Going? && 1 <= c.MaxAttempts() {
      AttemptsRetry(c, w, t, 1);
    }
  }

  // ----- The whole run -----

  /** The run's operations end in a refused generation reservation. */
  predicate EndsRefused(ops: seq<Op>) {
    ops != []
    && var last := ops[|ops| - 1];
      last.Reserved? && last.kind == Generation && !last.granted
  }

  lemma RefusingEnds(w: World, ops: seq<Op>)
    requires DeskAfter(w, ops).Idle? || DeskAfter(w, ops).Refusing?
    ensures DeskAfter(w, ops).Refusing? <==> EndsRefused(ops)
  {
  }

  /** `x` is the last attempt so far. A raise leaves no refusal behind, a refusal is the end of the operations. */
  predicate ChainRetries(w: World, ch: Chain, x: Option<Try>) {
    && (OpenRetry(ch.run.stream) <==> LeavesRetry(w, x))
    && (ch.state.Open? ==> !LeavesRetry(w, x) && DeskAfter(w, ch.run.ops).Idle?)
    && (ch.state.Broken? && x.Some? ==> !RetryRefused(w, x.value))
    && (!ch.state.Broken? && x.Some? ==> !RevisionRejected(w, x.value))
    && (ch.state.Closed? && x.Some? && x.value.attempt > 1 ==>
          (RetryRefused(w, x.value) <==> DeskAfter(w, ch.run.ops).Refusing?))
    && (DeskAfter(w, ch.run.ops).Idle? || DeskAfter(w, ch.run.ops).Refusing?)
  }

  /** What the end of a step adds to its cycle: events that neither start nor retry an attempt. */
  lemma EndedTells(ch: Chain, i: nat, t: Tally)
    requires i < |ch.steps|
    ensures var after := StepEnded(ch, i, t);
      && (OpenRetry(after.run.stream) <==> OpenRetry(t.run.stream)) && after.run.ops == t.run.ops
      && (after.state.Broken? <==> t.progress.Raised?)
      && (after.state.Open? ==> !t.progress.Exhausted?)
  {
    hide OpenRetry, Promoted, WithSteps;
    OpenRetryAppend(t.run.stream, StepResultEvent(ch.steps[i].n, Pending, None, None));
    if t.best.Some? {
      var best := t.best.value;
      OpenRetryAppend(t.run.stream, StepResultEvent(ch.steps[i].n, Completed, Some(best.resultRef),
          Some(best.similarity)));
    }
  }

  lemma EndRetries(w: World, ch: Chain, i: nat, t: Tally, x: Option<Try>)
    requires i < |ch.steps| && CycleEndsAt(w, x, t)
    requires if t.progress.Exhausted? then DeskAfter(w, t.run.ops).Refusing? else DeskAfter(w, t.run.ops).Idle?
    ensures ChainRetries(w, StepEnded(ch, i, t), x)
  {
    hide OpenRetry, RevisionRejected, RetryRefused, StepEnded, DeskAfter;
    EndedTells(ch, i, t);
  }

  lemma AdvanceRetries(cfg: Config, th: Thresholds, w: World, ch: Chain, i: nat, prior: Option<Try>)
    requires i < |ch.steps| && ch.state.Open? && ChainRetries(w, ch, prior)
    ensures var begun := Begun(cfg, ch, i);
      var c := ContextAt(cfg, th, begun, i);
      ChainRetries(w, Advanced(cfg, th, w, ch, i),
                   if ch.steps[i].status == Pending then LastTry(c, w, Opened(c, w, begun.run), 1) else prior)
  {
    hide OpenRetry, RevisionRejected, RetryRefused, DeskAfter, StepRun, StepEnded, Opened, LastTry, LocksFor;
    var step := ch.steps[i];
    match step.status
    case Completed =>
    case Skipped =>
      OpenRetryAppend(ch.run.stream, StepResultEvent(step.n, Skipped, None, None));
    case Pending =>
      OpenRetryAppend(ch.run.stream, StepStartedEvent(step.n, step.title, step.targets));
      var begun := Begun(cfg, ch, i);
      assert !OpenRetry(begun.run.stream) && begun.run.ops == ch.run.ops;
      var c := ContextAt(cfg, th, begun, i);
      StepRetry(c, w, begun.run);
      StepKeepsDesk(c, w, begun.run);
      var t := StepRun(c, w, begun.run);
      hide CycleEndsAt, Extends;
      EndRetries(w, begun, i, t, LastTry(c, w, Opened(c, w, begun.run), 1));
  }

  lemma {:induction false} ChainRetriesHold(
    cfg: Config, th: Thresholds, w: World, ch: Chain, i: nat, prior: Option<Try>)
    requires ChainRetries(w, ch, prior)
    ensures ChainRetries(w, Chained(cfg, th, w, ch, i), ChainTry(cfg, th, w, ch, i, prior))
    decreases |ch.steps| - i
  {
    hide ChainRetries, Advanced, LastTry, Opened, Begun, ContextAt;
    if i < |ch.steps| && ch.state.Open? {
      AdvanceRetries(cfg, th, w, ch, i, prior);
      var begun := Begun(cfg, ch, i);
      BegunLength(cfg, ch, i);
      var c := ContextAt(cfg, th, begun, i);
      ChainRetriesHold(cfg, th, w, Advanced(cfg, th, w, ch, i), i + 1,
                       if ch.steps[i].status == Pending then LastTry(c, w, Opened(c, w, begun.run), 1) else prior);
    }
  }

  lemma BegunLength(cfg: Config, ch: Chain, i: nat)
    requires i < |ch.steps|
    ensures |Begun(cfg, ch, i).steps| == |ch.steps|
  {
  }

  lemma FinishedTells(r: Run, code: FailureCode)
    ensures OpenRetry(Finished(r, code).stream) <==> OpenRetry(r.stream)
    ensures Finished(r, code).ops == r.ops
  {
    hide OpenRetry, GenerationsSpent, CostSpent;
    OpenRetryAppend(r.stream, TerminalEvent(r.session, code));
  }

  /** Exactly when a retry stays unanswered. In a finished run: when its operations end in a refused generation
      reservation made on an attempt after the first. In a raised run: when the revised body of its last attempt reads
      as an injection. */
  lemma RetryUnansweredIff(cfg: Config, w: World, d: Durable)
    requires d.session.thresholds.Some?
    ensures var r, x := Drive(cfg, w, d), RunTry(cfg, w, d);
      Unanswered(r.stream) <==>
        x.Some? && (if Worked(cfg, w, d).state.Broken? then RevisionRejected(w, x.value)
                    else x.value.attempt > 1 && EndsRefused(r.ops))
  {
    hide OpenRetry, Unanswered, RevisionRejected, Prepared, EndsRefused, DeskAfter, Worked, Finished, RunTry;
    var ch, x := Worked(cfg, w, d), RunTry(cfg, w, d);
    OpenRetryMeans(Drive(cfg, w, d).stream);
    WorkedRetries(cfg, w, d);
    RefusingEnds(w, ch.run.ops);
    FinishedTells(ch.run, ch.code);
  }

  lemma WorkedRetries(cfg: Config, w: World, d: Durable)
    requires d.session.thresholds.Some?
    ensures ChainRetries(w, Worked(cfg, w, d), RunTry(cfg, w, d))
  {
    hide ChainRetries, Chained, ChainTry, Launched;
    if w.reference.Some? {
      LaunchedRetries(cfg, w, d, w.reference.value);
      ChainRetriesHold(cfg, d.session.thresholds.value, w, Launched(cfg, d, w.reference.value), 0, None);
    } else {
      UnlaunchedRetries(cfg, w, d);
    }
  }

  lemma UnlaunchedRetries(cfg: Config, w: World, d: Durable)
    ensures ChainRetries(w, Unlaunched(cfg, d), None)
  {
    hide AbsorbCompleted;
  }

  lemma LaunchedRetries(cfg: Config, w: World, d: Durable, reference: Bytes)
    ensures ChainRetries(w, Launched(cfg, d, reference), None)
  {
    hide AbsorbCompleted;
  }

  // ----- Both cases happen -----

  /** One synthetic step, two attempts, a micro-dollar an attempt, and a provider that bills without an image. `again`
      is the body of a retry. */
  function TightConfig(again: string): Config {
    Config("s", "", 2, false, 0.0, [], s => s == "poison", _ => false, _ => "body", _ => again, (_, _) => FromMicro(1))
  }

  function BillingWorld(): World {
    World(Some("photo"), _ => Refused(None), _ => LlmFailed)
  }

  function FreshSession(budgetMicro: nat): Durable {
    Durable(0, Session(AwaitingApproval, [], [], [], None, Some(Thresholds(0.5, 0.4, 1)), FromMicro(budgetMicro), true),
            Face(None, Convergence(0, None, None, None)))
  }

  ghost predicate Tight(c: Context, again: string, r: Run) {
    && c.cfg == TightConfig(again) && c.step.instruction == "" && !c.step.isEnhance && c.MaxAttempts() == 2
    && r.session.iterations == [] && r.durable.counter == 0 && ToMicro(r.session.budgetLimit) >= 1
  }

  lemma TightOpened(c: Context, again: string, r: Run)
    requires Tight(c, again, r)
    ensures Opened(c, BillingWorld(), r) == Tally(r, None, "", "body", PlainPrompt("body"), NoDeliverable, Going)
  {
    StripBody();
    hide Strip;
  }

  lemma StripBody()
    ensures Strip("") == "" && Strip("body") == "body"
  {
    assert !IsSpace('b') && !IsSpace('y');
  }

  /** The first attempt is billed its micro-dollar and announces a retry. */
  lemma TightFirst(c: Context, again: string, r: Run) returns (t: Tally)
    requires Tight(c, again, r)
    ensures t == Attempted(c, BillingWorld(), Opened(c, BillingWorld(), r), 1)
    ensures t.progress.Going? && t.body == "body" && t.run.durable.counter == 1
    ensures t.run.session.budgetLimit == r.session.budgetLimit
  {
    var w := BillingWorld();
    TightOpened(c, again, r);
    var first := Opened(c, w, r);
    t := Attempted(c, w, first, 1);
    MicroRoundTrip(1);
    hide Opened, ToMicro, FromMicro;
    assert Price(c, first) == FromMicro(1) && Affordable(first.run, FromMicro(1));
    assert t == AfterReply(c, Calling(c, w, first), 1, FromMicro(1), Refused(None), true);
  }

  /** A run ends on an unanswered retry when the budget refuses the second attempt. */
  lemma RefusedRetryHappens(c: Context, r: Run) returns (t: Tally)
    requires Tight(c, "body", r) && ToMicro(r.session.budgetLimit) == 1
    ensures LastTry(c, BillingWorld(), Opened(c, BillingWorld(), r), 1) == Some(Try(c, t, 2))
    ensures RetryRefused(BillingWorld(), Try(c, t, 2)) && StepRun(c, BillingWorld(), r).progress.Exhausted?
  {
    var w := BillingWorld();
    t := TightFirst(c, "body", r);
    StripBody();
    MicroRoundTrip(1);
    TightOpened(c, "body", r);
    hide Opened, ToMicro, FromMicro, Strip;
    var ready := Prepared(c, w, t, 2);
    assert ready == t.(body := "body", prompt := PlainPrompt("body"));
    assert Price(c, ready) == FromMicro(1) && !Affordable(ready.run, FromMicro(1));
    assert Attempted(c, w, t, 2).progress.Exhausted?;
    LastOfTwo(c, w, Opened(c, w, r));
  }

  /** And when the revised body reads as an injection, whatever the budget. */
  lemma RejectedRetryHappens(c: Context, r: Run) returns (t: Tally)
    requires Tight(c, "poison", r)
    ensures LastTry(c, BillingWorld(), Opened(c, BillingWorld(), r), 1) == Some(Try(c, t, 2))
    ensures RevisionRejected(BillingWorld(), Try(c, t, 2)) && StepRun(c, BillingWorld(), r).progress.Raised?
  {
    var w := BillingWorld();
    t := TightFirst(c, "poison", r);
    TightOpened(c, "poison", r);
    hide Opened, ToMicro, FromMicro, Strip;
    assert Prepared(c, w, t, 2).progress.Raised?;
    LastOfTwo(c, w, Opened(c, w, r));
  }

  lemma LastOfTwo(c: Context, w: World, t: Tally)
    requires c.MaxAttempts() == 2 && t.progress.Going? && Attempted(c, w, t, 1).progress.Going?
    requires !Attempted(c, w, Attempted(c, w, t, 1), 2).progress.Going?
    ensures LastTry(c, w, t, 1) == Some(Try(c, Attempted(c, w, t, 1), 2))
    ensures Attempts(c, w, t, 1) == Attempted(c, w, Attempted(c, w, t, 1), 2)
  {
    hide Attempted;
    var second := Attempted(c, w, Attempted(c, w, t, 1), 2);
    assert LastTry(c, w, second, 3) == None && Attempts(c, w, second, 3) == second;
    assert LastTry(c, w, Attempted(c, w, t, 1), 2) == Some(Try(c, Attempted(c, w, t, 1), 2));
    assert Attempts(c, w, Attempted(c, w, t, 1), 2) == second;
  }

  /** The step a fresh witness session begins. */
  lemma TightStep(again: string, budgetMicro: nat) returns (c: Context, r: Run)
    requires budgetMicro >= 1
    ensures Tight(c, again, r) && ToMicro(r.session.budgetLimit) == budgetMicro
    ensures var cfg, w, d := TightConfig(again), BillingWorld(), FreshSession(budgetMicro);
      && RunTry(cfg, w, d) == LastTry(c, w, Opened(c, w, r), 1)
      && (Worked(cfg, w, d).state.Broken? <==> StepRun(c, w, r).progress.Raised?)
  {
    var cfg, w, d := TightConfig(again), BillingWorld(), FreshSession(budgetMicro);
    var th := Thresholds(0.5, 0.4, 1);
    MicroRoundTrip(budgetMicro);
    var ch := Launched(cfg, d, "photo");
    var begun := Begun(cfg, ch, 0);
    c, r := ContextAt(cfg, th, begun, 0), begun.run;
    hide StepRun, Opened, LastTry, ToMicro, FromMicro, LocksFor;
    var after := Advanced(cfg, th, w, ch, 0);
    assert after == StepEnded(begun, 0, StepRun(c, w, r));
    EndedTells(begun, 0, StepRun(c, w, r));
    hide StepEnded;
    assert |after.steps| == 1;
    assert Chained(cfg, th, w, after, 1) == after && Chained(cfg, th, w, ch, 0) == after;
    var x := LastTry(c, w, Opened(c, w, r), 1);
    assert ChainTry(cfg, th, w, after, 1, x) == x && ChainTry(cfg, th, w, ch, 0, None) == x;
  }

  /** Two sessions whose last retry stays unanswered: one finished on a refused budget, one raised on a rejected
      revision with the deterministic writer. */
  lemma RetriesGoUnanswered()
    ensures var cfg, w, d := TightConfig("body"), BillingWorld(), FreshSession(1);
      Unanswered(Drive(cfg, w, d).stream) && !Worked(cfg, w, d).state.Broken?
    ensures var cfg, w, d := TightConfig("poison"), BillingWorld(), FreshSession(2);
      Unanswered(Drive(cfg, w, d).stream) && Worked(cfg, w, d).state.Broken?
  {
    hide Drive, Worked, RunTry, LastTry, Opened, StepRun, RetryRefused, RevisionRejected, Unanswered, Tight, OpenRetry;
    hide TightConfig, BillingWorld;
    var c, r := TightStep("body", 1);
    var t := RefusedRetryHappens(c, r);
    OpenFinish(TightConfig("body"), BillingWorld(), FreshSession(1));
    var c', r' := TightStep("poison", 2);
    var t' := RejectedRetryHappens(c', r');
    RetryUnansweredIff(TightConfig("poison"), BillingWorld(), FreshSession(2));
  }

  /** In a finished run a refused later attempt leaves its retry unanswered. */
  lemma OpenFinish(cfg: Config, w: World, d: Durable)
    requires d.session.thresholds.Some? && !Worked(cfg, w, d).state.Broken?
    requires RunTry(cfg, w, d).Some? && RetryRefused(w, RunTry(cfg, w, d).value)
    ensures Unanswered(Drive(cfg, w, d).stream)
  {
    hide OpenRetry, Unanswered, RevisionRejected, RetryRefused, DeskAfter, Worked, Finished, RunTry;
    OpenRetryMeans(Drive(cfg, w, d).stream);
    WorkedRetries(cfg, w, d);
    FinishedTells(Worked(cfg, w, d).run, Worked(cfg, w, d).code);
  }
}
