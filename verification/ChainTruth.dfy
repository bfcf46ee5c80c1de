/** What a run says is what it recorded: every result it streams, every step it reports and the face's running
    statistics agree with the iterations on the session. */
module ChainTruth {
  import opened Schemas
  import opened Money
  import opened BudgetOps
  import opened ChainSpec
  import opened ChainRecord
  import opened ChainDelivery
  import ChainResume
  import ChainRuns

  // ----- Convergence statistics -----

  const NOTHING_MEASURED: Convergence := Convergence(0, None, None, None)

  function Converged(c: Convergence, similarities: seq<real>): Convergence {
    if similarities == [] then c
    else Tracked(Converged(c, similarities[..|similarities| - 1]), similarities[|similarities| - 1])
  }

  /** The running statistics are what they are called: the number of measurements, their maximum, the last one, and
      whether it beat all before it. */
  lemma {:induction false} ConvergenceExact(similarities: seq<real>)
    requires similarities != []
    ensures var c, last := Converged(NOTHING_MEASURED, similarities), similarities[|similarities| - 1];
      && c.attempts == |similarities|
      && c.lastSimilarity == Some(last)
      && c.bestSimilarity.Some? && c.bestSimilarity.value in similarities
      && (forall i | 0 <= i < |similarities| :: similarities[i] <= c.bestSimilarity.value)
      && c.improvedLast == Some(forall i | 0 <= i < |similarities| - 1 :: similarities[i] < last)
  {
    var front, last := similarities[..|similarities| - 1], similarities[|similarities| - 1];
    if front == [] {
      assert Converged(NOTHING_MEASURED, front) == NOTHING_MEASURED;
    } else {
      ConvergenceExact(front);
      var best := Converged(NOTHING_MEASURED, front).bestSimilarity.value;
      assert forall i | 0 <= i < |front| :: front[i] == similarities[i];
      var k :| 0 <= k < |front| && front[k] == best;
      assert similarities[k] == best;
    }
  }

  /** The similarities measured by the iterations from `from` on. */
  function Measured(its: seq<Iteration>, from: nat): seq<real> {
    if |its| <= from then []
    else
      var last := its[|its| - 1];
      Measured(its[..|its| - 1], from) + (if last.similarity.Some? then [last.similarity.value] else [])
  }

  // ----- Iteration results -----

  function ResultOf(it: Iteration): Event {
    IterationResultEvent(it.n, it.charged, it.cost, it.similarity, it.verdict, it.resultRef, it.error)
  }

  /** Every streamed iteration result is the recorded iteration of that number. */
  predicate Truthful(stream: seq<Event>, its: seq<Iteration>) {
    forall i | 0 <= i < |stream| && stream[i].IterationResultEvent? ::
      1 <= stream[i].attempt <= |its| && stream[i] == ResultOf(its[stream[i].attempt - 1])
  }

  /** A retry cycle entered with stream `told` streams no step result. */
  predicate NoStepResults(told: seq<Event>, stream: seq<Event>) {
    told <= stream && forall i | |told| <= i < |stream| :: !stream[i].StepResultEvent?
  }

  /** A run entered with `from` iterations and statistics `c0`, inside a retry cycle entered with stream `told`. */
  predicate Honest(from: nat, c0: Convergence, told: seq<Event>, r: Run) {
    && from <= |r.session.iterations|
    && Truthful(r.stream, r.session.iterations)
    && NoStepResults(told, r.stream)
    && r.face.convergence == Converged(c0, Measured(r.session.iterations, from))
  }

  function AnnouncementOf(it: Iteration, retry: bool): seq<Event> {
    [ResultOf(it)] + (if retry then [RetryEvent(it.n + 1)] else [])
  }

  lemma AnnouncedStream(r: Run, it: Iteration, retry: bool)
    ensures Announced(r, it, retry) == r.(stream := r.stream + AnnouncementOf(it, retry))
  {
    assert (r.stream + [ResultOf(it)]) + [RetryEvent(it.n + 1)] == r.stream + ([ResultOf(it)] + [RetryEvent(it.n + 1)]);
  }

  /** A reply that is not lost announces the iteration it records, and tracks its similarity if it measured one. */
  lemma ReplyTells(c: Context, t: Tally, n: nat, estimate: Usd, reply: ProviderReply, more: bool) returns (retry: bool)
    requires n == |t.run.session.iterations| + 1
    ensures retry == (more && NewIteration(c, n, estimate, reply).verdict != Some(Passed))
    ensures var r', it := AfterReply(c, t, n, estimate, reply, more).run, NewIteration(c, n, estimate, reply);
      if reply.Frame? && !reply.kept
      then r'.stream == t.run.stream && r'.face == t.run.face && r'.session == t.run.session
      else
        && r'.stream == t.run.stream + AnnouncementOf(it, retry)
        && r'.face.convergence == (if it.similarity.Some? then Tracked(t.run.face.convergence, it.similarity.value)
                                   else t.run.face.convergence)
  {
    hide Settle, Cancel, Tracked, Banded, KeepsBest;
    SettleSilent(t.run, estimate, if reply.TransportFailed? then None else reply.billed);
    CancelSilent(t.run, estimate);
    var it := NewIteration(c, n, estimate, reply);
    match reply
    case Refused(billed) =>
      retry := more;
      AnnouncedStream(Recorded(Settle(t.run, estimate, billed), it), it, more);
    case TransportFailed =>
      retry := more;
      AnnouncedStream(Recorded(Cancel(t.run, estimate), it), it, more);
    case Frame(billed, _, _, check) =>
      retry := more && it.verdict != Some(Passed);
      hide AnnouncementOf;
      if reply.kept {
        FrameTells(c, t, n, estimate, reply, more, retry);
      }
  }

  lemma SettleSilent(r: Run, estimate: Usd, billed: Option<Usd>)
    ensures var r' := Settle(r, estimate, billed); r'.stream == r.stream && r'.face == r.face && r'.session == r.session
  {
  }

  lemma CancelSilent(r: Run, estimate: Usd)
    ensures var r' := Cancel(r, estimate); r'.stream == r.stream && r'.face == r.face && r'.session == r.session
  {
  }

  lemma FrameTells(c: Context, t: Tally, n: nat, estimate: Usd, reply: ProviderReply, more: bool, retry: bool)
    requires n == |t.run.session.iterations| + 1 && reply.Frame? && reply.kept
    requires retry == (more && (reply.check.CheckCrashed? || NewIteration(c, n, estimate,
        reply).verdict != Some(Passed)))
    ensures var r', it := AfterFrame(c, t, n, estimate, reply, more).run, NewIteration(c, n, estimate, reply);
      && r'.stream == t.run.stream + AnnouncementOf(it, retry)
      && r'.face.convergence == (if it.similarity.Some? then Tracked(t.run.face.convergence, it.similarity.value)
                                 else t.run.face.convergence)
  {
    hide Settle, Tracked, Banded, KeepsBest;
    SettleSilent(t.run, estimate, reply.billed);
    var it := FrameIteration(c, n, SettledCost(estimate, reply.billed));
    var recorded := Recorded(Settle(t.run, estimate, reply.billed), it);
    if reply.check.CheckCrashed? {
      var failed := it.(error := Some(GenerationFailed));
      AnnouncedStream(Saved(Amended(recorded, failed)), failed, more);
    } else {
      var similarity := SimilarityOf(reply.check);
      var verdict := Banded(similarity, c.thresholds);
      var measured := it.(similarity := Some(similarity), verdict := Some(verdict));
      var r := Amended(recorded, measured);
      var r' := r.(face := r.face.(convergence := Tracked(r.face.convergence, similarity)));
      AnnouncedStream(FaceSaved(Saved(r')), measured, more && verdict != Passed);
    }
  }

  lemma TruthfulMore(stream: seq<Event>, its: seq<Iteration>, it: Iteration, retry: bool)
    requires Truthful(stream, its) && it.n == |its| + 1
    ensures Truthful(stream + AnnouncementOf(it, retry), its + [it])
  {
    var all, told := its + [it], stream + AnnouncementOf(it, retry);
    forall i | 0 <= i < |told| && told[i].IterationResultEvent?
      ensures 1 <= told[i].attempt <= |all| && told[i] == ResultOf(all[told[i].attempt - 1])
    {
      if i < |stream| {
        assert told[i] == stream[i];
        assert all[stream[i].attempt - 1] == its[stream[i].attempt - 1];
      }
    }
  }

  lemma MeasuredMore(its: seq<Iteration>, it: Iteration, from: nat)
    requires from <= |its|
    ensures Measured(its + [it], from) == Measured(its,
        from) + (if it.similarity.Some? then [it.similarity.value] else [])
  {
    assert (its + [it])[..|its|] == its;
  }

  lemma ConvergedMore(c: Convergence, similarities: seq<real>, similarity: real)
    ensures Converged(c, similarities + [similarity]) == Tracked(Converged(c, similarities), similarity)
  {
    assert (similarities + [similarity])[..|similarities|] == similarities;
  }

  /** An iteration recorded, announced and, when measured, tracked. */
  lemma HonestMore(from: nat, c0: Convergence, told: seq<Event>, r: Run, r': Run, it: Iteration, retry: bool)
    requires Honest(from, c0, told, r) && it.n == |r.session.iterations| + 1
    requires r'.stream == r.stream + AnnouncementOf(it, retry)
    requires r'.session.iterations == r.session.iterations + [it]
    requires r'.face.convergence == (if it.similarity.Some? then Tracked(r.face.convergence, it.similarity.value)
                                     else r.face.convergence)
    ensures Honest(from, c0, told, r')
  {
    TruthfulMore(r.stream, r.session.iterations, it, retry);
    MeasuredMore(r.session.iterations, it, from);
    if it.similarity.Some? {
      ConvergedMore(c0, Measured(r.session.iterations, from), it.similarity.value);
    } else {
      assert Measured(r.session.iterations, from) + [] == Measured(r.session.iterations, from);
    }
    hide Truthful, Measured, Converged, Tracked;
  }

  /** Only the stream grew, by an event that is no result. */
  lemma HonestEvent(from: nat, c0: Convergence, told: seq<Event>, r: Run, r': Run, e: Event)
    requires Honest(from, c0, told, r) && !e.IterationResultEvent? && !e.StepResultEvent?
    requires r'.stream == r.stream + [e] && r'.session.iterations == r.session.iterations && r'.face == r.face
    ensures Honest(from, c0, told, r')
  {
    hide Measured, Converged;
  }

  lemma HonestSame(from: nat, c0: Convergence, told: seq<Event>, r: Run, r': Run)
    requires Honest(from, c0, told, r)
    requires r'.stream == r.stream && r'.session.iterations == r.session.iterations && r'.face == r.face
    ensures Honest(from, c0, told, r')
  {
    hide Measured, Converged;
  }

  lemma WrittenHonest(from: nat, c0: Convergence, told: seq<Event>, cfg: Config, w: World, r: Run, step: EditStep,
                      revising: Option<string>)
    requires Honest(from, c0, told, r)
    ensures Honest(from, c0, told, Written(cfg, w, r, step, revising).0)
  {
    WrittenKeepsRecord(cfg, w, r, step, revising);
    WrittenTellsNothing(cfg, w, r, step, revising);
    hide Written, Honest;
    HonestSame(from, c0, told, r, Written(cfg, w, r, step, revising).0);
  }

  lemma WrittenTellsNothing(cfg: Config, w: World, r: Run, step: EditStep, revising: Option<string>)
    ensures var r' := Written(cfg, w, r, step, revising).0; r'.stream == r.stream && r'.face == r.face
  {
    hide Affordable;
  }

  lemma FiredHonest(from: nat, c0: Convergence, told: seq<Event>, c: Context, w: World, t: Tally, attempt: nat)
    requires Honest(from, c0, told, t.run) && t.progress.Going?
    ensures Honest(from, c0, told, Fired(c, w, t, attempt).run)
  {
    var n := |t.run.session.iterations| + 1;
    var estimate, reply, more := Price(c, t), ReplyAt(w, n), attempt < c.MaxAttempts();
    if !Affordable(t.run, estimate) {
      hide Honest;
      HonestSame(from, c0, told, t.run, Fired(c, w, t, attempt).run);
    } else {
      var calling := Calling(c, w, t);
      CallingTells(c, w, t);
      HonestEvent(from, c0, told, t.run, calling.run, IterationStartEvent(n));
      ReplyRecords(c, calling, n, estimate, reply, more);
      var retry := ReplyTells(c, calling, n, estimate, reply, more);
      NewIterationOk(c, n, estimate, reply);
      LostRaises(c, calling, n, estimate, reply, more);
      hide Honest, Calling, AfterReply, NewIteration, RecordOk;
      var r' := AfterReply(c, calling, n, estimate, reply, more).run;
      if reply.Frame? && !reply.kept {
        HonestSame(from, c0, told, calling.run, r');
      } else {
        NumberOf(c, n, estimate, reply);
        HonestMore(from, c0, told, calling.run, r', NewIteration(c, n, estimate, reply), retry);
      }
    }
  }

  lemma NumberOf(c: Context, n: nat, estimate: Usd, reply: ProviderReply)
    ensures NewIteration(c, n, estimate, reply).n == n
  {
  }

  lemma CallingTells(c: Context, w: World, t: Tally)
    ensures var calling, n := Calling(c, w, t), |t.run.session.iterations| + 1;
      && calling.run.stream == t.run.stream + [IterationStartEvent(n)]
      && calling.run.session == t.run.session && calling.run.face == t.run.face && calling.progress == t.progress
  {
    hide Affordable;
  }

  lemma PreparedHonest(from: nat, c0: Convergence, told: seq<Event>, c: Context, w: World, t: Tally, attempt: nat)
    requires Honest(from, c0, told, t.run) && t.progress.Going?
    ensures Honest(from, c0, told, Prepared(c, w, t, attempt).run)
    ensures Prepared(c, w, t, attempt).progress.Going? || Prepared(c, w, t, attempt).progress.Raised?
  {
    hide Honest, Written, Assemble;
    WrittenHonest(from, c0, told, c.cfg, w, t.run, c.step, Some(t.body));
  }

  lemma {:induction false} AttemptsHonest(from: nat, c0: Convergence, told: seq<Event>, c: Context, w: World,
      t: Tally, attempt: nat)
    requires Honest(from, c0, told, t.run)
    ensures Honest(from, c0, told, Attempts(c, w, t, attempt).run)
    decreases c.MaxAttempts() - attempt
  {
    hide Fired, Honest, Prepared;
    if attempt <= c.MaxAttempts() && t.progress.Going? {
      PreparedHonest(from, c0, told, c, w, t, attempt);
      var ready := Prepared(c, w, t, attempt);
      if !ready.progress.Raised? {
        FiredHonest(from, c0, told, c, w, ready, attempt);
      }
      AttemptsHonest(from, c0, told, c, w, Attempted(c, w, t, attempt), attempt + 1);
    }
  }

  lemma StepHonest(from: nat, c0: Convergence, told: seq<Event>, c: Context, w: World, r: Run)
    requires Honest(from, c0, told, r)
    ensures Honest(from, c0, told, StepRun(c, w, r).run)
  {
    hide Honest, Written, Assemble, Attempts;
    WrittenHonest(from, c0, told, c.cfg, w, r, c.step, None);
    AttemptsHonest(from, c0, told, c, w, Opened(c, w, r), 1);
  }

  // ----- Step results -----

  /** A completed step's report: the best of a step this run completed, under the step's number. */
  predicate ReportsBest(e: Event, steps: seq<EditStep>, bests: seq<StepBest>) {
    e.StepResultEvent? && e.status == Completed ==>
      exists k | 0 <= k < |bests| :: BestReported(e, steps, bests[k])
  }

  predicate BestReported(e: Event, steps: seq<EditStep>, b: StepBest) {
    e.StepResultEvent? && b.index < |steps| && e.n == steps[b.index].n
    && e.resultRef == Some(b.best.resultRef) && e.similarity == Some(b.best.similarity)
  }

  predicate StepsReported(stream: seq<Event>, steps: seq<EditStep>, bests: seq<StepBest>) {
    forall i | 0 <= i < |stream| :: ReportsBest(stream[i], steps, bests)
  }

  predicate RunHonest(from: nat, c0: Convergence, r: Run, steps: seq<EditStep>, bests: seq<StepBest>) {
    && from <= |r.session.iterations|
    && Truthful(r.stream, r.session.iterations)
    && r.face.convergence == Converged(c0, Measured(r.session.iterations, from))
    && StepsReported(r.stream, steps, bests)
  }

  /** Steps renumbered nowhere and bests only added. */
  predicate Continues(steps: seq<EditStep>, bests: seq<StepBest>, steps': seq<EditStep>, bests': seq<StepBest>) {
    && |steps'| == |steps| && bests <= bests'
    && forall i | 0 <= i < |steps| :: steps'[i].n == steps[i].n
  }

  lemma ReportsContinue(stream: seq<Event>, steps: seq<EditStep>, bests: seq<StepBest>, steps': seq<EditStep>,
      bests': seq<StepBest>)
    requires StepsReported(stream, steps, bests) && Continues(steps, bests, steps', bests')
    ensures StepsReported(stream, steps', bests')
  {
    forall i | 0 <= i < |stream| ensures ReportsBest(stream[i], steps', bests') {
      var e := stream[i];
      assert ReportsBest(e, steps, bests);
      if e.StepResultEvent? && e.status == Completed {
        var k :| 0 <= k < |bests| && BestReported(e, steps, bests[k]);
        assert bests'[k] == bests[k];
        assert BestReported(e, steps', bests'[k]);
      }
    }
  }

  /** An event appended to an honest run; a completed step's report must be a best. */
  lemma ToldHonest(from: nat, c0: Convergence, r: Run, r': Run, e: Event, steps: seq<EditStep>, bests: seq<StepBest>)
    requires RunHonest(from, c0, r, steps, bests) && !e.IterationResultEvent? && ReportsBest(e, steps, bests)
    requires r'.stream == r.stream + [e] || r'.stream == r.stream
    requires r'.session.iterations == r.session.iterations && r'.face == r.face
    ensures RunHonest(from, c0, r', steps, bests)
  {
    hide Converged, Measured, ReportsBest;
  }

  /** From the begun step through its retry cycle. */
  lemma CycleHonest(from: nat, c0: Convergence, c: Context, w: World, r: Run, steps: seq<EditStep>,
      bests: seq<StepBest>)
    requires RunHonest(from, c0, r, steps, bests)
    ensures RunHonest(from, c0, StepRun(c, w, r).run, steps, bests)
  {
    StepHonest(from, c0, r.stream, c, w, r);
    hide StepRun, Converged, Measured, Truthful;
    var told, stream := r.stream, StepRun(c, w, r).run.stream;
    forall i | 0 <= i < |stream| ensures ReportsBest(stream[i], steps, bests) {
      assert i < |told| ==> stream[i] == told[i] && ReportsBest(told[i], steps, bests);
    }
  }

  lemma EndedHonest(from: nat, c0: Convergence, ch: Chain, i: nat, t: Tally)
    requires i < |ch.steps| && RunHonest(from, c0, t.run, ch.steps, ch.bests)
    ensures var after := StepEnded(ch, i, t); RunHonest(from, c0, after.run, after.steps, after.bests)
  {
    var after := StepEnded(ch, i, t);
    if t.progress.Raised? {
    } else if t.best.None? {
      var e := StepResultEvent(ch.steps[i].n, Pending, None, None);
      hide RunHonest;
      ToldHonest(from, c0, t.run, after.run, e, ch.steps, ch.bests);
    } else {
      CompletedHonest(from, c0, ch, i, t);
    }
  }

  lemma CompletedHonest(from: nat, c0: Convergence, ch: Chain, i: nat, t: Tally)
    requires i < |ch.steps| && t.best.Some? && RunHonest(from, c0, t.run, ch.steps, ch.bests)
    ensures var after := StepCompleted(ch, i, t); RunHonest(from, c0, after.run, after.steps, after.bests)
  {
    var best, step := t.best.value, ch.steps[i];
    var after := StepCompleted(ch, i, t);
    var e := StepResultEvent(step.n, Completed, Some(best.resultRef), Some(best.similarity));
    ReportsContinue(t.run.stream, ch.steps, ch.bests, after.steps, after.bests);
    assert BestReported(e, after.steps, after.bests[|ch.bests|]);
    assert RunHonest(from, c0, t.run, after.steps, after.bests);
    assert after.run.session.iterations == t.run.session.iterations;
    hide RunHonest, StepsReported, ReportsBest, Promoted;
    assert ReportsBest(e, after.steps, after.bests) by { ReportIsBest(e, after.steps, after.bests, |ch.bests|); }
    ToldHonest(from, c0, t.run, after.run, e, after.steps, after.bests);
  }

  lemma ReportIsBest(e: Event, steps: seq<EditStep>, bests: seq<StepBest>, k: nat)
    requires k < |bests| && BestReported(e, steps, bests[k])
    ensures ReportsBest(e, steps, bests)
  {
  }

  lemma AdvanceHonest(from: nat, c0: Convergence, cfg: Config, th: Thresholds, w: World, ch: Chain, i: nat)
    requires i < |ch.steps| && RunHonest(from, c0, ch.run, ch.steps, ch.bests)
    ensures var after := Advanced(cfg, th, w, ch, i); RunHonest(from, c0, after.run, after.steps, after.bests)
  {
    hide RunHonest, StepRun, StepEnded, ContextAt, LocksFor;
    var step := ch.steps[i];
    match step.status
    case Completed =>
    case Skipped =>
      ToldHonest(from, c0, ch.run, Advanced(cfg, th, w, ch, i).run, StepResultEvent(step.n, Skipped, None, None),
          ch.steps, ch.bests);
    case Pending =>
      var begun := Begun(cfg, ch, i);
      ToldHonest(from, c0, ch.run, begun.run, StepStartedEvent(step.n, step.title, step.targets), ch.steps, ch.bests);
      var c := ContextAt(cfg, th, begun, i);
      CycleHonest(from, c0, c, w, begun.run, ch.steps, ch.bests);
      EndedHonest(from, c0, begun, i, StepRun(c, w, begun.run));
  }

  lemma {:induction false} ChainHonest(from: nat, c0: Convergence, cfg: Config, th: Thresholds, w: World,
      ch: Chain, i: nat)
    requires RunHonest(from, c0, ch.run, ch.steps, ch.bests)
    ensures var after := Chained(cfg, th, w, ch, i); RunHonest(from, c0, after.run, after.steps, after.bests)
    decreases |ch.steps| - i
  {
    hide RunHonest, Advanced;
    if i < |ch.steps| && ch.state.Open? {
      AdvanceHonest(from, c0, cfg, th, w, ch, i);
      ChainHonest(from, c0, cfg, th, w, Advanced(cfg, th, w, ch, i), i + 1);
    }
  }

  /** The stream tells the truth. In every run, whatever happens: each iteration result is the recorded iteration of
      its number, each completed step's report is the best of a step this run completed, and the face's statistics
      are those of the similarities this run measured. */
  lemma RunTellsTheTruth(cfg: Config, w: World, d: Durable)
    requires d.session.thresholds.Some?
    ensures var r, ch, from := Drive(cfg, w, d), Worked(cfg, w, d), |d.session.iterations|;
      && from <= |r.session.iterations|
      && Truthful(r.stream, r.session.iterations)
      && StepsReported(r.stream, ch.steps, ch.bests)
      && r.face.convergence == Converged(d.face.convergence, Measured(r.session.iterations, from))
  {
    var c0, from, ch := d.face.convergence, |d.session.iterations|, Worked(cfg, w, d);
    if w.reference.Some? {
      var launched := Launched(cfg, d, w.reference.value);
      LaunchedHonest(cfg, d, w.reference.value);
      hide RunHonest, Launched, Chained;
      ChainHonest(from, c0, cfg, d.session.thresholds.value, w, launched, 0);
    } else {
      assert RunHonest(from, c0, ch.run, ch.steps, ch.bests);
    }
    FinishedHonest(from, c0, ch);
    hide Worked, TerminalEvent;
  }

  lemma LaunchedHonest(cfg: Config, d: Durable, reference: Bytes)
    ensures var ch := Launched(cfg, d, reference);
      RunHonest(|d.session.iterations|, d.face.convergence, ch.run, ch.steps, ch.bests)
  {
    hide AbsorbCompleted;
  }

  lemma FinishedHonest(from: nat, c0: Convergence, ch: Chain)
    requires RunHonest(from, c0, ch.run, ch.steps, ch.bests)
    ensures RunHonest(from, c0, Finished(ch.run, ch.code), ch.steps, ch.bests)
  {
    var e := TerminalEvent(ch.run.session, ch.code);
    assert ReportsBest(e, ch.steps, ch.bests);
    hide RunHonest, GenerationsSpent, CostSpent;
    ToldHonest(from, c0, ch.run, Finished(ch.run, ch.code), e, ch.steps, ch.bests);
  }

  /** A reported step's image is the recorded image of an iteration that measured the reported similarity. */
  lemma StepReportsNameIterations(cfg: Config, x: ChainResume.Charter, w: World, d: Durable, i: nat)
    requires ChainRuns.Enters(cfg, x, d) && w.reference.Some?
    requires i < |Drive(cfg, w, d).stream|
    requires var e := Drive(cfg, w, d).stream[i]; e.StepResultEvent? && e.status == Completed
    ensures var e, its := Drive(cfg, w, d).stream[i], Worked(cfg, w, d).run.session.iterations;
      exists k | 0 <= k < |its| :: Eligible(its[k]) && its[k].resultRef == e.resultRef
          && its[k].similarity == e.similarity
  {
    RunTellsTheTruth(cfg, w, d);
    ChainRuns.ChainDelivers(cfg, x, w, d);
    hide Drive, Worked, Truthful, RunHonest, ChainRuns.Enters, FoldBest;
    var e, ch := Drive(cfg, w, d).stream[i], Worked(cfg, w, d);
    assert ReportsBest(e, ch.steps, ch.bests);
    var k :| 0 <= k < |ch.bests| && BestReported(e, ch.steps, ch.bests[k]);
    assert BestOk(ch, ch.bests[k]);
    var it := ch.run.session.iterations[ch.bests[k].best.iterationN - 1];
    assert Eligible(it) && it.resultRef == e.resultRef && it.similarity == e.similarity;
  }
}
