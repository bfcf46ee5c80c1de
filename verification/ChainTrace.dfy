/** The event stream of a run: a grammar monitor, and the proof that every run speaks the grammar. */
module ChainTrace {
  import opened Schemas
  import opened Money
  import opened BudgetOps
  import opened ChainSpec

  // ----- The grammar, as an automaton -----

  datatype Phase =
    | Between                // between the steps of a narrated chain
    | InStep(stepN: int)     // a start may follow
    | Trying(stepN: int)     // started, not answered
    | Answered(stepN: int)   // answered, not retried
    | Closing                // a step found no deliverable; only the terminal may follow
    | Over
    | Bad

  /** `next` is the number the next attempt must carry. */
  datatype Monitor = Monitor(phase: Phase, next: nat)

  function Initial(narrated: bool, next: nat): Monitor {
    Monitor(if narrated then Between else InStep(0), next)
  }

  function After(narrated: bool, m: Monitor, e: Event): Monitor {
    match (e, m.phase)
    case (StepStartedEvent(n, _, _), Between) => m.(phase := InStep(n))
    case (StepResultEvent(_, Skipped, None, None), Between) => m
    case (StepResultEvent(n, Completed, Some(_), Some(_)), InStep(k)) =>
      m.(phase := if narrated && n == k then Between else Bad)
    case (StepResultEvent(n, Completed, Some(_), Some(_)), Answered(k)) =>
      m.(phase := if narrated && n == k then Between else Bad)
    case (StepResultEvent(n, Pending, None, None), InStep(k)) =>
      m.(phase := if narrated && n == k then Closing else Bad)
    case (StepResultEvent(n, Pending, None, None), Answered(k)) =>
      m.(phase := if narrated && n == k then Closing else Bad)
    case (IterationStartEvent(n), InStep(k)) => m.(phase := if n == m.next then Trying(k) else Bad)
    case (IterationResultEvent(n, _, _, _, _, _, _), Trying(k)) =>
      if n == m.next then Monitor(Answered(k), n + 1) else m.(phase := Bad)
    case (RetryEvent(n), Answered(k)) => m.(phase := if n == m.next then InStep(k) else Bad)
    case (_, Between) => m.(phase := if LoopTerminal(e) then Over else Bad)
    case (_, Closing) => m.(phase := if LoopTerminal(e) then Over else Bad)
    case (_, InStep(_)) => m.(phase := if LoopTerminal(e) && !narrated then Over else Bad)
    case (_, Answered(_)) => m.(phase := if LoopTerminal(e) && !narrated then Over else Bad)
    case _ => m.(phase := Bad)
  }

  function Observe(narrated: bool, next: nat, trace: seq<Event>): Monitor {
    if trace == [] then Initial(narrated, next)
    else After(narrated, Observe(narrated, next, trace[..|trace| - 1]), trace[|trace| - 1])
  }

  lemma ObserveAppend(narrated: bool, next: nat, trace: seq<Event>, e: Event)
    ensures Observe(narrated, next, trace + [e]) == After(narrated, Observe(narrated, next, trace), e)
  {
    assert (trace + [e])[..|trace|] == trace;
  }

  // ----- What the grammar means -----

  function Range(from: nat, to: nat): seq<nat> {
    if to <= from then [] else Range(from, to - 1) + [to - 1]
  }

  lemma {:induction false} RangeIndex(from: nat, to: nat, i: nat)
    requires from + i < to
    ensures |Range(from, to)| == to - from && Range(from, to)[i] == from + i
  {
    if from + i < to - 1 {
      RangeIndex(from, to - 1, i);
    } else if from < to - 1 {
      RangeIndex(from, to - 1, 0);
    }
  }

  function StartNumbers(trace: seq<Event>): seq<nat> {
    if trace == [] then []
    else
      var last := trace[|trace| - 1];
      StartNumbers(trace[..|trace| - 1]) + (if last.IterationStartEvent? then [last.attempt] else [])
  }

  function ResultNumbers(trace: seq<Event>): seq<nat> {
    if trace == [] then []
    else
      var last := trace[|trace| - 1];
      ResultNumbers(trace[..|trace| - 1]) + (if last.IterationResultEvent? then [last.attempt] else [])
  }

  /** A trace that is not rejected numbers its attempts consecutively and answers each before the next
      starts; only a finished trace holds a terminal, as its last event. */
  lemma {:induction false} AcceptedTrace(narrated: bool, next: nat, trace: seq<Event>)
    requires !Observe(narrated, next, trace).phase.Bad?
    ensures var m := Observe(narrated, next, trace);
      && m.next >= next
      && ResultNumbers(trace) == Range(next, m.next)
      && StartNumbers(trace) == Range(next, if m.phase.Trying? then m.next + 1 else m.next)
      && (forall i | 0 <= i < |trace| - 1 :: !LoopTerminal(trace[i]))
      && (trace != [] ==> (LoopTerminal(trace[|trace| - 1]) <==> m.phase.Over?))
      && (trace == [] ==> !m.phase.Over?)
  {
    if trace != [] {
      var init, last := trace[..|trace| - 1], trace[|trace| - 1];
      var before := Observe(narrated, next, init);
      AcceptedStep(narrated, before, last);
      AcceptedTrace(narrated, next, init);
      hide After;
      forall i | 0 <= i < |trace| - 1
        ensures !LoopTerminal(trace[i])
      {
        assert trace[i] == init[i];
      }
    }
  }

  lemma AcceptedStep(narrated: bool, m: Monitor, e: Event)
    requires !After(narrated, m, e).phase.Bad?
    ensures var m' := After(narrated, m, e);
      && !m.phase.Bad? && !m.phase.Over?
      && (LoopTerminal(e) <==> m'.phase.Over?)
      && m'.next == m.next + (if e.IterationResultEvent? then 1 else 0)
      && (e.IterationStartEvent? ==> e.attempt == m.next && !m.phase.Trying? && m'.phase.Trying?)
      && (e.IterationResultEvent? ==> e.attempt == m.next && m.phase.Trying? && !m'.phase.Trying?)
      && (!e.IterationStartEvent? && !e.IterationResultEvent? ==> !m.phase.Trying? && !m'.phase.Trying?)
  {
  }

  lemma RetryStep(narrated: bool, m: Monitor, e: Event)
    requires e.RetryEvent? && !After(narrated, m, e).phase.Bad?
    ensures m.phase.Answered? && e.attempt == m.next
  {
  }

  lemma RetryPoint(narrated: bool, next: nat, trace: seq<Event>, i: nat)
    requires i < |trace| && trace[i].RetryEvent? && !Observe(narrated, next, trace).phase.Bad?
    ensures var m := Observe(narrated, next, trace[..i]); m.phase.Answered? && trace[i].attempt == m.next
  {
    hide After, Observe;
    PrefixNotBad(narrated, next, trace, i + 1);
    ObserveAppend(narrated, next, trace[..i], trace[i]);
    assert trace[..i] + [trace[i]] == trace[..i + 1];
    RetryStep(narrated, Observe(narrated, next, trace[..i]), trace[i]);
  }

  /** A retry names the number the next attempt will carry: one past the attempts started so far. */
  lemma RetryNamesNextAttempt(narrated: bool, next: nat, trace: seq<Event>, i: nat)
    requires i < |trace| && trace[i].RetryEvent? && !Observe(narrated, next, trace).phase.Bad?
    ensures var started := |StartNumbers(trace[..i])|;
      && trace[i].attempt == next + started
      && (started < |StartNumbers(trace)| ==> StartNumbers(trace)[started] == trace[i].attempt)
  {
    hide After, Observe, StartNumbers, ResultNumbers, Range;
    RetryPoint(narrated, next, trace, i);
    AcceptedTrace(narrated, next, trace[..i]);
    AcceptedTrace(narrated, next, trace);
    RangeLength(next, trace[i].attempt);
    var m := Observe(narrated, next, trace);
    var last := if m.phase.Trying? then m.next + 1 else m.next;
    RangeLength(next, last);
    if trace[i].attempt < last {
      RangeIndex(next, last, trace[i].attempt - next);
    }
  }

  lemma RangeLength(from: nat, to: nat)
    requires from <= to
    ensures |Range(from, to)| == to - from
  {
    if from < to {
      RangeIndex(from, to, 0);
    }
  }

  lemma {:induction false} PrefixNotBad(narrated: bool, next: nat, trace: seq<Event>, k: nat)
    requires k <= |trace| && !Observe(narrated, next, trace).phase.Bad?
    ensures !Observe(narrated, next, trace[..k]).phase.Bad?
  {
    if k == |trace| {
      assert trace[..k] == trace;
    } else {
      var init := trace[..|trace| - 1];
      PrefixNotBad(narrated, next, init, k);
      assert init[..k] == trace[..k];
    }
  }

  // ----- Every run speaks it -----

  /** The stream read so far, for a run entered with iteration number `next` to come. */
  function Seen(narrated: bool, next: nat, r: Run): Monitor {
    Observe(narrated, next, r.stream)
  }

  function NextAttempt(r: Run): nat {
    |r.session.iterations| + 1
  }

  predicate At(narrated: bool, next: nat, r: Run, phase: Phase) {
    Seen(narrated, next, r) == Monitor(phase, NextAttempt(r))
  }

  predicate AtStepEnd(narrated: bool, next: nat, r: Run, k: int) {
    At(narrated, next, r, InStep(k)) || At(narrated, next, r, Answered(k))
  }

  lemma WrittenIsSilent(cfg: Config, w: World, r: Run, step: EditStep, revising: Option<string>)
    ensures var r' := Written(cfg, w, r, step, revising).0;
      r'.stream == r.stream && r'.session.iterations == r.session.iterations
  {
  }

  lemma AnnouncedSpeaks(narrated: bool, next: nat, r: Run, it: Iteration, retry: bool, k: int)
    requires r.session.iterations != [] && it.n == |r.session.iterations|
    requires Seen(narrated, next, r) == Monitor(Trying(k), it.n)
    ensures At(narrated, next, Announced(r, it, retry), if retry then InStep(k) else Answered(k))
  {
    var e := IterationResultEvent(it.n, it.charged, it.cost, it.similarity, it.verdict, it.resultRef, it.error);
    ObserveAppend(narrated, next, r.stream, e);
    ObserveAppend(narrated, next, r.stream + [e], RetryEvent(it.n + 1));
  }

  lemma ReplySpeaks(
    narrated: bool, next: nat, c: Context, t: Tally, n: nat, estimate: Usd, reply: ProviderReply, more: bool, k: int)
    requires n == NextAttempt(t.run) && At(narrated, next, t.run, Trying(k)) && t.progress.Going?
    ensures var t' := AfterReply(c, t, n, estimate, reply, more);
      if t'.progress.Raised? then At(narrated, next, t'.run, Trying(k))
      else At(narrated, next, t'.run, if t'.progress.Going? && more then InStep(k) else Answered(k))
  {
    match reply
    case Refused(billed) =>
      var it := FailedIteration(c, n, SettledCost(estimate, billed));
      AnnouncedSpeaks(narrated, next, Recorded(Settle(t.run, estimate, billed), it), it, more, k);
    case TransportFailed =>
      var it := FailedIteration(c, n, 0.0);
      AnnouncedSpeaks(narrated, next, Recorded(Cancel(t.run, estimate), it), it, more, k);
    case Frame(billed, image, kept, check) =>
      if kept {
        FrameSpeaks(narrated, next, c, t, n, estimate, reply, more, k);
      }
  }

  lemma FrameSpeaks(
    narrated: bool, next: nat, c: Context, t: Tally, n: nat, estimate: Usd, reply: ProviderReply, more: bool, k: int)
    requires n == NextAttempt(t.run) && At(narrated, next, t.run, Trying(k)) && t.progress.Going?
    requires reply.Frame? && reply.kept
    ensures var t' := AfterFrame(c, t, n, estimate, reply, more);
      !t'.progress.Raised?
      && At(narrated, next, t'.run, if t'.progress.Going? && more then InStep(k) else Answered(k))
  {
    var paid := Settle(t.run, estimate, reply.billed);
    var it := FrameIteration(c, n, SettledCost(estimate, reply.billed));
    var r := Recorded(paid, it);
    var failed := it.(error := Some(GenerationFailed));
    AnnouncedSpeaks(narrated, next, Saved(Amended(r, failed)), failed, more, k);
    var similarity := SimilarityOf(reply.check);
    var verdict := Banded(similarity, c.thresholds);
    var measured := it.(similarity := Some(similarity), verdict := Some(verdict));
    var r' := Amended(r, measured).(face := r.face.(convergence := Tracked(r.face.convergence, similarity)));
    AnnouncedSpeaks(narrated, next, FaceSaved(Saved(r')), measured, more && verdict != Passed, k);
  }

  lemma FiredSpeaks(narrated: bool, next: nat, c: Context, w: World, t: Tally, attempt: nat, k: int)
    requires At(narrated, next, t.run, InStep(k)) && t.progress.Going?
    ensures var t' := Fired(c, w, t, attempt);
      && (t'.progress.Raised? ==> At(narrated, next, t'.run, Trying(k)))
      && (!t'.progress.Raised? ==> AtStepEnd(narrated, next, t'.run, k))
      && (t'.progress.Going? && attempt < c.MaxAttempts() ==> At(narrated, next, t'.run, InStep(k)))
  {
    hide AfterReply, Observe;
    var n := NextAttempt(t.run);
    if Affordable(t.run, Price(c, t)) {
      ObserveAppend(narrated, next, t.run.stream, IterationStartEvent(n));
      ReplySpeaks(narrated, next, c, Calling(c, w, t), n, Price(c, t), ReplyAt(w, n), attempt < c.MaxAttempts(), k);
    }
  }

  lemma AttemptSpeaks(narrated: bool, next: nat, c: Context, w: World, t: Tally, attempt: nat, k: int)
    requires At(narrated, next, t.run, InStep(k)) && t.progress.Going?
    ensures var t' := Attempted(c, w, t, attempt);
      && (t'.progress.Raised? ==> NeitherBadNorOver(Seen(narrated, next, t'.run)))
      && (!t'.progress.Raised? ==> AtStepEnd(narrated, next, t'.run, k))
      && (t'.progress.Going? && attempt < c.MaxAttempts() ==> At(narrated, next, t'.run, InStep(k)))
  {
    hide Fired;
    WrittenIsSilent(c.cfg, w, t.run, c.step, Some(t.body));
    var ready := Prepared(c, w, t, attempt);
    if !ready.progress.Raised? {
      FiredSpeaks(narrated, next, c, w, ready, attempt, k);
    }
  }

  predicate NeitherBadNorOver(m: Monitor) {
    !m.phase.Bad? && !m.phase.Over?
  }

  lemma {:induction false} AttemptsSpeak(
    narrated: bool, next: nat, c: Context, w: World, t: Tally, attempt: nat, k: int)
    requires !t.progress.Raised? ==> AtStepEnd(narrated, next, t.run, k)
    requires t.progress.Raised? ==> NeitherBadNorOver(Seen(narrated, next, t.run))
    requires t.progress.Going? && attempt <= c.MaxAttempts() ==> At(narrated, next, t.run, InStep(k))
    ensures var t' := Attempts(c, w, t, attempt);
      && (!t'.progress.Raised? ==> AtStepEnd(narrated, next, t'.run, k))
      && (t'.progress.Raised? ==> NeitherBadNorOver(Seen(narrated, next, t'.run)))
    decreases c.MaxAttempts() - attempt
  {
    hide Attempted, At, Seen;
    if attempt <= c.MaxAttempts() && t.progress.Going? {
      AttemptSpeaks(narrated, next, c, w, t, attempt, k);
      AttemptsSpeak(narrated, next, c, w, Attempted(c, w, t, attempt), attempt + 1, k);
    }
  }

  lemma StepSpeaks(narrated: bool, next: nat, c: Context, w: World, r: Run, k: int)
    requires At(narrated, next, r, InStep(k))
    ensures var t := StepRun(c, w, r);
      && (!t.progress.Raised? ==> AtStepEnd(narrated, next, t.run, k))
      && (t.progress.Raised? ==> NeitherBadNorOver(Seen(narrated, next, t.run)))
  {
    WrittenIsSilent(c.cfg, w, r, c.step, None);
    AttemptsSpeak(narrated, next, c, w, Opened(c, w, r), 1, k);
  }

  /** Where the stream stands before step `i`. */
  predicate ChainAt(next: nat, ch: Chain, i: nat) {
    var narrated := Narrated(ch);
    match ch.state
    case Open =>
      if narrated then At(narrated, next, ch.run, Between)
      else if i == 0 then At(narrated, next, ch.run, InStep(0))
      else AtStepEnd(narrated, next, ch.run, 0)
    case Closed =>
      if narrated then At(narrated, next, ch.run, Between) || At(narrated, next, ch.run, Closing)
      else AtStepEnd(narrated, next, ch.run, 0)
    case Broken => NeitherBadNorOver(Seen(narrated, next, ch.run))
  }

  lemma AdvanceSpeaks(next: nat, cfg: Config, th: Thresholds, w: World, ch: Chain, i: nat)
    requires i < |ch.steps| && ch.state.Open? && ChainAt(next, ch, i)
    ensures ChainAt(next, Advanced(cfg, th, w, ch, i), i + 1)
  {
    var narrated, step := Narrated(ch), ch.steps[i];
    match step.status
    case Skipped =>
      ObserveAppend(narrated, next, ch.run.stream, StepResultEvent(step.n, Skipped, None, None));
    case Completed =>
    case Pending =>
      ObserveAppend(narrated, next, ch.run.stream, StepStartedEvent(step.n, step.title, step.targets));
      var k := if narrated then step.n else 0;
      var begun := Begun(cfg, ch, i);
      var c := ContextAt(cfg, th, begun, i);
      StepSpeaks(narrated, next, c, w, begun.run, k);
      EndSpeaks(next, begun, i, StepRun(c, w, begun.run), k);
  }

  lemma EndSpeaks(next: nat, ch: Chain, i: nat, t: Tally, k: int)
    requires i < |ch.steps| && ch.state.Open?
    requires k == if Narrated(ch) then ch.steps[i].n else 0
    requires !t.progress.Raised? ==> AtStepEnd(Narrated(ch), next, t.run, k)
    requires t.progress.Raised? ==> NeitherBadNorOver(Seen(Narrated(ch), next, t.run))
    ensures ChainAt(next, StepEnded(ch, i, t), i + 1)
  {
    var narrated, step := Narrated(ch), ch.steps[i];
    if !t.progress.Raised? {
      if t.best.None? {
        ObserveAppend(narrated, next, t.run.stream, StepResultEvent(step.n, Pending, None, None));
      } else {
        var best := t.best.value;
        ObserveAppend(narrated, next, t.run.stream,
                      StepResultEvent(step.n, Completed, Some(best.resultRef), Some(best.similarity)));
      }
    }
  }

  lemma {:induction false} ChainSpeaks(next: nat, cfg: Config, th: Thresholds, w: World, ch: Chain, i: nat)
    requires ChainAt(next, ch, i)
    ensures exists j: nat :: ChainAt(next, Chained(cfg, th, w, ch, i), j)
    decreases |ch.steps| - i
  {
    hide Advanced, ChainAt;
    if i < |ch.steps| && ch.state.Open? {
      AdvanceSpeaks(next, cfg, th, w, ch, i);
      var advanced := Advanced(cfg, th, w, ch, i);
      ChainSpeaks(next, cfg, th, w, advanced, i + 1);
      var j: nat :| ChainAt(next, Chained(cfg, th, w, advanced, i + 1), j);
      assert Chained(cfg, th, w, ch, i) == Chained(cfg, th, w, advanced, i + 1);
    } else {
      assert ChainAt(next, Chained(cfg, th, w, ch, i), i);
    }
  }

  /** Every run that finishes emits a word of the grammar ending in its one terminal; a run that raises
      stops inside a word without a terminal. Attempts are numbered on from the iterations on record and
      one is announced per iteration appended. */
  lemma RunSpeaksGrammar(cfg: Config, w: World, d: Durable)
    requires d.session.thresholds.Some?
    ensures var r, raised := Drive(cfg, w, d), Worked(cfg, w, d).state.Broken?;
      var m := Observe(|PlanSteps(cfg, d.session)| > 1, |d.session.iterations| + 1, r.stream);
      if raised then NeitherBadNorOver(m) else m == Monitor(Over, |r.session.iterations| + 1)
  {
    hide Advanced;
    var next := |d.session.iterations| + 1;
    if w.reference.Some? {
      var launched := Launched(cfg, d, w.reference.value);
      assert ChainAt(next, launched, 0);
      ChainSpeaks(next, cfg, d.session.thresholds.value, w, launched, 0);
    } else {
      assert ChainAt(next, Worked(cfg, w, d), 0);
    }
    var j :| ChainAt(next, Worked(cfg, w, d), j);
    FinishSpeaks(next, Worked(cfg, w, d), j);
  }

  lemma FinishSpeaks(next: nat, ch: Chain, j: nat)
    requires ChainAt(next, ch, j)
    ensures var m := Observe(Narrated(ch), next, Finished(ch.run, ch.code).stream);
      !ch.state.Broken? ==> m == Monitor(Over, |ch.run.session.iterations| + 1)
  {
    ObserveAppend(Narrated(ch), next, ch.run.stream, TerminalEvent(ch.run.session, ch.code));
  }

  /** The grammar spelled out for a finished run: one terminal, last; the attempts started and answered
      are exactly the iterations it appended, in order. */
  lemma FinishedRunEvents(cfg: Config, w: World, d: Durable)
    requires d.session.thresholds.Some? && !Worked(cfg, w, d).state.Broken?
    ensures var r := Drive(cfg, w, d);
      var attempts := Range(|d.session.iterations| + 1, |r.session.iterations| + 1);
      && r.stream != [] && LoopTerminal(r.stream[|r.stream| - 1])
      && (forall i | 0 <= i < |r.stream| - 1 :: !LoopTerminal(r.stream[i]))
      && StartNumbers(r.stream) == attempts && ResultNumbers(r.stream) == attempts
  {
    RunSpeaksGrammar(cfg, w, d);
    AcceptedTrace(|PlanSteps(cfg, d.session)| > 1, |d.session.iterations| + 1, Drive(cfg, w, d).stream);
  }
}
