/** How hard a run tries: every step of the plan in turn, every attempt the thresholds allow, and a failure reported for
    the reason that ended it (src/services/generation_loop.py). */
module ChainEffort {
  import opened Schemas
  import opened Money
  import opened ChainSpec
  import opened ChainDelivery
  import opened ChainOps
  import opened ChainRecord
  import opened ChainTruth
  import opened ChainRetry
  import ChainResume
  import ChainRuns

  // ----- One retry cycle -----

  /** What an attempt tells: its start, its result, and the retry it announces. */
  function AttemptTold(it: Iteration, retry: bool): seq<Event> {
    [IterationStartEvent(it.n)] + AnnouncementOf(it, retry)
  }

  /** What a cycle of at most `most` attempts tells: each failed attempt below the cap announces the next. */
  function CycleTold(its: seq<Iteration>, most: int): seq<Event> {
    if its == [] then []
    else
      var last := its[|its| - 1];
      CycleTold(its[..|its| - 1], most) + AttemptTold(last, |its| < most && !HasPassed(last))
  }

  /** The attempt whose paid frame was lost: started, never answered. */
  function LostTold(lost: bool, n: nat): seq<Event> {
    if lost then [IterationStartEvent(n)] else []
  }

  lemma MaxAttemptsIsCap(c: Context)
    ensures AttemptCap(c.cfg, c.thresholds) == if c.MaxAttempts() < 0 then 0 else c.MaxAttempts()
  {
  }

  /** The tally `t` of a cycle entered with run `r`, before attempt `attempt`; `lost` when a paid frame was. */
  predicate Tried(c: Context, r: Run, t: Tally, attempt: nat, lost: bool) {
    var its, from := t.run.session.iterations, |r.session.iterations|;
    && r.session.iterations <= its
    && t.run.stream == r.stream + CycleTold(its[from..], AttemptCap(c.cfg, c.thresholds))
                       + LostTold(lost, |its| + 1)
    && (lost ==> t.progress.Raised?)
    && (t.progress.Going? ==>
          |its| == from + attempt - 1
          && t.code == if |its| > from && its[|its| - 1].error.Some? then GenerationFailed else NoDeliverable)
    && (t.progress.Exhausted? ==>
          |its| < from + AttemptCap(c.cfg, c.thresholds) && t.code == BudgetExhausted)
    && (t.progress.Delivered? ==> |its| > from && HasPassed(its[|its| - 1]) && t.best.Some?)
  }

  lemma CycleTakesOne(stream: seq<Event>, its: seq<Iteration>, from: nat, it: Iteration, most: int)
    requires from <= |its|
    ensures stream + CycleTold((its + [it])[from..], most)
         == stream + CycleTold(its[from..], most) + [IterationStartEvent(it.n)]
            + AnnouncementOf(it, |its| + 1 - from < most && !HasPassed(it))
  {
    hide AnnouncementOf, HasPassed;
    var all, retry := (its + [it])[from..], |its| + 1 - from < most && !HasPassed(it);
    assert all == its[from..] + [it];
    assert all[..|all| - 1] == its[from..];
    assert CycleTold(all, most) == CycleTold(its[from..], most) + AttemptTold(it, retry);
    hide CycleTold;
    Regrouped(stream, CycleTold(its[from..], most), [IterationStartEvent(it.n)], AnnouncementOf(it, retry));
  }

  lemma Regrouped<T>(a: seq<T>, b: seq<T>, c: seq<T>, d: seq<T>)
    ensures a + (b + (c + d)) == a + b + c + d
  {
  }

  lemma FiredTries(c: Context, w: World, r: Run, t: Tally, attempt: nat) returns (lost: bool)
    requires Tried(c, r, t, attempt, false) && t.progress.Going?
    requires 1 <= attempt <= AttemptCap(c.cfg, c.thresholds)
    ensures Tried(c, r, Fired(c, w, t, attempt), attempt + 1, lost)
  {
    hide Calling, AfterReply, NewIteration, CycleTold, AnnouncementOf, BestAfter, Affordable;
    var n := |t.run.session.iterations| + 1;
    var estimate, reply, more := Price(c, t), ReplyAt(w, n), attempt < c.MaxAttempts();
    lost := false;
    MaxAttemptsIsCap(c);
    if Affordable(t.run, estimate) {
      var calling := Calling(c, w, t);
      CallingTells(c, w, t);
      ReplyRecords(c, calling, n, estimate, reply, more);
      var retry := ReplyTells(c, calling, n, estimate, reply, more);
      LostRaises(c, calling, n, estimate, reply, more);
      ReplyCode(c, calling, n, estimate, reply, more);
      NumberOf(c, n, estimate, reply);
      PassedIsKept(c, calling.best, n, estimate, reply);
      lost := reply.Frame? && !reply.kept;
      var it, t' := NewIteration(c, n, estimate, reply), AfterReply(c, calling, n, estimate, reply, more);
      hide Tried;
      if lost {
        TriedLost(c, r, t, t', attempt);
      } else {
        TriedMore(c, r, t, t', it, attempt);
      }
    } else {
      TriedRefused(c, r, t, Fired(c, w, t, attempt), attempt);
    }
  }

  lemma TriedRefused(c: Context, r: Run, t: Tally, t': Tally, attempt: nat)
    requires Tried(c, r, t, attempt, false) && t.progress.Going? && attempt <= AttemptCap(c.cfg, c.thresholds)
    requires t'.run.session == t.run.session && t'.run.stream == t.run.stream
    requires t'.progress.Exhausted? && t'.code == BudgetExhausted
    ensures Tried(c, r, t', attempt + 1, false)
  {
    hide CycleTold;
  }

  lemma TriedLost(c: Context, r: Run, t: Tally, t': Tally, attempt: nat)
    requires Tried(c, r, t, attempt, false) && t'.progress.Raised? && t'.run.session == t.run.session
    requires t'.run.stream == t.run.stream + [IterationStartEvent(|t.run.session.iterations| + 1)]
    ensures Tried(c, r, t', attempt + 1, true)
  {
    hide CycleTold;
  }

  lemma TriedMore(c: Context, r: Run, t: Tally, t': Tally, it: Iteration, attempt: nat)
    requires Tried(c, r, t, attempt, false) && t.progress.Going? && it.n == |t.run.session.iterations| + 1
    requires t'.run.session.iterations == t.run.session.iterations + [it]
    requires t'.run.stream == (t.run.stream + [IterationStartEvent(it.n)])
      + AnnouncementOf(it, attempt < AttemptCap(c.cfg, c.thresholds) && !HasPassed(it))
    requires t'.progress == (if HasPassed(it) then Delivered else Going) && (HasPassed(it) ==> t'.best.Some?)
    requires t'.progress.Going? ==> t'.code == if it.error.Some? then GenerationFailed else NoDeliverable
    ensures Tried(c, r, t', attempt + 1, false)
  {
    var its, from := t.run.session.iterations, |r.session.iterations|;
    CycleTakesOne(r.stream, its, from, it, AttemptCap(c.cfg, c.thresholds));
    hide CycleTold, AnnouncementOf;
  }

  /** The failure code of an attempt that neither passed nor raised: a measured frame without success, or an error. */
  lemma ReplyCode(c: Context, t: Tally, n: nat, estimate: Usd, reply: ProviderReply, more: bool)
    requires n == |t.run.session.iterations| + 1 && t.progress.Going?
    ensures var t', it := AfterReply(c, t, n, estimate, reply, more), NewIteration(c, n, estimate, reply);
      t'.progress.Going? ==> t'.code == if it.error.Some? then GenerationFailed else NoDeliverable
  {
    hide Settle, Cancel, Announced, Recorded, Saved, FaceSaved, Tracked, Banded, KeepsBest;
  }

  lemma PassedIsKept(c: Context, best: Option<BestResult>, n: nat, estimate: Usd, reply: ProviderReply)
    ensures var it := NewIteration(c, n, estimate, reply); HasPassed(it) ==> BestAfter(best, it).Some?
  {
    NewIterationOk(c, n, estimate, reply);
    hide NewIteration, Banded;
  }

  lemma PreparedTries(c: Context, w: World, r: Run, t: Tally, attempt: nat)
    requires Tried(c, r, t, attempt, false) && t.progress.Going?
    ensures Tried(c, r, Prepared(c, w, t, attempt), attempt, false)
    ensures var ready := Prepared(c, w, t, attempt); ready.progress.Going? || ready.progress.Raised?
  {
    WrittenKeepsRecord(c.cfg, w, t.run, c.step, Some(t.body));
    WrittenTellsNothing(c.cfg, w, t.run, c.step, Some(t.body));
    hide Written, Assemble, CycleTold;
  }

  lemma {:induction false} AttemptsTry(c: Context, w: World, r: Run, t: Tally, attempt: nat)
    returns (last: nat, lost: bool)
    requires Tried(c, r, t, attempt, false) && t.progress.Going? && attempt >= 1
    requires attempt == 1 || attempt <= AttemptCap(c.cfg, c.thresholds) + 1
    ensures Tried(c, r, Attempts(c, w, t, attempt), last, lost)
    ensures Attempts(c, w, t, attempt).progress.Going? ==>
      last > AttemptCap(c.cfg, c.thresholds)
      && (last == 1 || last == AttemptCap(c.cfg, c.thresholds) + 1)
    decreases c.MaxAttempts() - attempt
  {
    hide Prepared, Fired, Tried;
    last, lost := attempt, false;
    MaxAttemptsIsCap(c);
    if attempt <= c.MaxAttempts() {
      PreparedTries(c, w, r, t, attempt);
      var ready := Prepared(c, w, t, attempt);
      if ready.progress.Raised? {
        assert Attempts(c, w, ready, attempt + 1) == ready;
      } else {
        lost := FiredTries(c, w, r, ready, attempt);
        last := attempt + 1;
        var t' := Attempted(c, w, t, attempt);
        if t'.progress.Going? {
          TriedOpen(c, r, t', last, lost);
          last, lost := AttemptsTry(c, w, r, t', attempt + 1);
        } else {
          assert Attempts(c, w, t', attempt + 1) == t';
        }
      }
    }
  }

  lemma TriedOpen(c: Context, r: Run, t: Tally, attempt: nat, lost: bool)
    requires Tried(c, r, t, attempt, lost) && t.progress.Going?
    ensures !lost
  {
  }

  /** A retry cycle uses the attempts it has. It gives up without a passing frame, a refused reservation or a raise only
      after exactly min(1 + K, max_iterations) attempts, none when that is below one; what it tells is exactly a start
      and a result per attempt and a retry after every failed attempt below that number; and a failure is reported as
      exhaustion, as an error of the last attempt, or as no deliverable. */
  lemma StepUsesItsAttempts(c: Context, w: World, r: Run) returns (lost: bool)
    ensures var t, from := StepRun(c, w, r), |r.session.iterations|;
      var its, k, limit := t.run.session.iterations, c.thresholds.kMaxRetries, c.cfg.maxIterations;
      var most := if 1 + k < 1 || limit < 1 then 0 else if 1 + k < limit then 1 + k else limit;
      && r.session.iterations <= its
      && t.run.stream == r.stream + CycleTold(its[from..], most) + LostTold(lost, |its| + 1)
      && (lost ==> t.progress.Raised?)
      && (t.progress.Going? ==>
            |its| - from == most
            && t.code == if |its| > from && its[|its| - 1].error.Some? then GenerationFailed else NoDeliverable)
      && (t.progress.Exhausted? ==> |its| - from < most && t.code == BudgetExhausted)
      && (t.progress.Delivered? ==> |its| > from && HasPassed(its[|its| - 1]) && t.best.Some?)
  {
    hide Opened, Attempts, CycleTold;
    OpenedTries(c, w, r);
    var t := Opened(c, w, r);
    lost := false;
    if t.progress.Going? {
      var last;
      last, lost := AttemptsTry(c, w, r, t, 1);
    } else {
      AttemptsOver(c, w, t);
    }
  }

  lemma AttemptsOver(c: Context, w: World, t: Tally)
    requires !t.progress.Going?
    ensures Attempts(c, w, t, 1) == t
  {
  }

  lemma OpenedTries(c: Context, w: World, r: Run)
    ensures Tried(c, r, Opened(c, w, r), 1, false)
    ensures Opened(c, w, r).progress.Going? || Opened(c, w, r).progress.Raised?
  {
    WrittenKeepsRecord(c.cfg, w, r, c.step, None);
    WrittenTellsNothing(c.cfg, w, r, c.step, None);
    hide Written, Assemble;
    var its := Opened(c, w, r).run.session.iterations;
    assert its == r.session.iterations && its[|its|..] == [];
  }
  // ----- The chain of steps -----

  /** The steps still to be done from step `i` on. */
  function PendingFrom(steps: seq<EditStep>, i: nat): seq<nat>
    decreases |steps| - i
  {
    if i >= |steps| then []
    else (if steps[i].status == Pending then [i] else []) + PendingFrom(steps, i + 1)
  }

  function Begins(starts: seq<StepStart>): (indices: seq<nat>)
    ensures |indices| == |starts|
  {
    seq(|starts|, k requires 0 <= k < |starts| => starts[k].index)
  }

  /** Why a chain that worked on from `ch` is where it is. An open one has begun every pending step. A closed one
      stopped at the step it began last: that found no deliverable and is still pending, or its next attempt was
      refused. */
  predicate Through(w: World, ch: Chain, i: nat, after: Chain) {
    var begun, due := Begins(after.starts), Begins(ch.starts) + PendingFrom(ch.steps, i);
    && begun <= due
    && (after.state.Open? ==> begun == due)
    && (after.state.Closed? ==>
          && begun != [] && begun[|begun| - 1] < |after.steps|
          && (DeskAfter(w, after.run.ops).Refusing? || after.steps[begun[|begun| - 1]].status == Pending))
  }

  lemma AdvanceThrough(cfg: Config, th: Thresholds, w: World, ch: Chain, i: nat)
    requires i < |ch.steps| && ch.state.Open? && DeskAfter(w, ch.run.ops).Idle?
    ensures var after := Advanced(cfg, th, w, ch, i);
      && Begins(after.starts) == Begins(ch.starts) + (if ch.steps[i].status == Pending then [i] else [])
      && PendingFrom(after.steps, i + 1) == PendingFrom(ch.steps, i + 1)
      && (after.state.Open? ==> DeskAfter(w, after.run.ops).Idle?)
      && (after.state.Closed? ==>
            ch.steps[i].status == Pending
            && (DeskAfter(w, after.run.ops).Refusing? || after.steps[i].status == Pending))
  {
    hide StepRun, DeskAfter, LocksFor, Promoted, WithSteps, Extends;
    var after := Advanced(cfg, th, w, ch, i);
    if ch.steps[i].status == Pending {
      var begun := Begun(cfg, ch, i);
      StepKeepsDesk(ContextAt(cfg, th, begun, i), w, begun.run);
      assert begun.run.ops == ch.run.ops;
    }
    assert forall j | 0 <= j < |ch.steps| && j != i :: after.steps[j] == ch.steps[j];
    PendingAgrees(ch.steps, after.steps, i + 1);
  }

  lemma {:induction false} PendingAgrees(steps: seq<EditStep>, steps': seq<EditStep>, i: nat)
    requires |steps'| == |steps| && forall j | i <= j < |steps| :: steps'[j] == steps[j]
    ensures PendingFrom(steps', i) == PendingFrom(steps, i)
    decreases |steps| - i
  {
    if i < |steps| {
      PendingAgrees(steps, steps', i + 1);
    }
  }

  lemma {:induction false} ChainThrough(cfg: Config, th: Thresholds, w: World, ch: Chain, i: nat)
    requires ch.state.Open? && DeskAfter(w, ch.run.ops).Idle?
    ensures Through(w, ch, i, Chained(cfg, th, w, ch, i))
    decreases |ch.steps| - i
  {
    hide Advanced, DeskAfter, Through, PendingFrom;
    if i < |ch.steps| {
      AdvanceThrough(cfg, th, w, ch, i);
      var next := Advanced(cfg, th, w, ch, i);
      hide Begins;
      if next.state.Open? {
        ChainThrough(cfg, th, w, next, i + 1);
        ThroughMore(w, ch, i, next, Chained(cfg, th, w, next, i + 1));
      } else {
        StoppedThrough(w, ch, i, next);
        assert Chained(cfg, th, w, next, i + 1) == next;
      }
    } else {
      NothingDue(w, ch, i);
    }
  }

  lemma NothingDue(w: World, ch: Chain, i: nat)
    requires i >= |ch.steps| && ch.state.Open?
    ensures Through(w, ch, i, ch)
  {
    hide Begins;
  }

  lemma ThroughMore(w: World, ch: Chain, i: nat, next: Chain, after: Chain)
    requires i < |ch.steps| && Through(w, next, i + 1, after)
    requires Begins(next.starts) == Begins(ch.starts) + (if ch.steps[i].status == Pending then [i] else [])
    requires PendingFrom(next.steps, i + 1) == PendingFrom(ch.steps, i + 1)
    ensures Through(w, ch, i, after)
  {
    hide DeskAfter, Begins;
    assert Begins(ch.starts) + PendingFrom(ch.steps, i) == Begins(next.starts) + PendingFrom(next.steps, i + 1);
  }

  lemma StoppedThrough(w: World, ch: Chain, i: nat, next: Chain)
    requires i < |ch.steps| && !next.state.Open?
    requires Begins(next.starts) == Begins(ch.starts) + (if ch.steps[i].status == Pending then [i] else [])
    requires next.state.Closed? ==>
      && ch.steps[i].status == Pending && i < |next.steps|
      && (DeskAfter(w, next.run.ops).Refusing? || next.steps[i].status == Pending)
    ensures Through(w, ch, i, next)
  {
    hide DeskAfter, Begins;
    var due := Begins(ch.starts) + PendingFrom(ch.steps, i);
    assert due == Begins(next.starts) + PendingFrom(ch.steps, i + 1);
  }

  /** Every run works through its plan: the steps it begins are the pending ones, in order, without a gap. Unless it
      raises it leaves one out only behind a step that found no deliverable or a refused reservation. */
  lemma RunBeginsStepsInOrder(cfg: Config, w: World, d: Durable)
    requires d.session.thresholds.Some? && w.reference.Some?
    ensures var ch, due := Worked(cfg, w, d), PendingFrom(PlanSteps(cfg, d.session), 0);
      var begun := Begins(ch.starts);
      && begun <= due
      && (!ch.state.Broken? && begun != due ==>
            && begun != [] && begun[|begun| - 1] < |ch.steps|
            && (EndsRefused(Drive(cfg, w, d).ops) || ch.steps[begun[|begun| - 1]].status == Pending))
  {
    hide Worked, Drive, DeskAfter, PlanSteps;
    var ch := Worked(cfg, w, d);
    WorkedThrough(cfg, w, d);
    if !ch.state.Broken? {
      DriveEnds(cfg, w, d);
    }
  }

  lemma WorkedThrough(cfg: Config, w: World, d: Durable)
    requires d.session.thresholds.Some? && w.reference.Some?
    ensures Through(w, Launched(cfg, d, w.reference.value), 0, Worked(cfg, w, d))
    ensures var launched := Launched(cfg, d, w.reference.value);
      launched.starts == [] && launched.steps == PlanSteps(cfg, d.session)
  {
    var launched := Launched(cfg, d, w.reference.value);
    assert launched.run.ops == [];
    DeskOfNothing(w);
    hide Launched, DeskAfter, Chained, Through;
    ChainThrough(cfg, d.session.thresholds.value, w, launched, 0);
  }

  /** A run that does not raise refuses nothing at its end that its chain did not. */
  lemma DriveEnds(cfg: Config, w: World, d: Durable)
    requires d.session.thresholds.Some? && !Worked(cfg, w, d).state.Broken?
    ensures var ch := Worked(cfg, w, d);
      DeskAfter(w, ch.run.ops).Refusing? <==> EndsRefused(Drive(cfg, w, d).ops)
  {
    hide Worked, DeskAfter, Finished, EndsRefused;
    var ch := Worked(cfg, w, d);
    RunKeepsDiscipline(cfg, w, d);
    FinishedTells(ch.run, ch.code);
    RefusingEnds(w, ch.run.ops);
  }

  // ----- A run that fails -----

  /** A cycle that ended without a best: refused before its last attempt, or after all of them; and none of its frames
      was deliverable. */
  predicate FruitlessCycle(w: World, most: nat, entered: seq<Iteration>, r: Run, code: FailureCode) {
    var its := r.session.iterations;
    && entered <= its && (forall i | |entered| <= i < |its| :: !Eligible(its[i]))
    && if DeskAfter(w, r.ops).Refusing? then |its| < |entered| + most && code == BudgetExhausted
       else
         && |its| == |entered| + most
         && code == if most > 0 && its[|its| - 1].error.Some? then GenerationFailed else NoDeliverable
  }

  /** A chain that completed no step: it has begun none, or only the one that ended it. */
  predicate Fruitless(w: World, most: nat, entered: seq<Iteration>, ch: Chain) {
    match ch.state
    case Open =>
      && ch.starts == [] && ch.run.session.iterations == entered && ch.code == NoDeliverable
      && DeskAfter(w, ch.run.ops).Idle?
    case Closed => |ch.starts| == 1 && FruitlessCycle(w, most, entered, ch.run, ch.code)
    case Broken => true
  }

  lemma AdvanceFruitless(
    cfg: Config, th: Thresholds, w: World, ch: Chain, i: nat, entered: seq<Iteration>)
    requires i < |ch.steps| && ch.state.Open? && ch.bests == [] && Fruitless(w, AttemptCap(cfg, th), entered, ch)
    requires WellRecorded(entered, cfg.sessionKey, th)
    ensures var after := Advanced(cfg, th, w, ch, i);
      after.bests == [] ==> Fruitless(w, AttemptCap(cfg, th), entered, after)
  {
    hide StepRun, DeskAfter, LocksFor, Promoted, WithSteps, Extends, CycleTold, AttemptCap;
    if ch.steps[i].status == Pending {
      var begun := Begun(cfg, ch, i);
      var c := ContextAt(cfg, th, begun, i);
      StepKeepsDesk(c, w, begun.run);
      var lost := StepUsesItsAttempts(c, w, begun.run);
      StepKeepsBest(c, w, begun.run);
      hide RecordOk, NamesIteration;
      WrittenOut(cfg, th);
    }
  }

  lemma WrittenOut(cfg: Config, th: Thresholds)
    ensures var k, limit := th.kMaxRetries, cfg.maxIterations;
      AttemptCap(cfg, th) == if 1 + k < 1 || limit < 1 then 0 else if 1 + k < limit then 1 + k else limit
  {
  }

  lemma {:induction false} ChainFruitless(
    cfg: Config, th: Thresholds, w: World, ch: Chain, i: nat, entered: seq<Iteration>)
    requires ch.bests == [] && Fruitless(w, AttemptCap(cfg, th), entered, ch)
    requires WellRecorded(entered, cfg.sessionKey, th)
    ensures var after := Chained(cfg, th, w, ch, i);
      after.bests == [] ==> Fruitless(w, AttemptCap(cfg, th), entered, after)
    decreases |ch.steps| - i
  {
    hide Advanced, DeskAfter, Fruitless, AttemptCap;
    if i < |ch.steps| && ch.state.Open? {
      AdvanceFruitless(cfg, th, w, ch, i, entered);
      var next := Advanced(cfg, th, w, ch, i);
      if next.bests == [] {
        ChainFruitless(cfg, th, w, next, i + 1, entered);
      } else {
        BestsStay(cfg, th, w, next, i + 1);
      }
    }
  }

  lemma {:induction false} BestsStay(cfg: Config, th: Thresholds, w: World, ch: Chain, i: nat)
    requires ch.bests != []
    ensures Chained(cfg, th, w, ch, i).bests != []
    decreases |ch.steps| - i
  {
    hide StepRun, LocksFor, Promoted, WithSteps;
    if i < |ch.steps| && ch.state.Open? {
      BestsStay(cfg, th, w, Advanced(cfg, th, w, ch, i), i + 1);
    }
  }

  /** A run fails only when it has nothing to deliver, none of its frames deliverable, and says why. The photo is
      missing; or the budget refused an attempt; or it made every attempt its one step allows, exactly min(1 + K,
      max_iterations) of them, and the last one was an error or fell short; or nothing was left to do. */
  lemma FailureSaysWhy(cfg: Config, x: ChainResume.Charter, w: World, d: Durable)
    requires ChainRuns.Enters(cfg, x, d) && !Worked(cfg, w, d).state.Broken?
    requires var stream := Drive(cfg, w, d).stream; stream != [] && stream[|stream| - 1].FailedEvent?
    ensures var r, e := Drive(cfg, w, d), Drive(cfg, w, d).stream[|Drive(cfg, w, d).stream| - 1];
      var its, more := r.session.iterations, |r.session.iterations| - |d.session.iterations|;
      var most := AttemptCap(cfg, x.thresholds);
      && d.session.best.None? && d.session.iterations <= its
      && (forall i | |d.session.iterations| <= i < |its| :: !Eligible(its[i]))
      && e.code == (if w.reference.None? then ReferenceMissing
                    else if EndsRefused(r.ops) then BudgetExhausted
                    else if more > 0 && its[|its| - 1].error.Some? then GenerationFailed
                    else NoDeliverable)
      && (w.reference.None? ==> more == 0)
      && (w.reference.Some? && EndsRefused(r.ops) ==> 0 <= more < most)
      && (w.reference.Some? && !EndsRefused(r.ops) ==>
            more == if PendingFrom(PlanSteps(cfg, d.session), 0) == [] then 0 else most)
  {
    hide Worked, Drive, DeskAfter, PlanSteps, AttemptCap, ChainRuns.Enters, PendingFrom, EndsRefused;
    EntersRecorded(cfg, x, d);
    ChainRuns.DriveFinishes(cfg, w, d);
    ChainRuns.BestIffCompleted(cfg, x, w, d);
    assert Begins([]) == [];
    if w.reference.Some? {
      WorkedThrough(cfg, w, d);
      WorkedFruitless(cfg, w, d);
      DriveEnds(cfg, w, d);
    } else {
      WithoutReference(cfg, w, d);
    }
  }

  lemma EntersRecorded(cfg: Config, x: ChainResume.Charter, d: Durable)
    requires ChainRuns.Enters(cfg, x, d)
    ensures d.session.thresholds == Some(x.thresholds)
    ensures WellRecorded(d.session.iterations, cfg.sessionKey, x.thresholds)
  {
  }

  lemma WorkedFruitless(cfg: Config, w: World, d: Durable)
    requires d.session.thresholds.Some? && w.reference.Some?
    requires WellRecorded(d.session.iterations, cfg.sessionKey, d.session.thresholds.value)
    ensures var ch := Worked(cfg, w, d);
      ch.bests == [] ==>
        Fruitless(w, AttemptCap(cfg, d.session.thresholds.value), d.session.iterations, ch)
  {
    var launched := Launched(cfg, d, w.reference.value);
    assert launched.run.ops == [];
    DeskOfNothing(w);
    hide Launched, DeskAfter, Chained, AttemptCap;
    ChainFruitless(cfg, d.session.thresholds.value, w, launched, 0, d.session.iterations);
  }

  lemma WithoutReference(cfg: Config, w: World, d: Durable)
    requires d.session.thresholds.Some? && w.reference.None?
    ensures var ch := Worked(cfg, w, d);
      ch.code == ReferenceMissing && ch.run.session == d.session && ch.state.Closed?
  {
  }
}
