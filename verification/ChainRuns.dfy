/** Whole runs and whole lives: any number of runs of one session, each stopped at any store state. */
module ChainRuns {
  import opened Schemas
  import opened Money
  import opened ChainSpec
  import opened ChainMoney
  import opened ChainRecord
  import opened ChainResume
  import opened ChainDelivery

  /** A session of charter `x`, as the loop finds it in the store. */
  predicate Enters(cfg: Config, x: Charter, d: Durable) {
    DurableOk(x, d) && cfg.sessionKey == x.key
  }

  lemma LaunchInv(cfg: Config, x: Charter, w: World, d: Durable, reference: Bytes)
    requires Enters(cfg, x, d)
    ensures ChainInv(cfg, x, w, reference, d.session, Launched(cfg, d, reference), 0)
  {
    assert 0 * AttemptCap(cfg, x.thresholds) == 0;
    hide AbsorbCompleted, RecordOk, NamesIteration;
  }

  lemma WorkedInv(cfg: Config, x: Charter, w: World, d: Durable) returns (i: nat)
    requires Enters(cfg, x, d) && w.reference.Some?
    ensures ChainInv(cfg, x, w, w.reference.value, d.session, Worked(cfg, w, d), i)
  {
    hide ChainInv, Launched;
    LaunchInv(cfg, x, w, d, w.reference.value);
    i := ChainKeepsInv(cfg, x, w, w.reference.value, d.session, Launched(cfg, d, w.reference.value), 0);
  }

  lemma FinishedOk(x: Charter, r: Run, code: FailureCode)
    requires RunOk(x, r)
    ensures RunOk(x, Finished(r, code))
  {
    hide RecordOk, NamesIteration;
  }

  lemma InvRunOk(cfg: Config, x: Charter, w: World, reference: Bytes, s: Session, ch: Chain, i: nat)
    requires ChainInv(cfg, x, w, reference, s, ch, i)
    ensures RunOk(x, ch.run)
  {
    hide RunOk, StepsOk, LogsOk;
  }

  lemma WorkedRunOk(cfg: Config, x: Charter, w: World, d: Durable)
    requires Enters(cfg, x, d)
    ensures RunOk(x, Worked(cfg, w, d).run)
  {
    if w.reference.Some? {
      hide Worked, ChainInv, RunOk, DurableOk;
      var i := WorkedInv(cfg, x, w, d);
      InvRunOk(cfg, x, w, w.reference.value, d.session, Worked(cfg, w, d), i);
    } else {
      EnteredOk(x, d);
      hide RunOk, DurableOk;
    }
  }

  /** Whatever a run meets, each store state it passes through can be entered again: completed steps are a
      prefix of the steps not skipped, iterations are well recorded, and the best names one of them. */
  lemma EveryStoreStateResumable(cfg: Config, x: Charter, w: World, d: Durable)
    requires Enters(cfg, x, d)
    ensures RunOk(x, Drive(cfg, w, d))
  {
    hide Worked, RunOk, Finished;
    WorkedRunOk(cfg, x, w, d);
    FinishedOk(x, Worked(cfg, w, d).run, Worked(cfg, w, d).code);
  }

  lemma EnteredOk(x: Charter, d: Durable)
    requires DurableOk(x, d)
    ensures RunOk(x, Entered(d))
  {
    hide Resumable;
  }

  // ----- Lives -----

  /** One run of a life: the world it meets, and after how many store states it dies (it may outlive them). */
  datatype Incarnation = Incarnation(world: World, storesBeforeCrash: nat)

  function StateAtCrash(r: Run, d: Durable, stores: nat): Durable {
    if stores == 0 || r.trail == [] then d
    else if stores <= |r.trail| then r.trail[stores - 1]
    else r.trail[|r.trail| - 1]
  }

  lemma CrashStateEnters(cfg: Config, x: Charter, w: World, d: Durable, stores: nat)
    requires Enters(cfg, x, d)
    ensures Enters(cfg, x, StateAtCrash(Drive(cfg, w, d), d, stores))
  {
    hide Drive, DurableOk;
    EveryStoreStateResumable(cfg, x, w, d);
  }

  /** What the store holds after a life of interrupted runs. */
  function Survivor(cfg: Config, x: Charter, d: Durable, life: seq<Incarnation>): Durable
    requires Enters(cfg, x, d)
    ensures Enters(cfg, x, Survivor(cfg, x, d, life))
    decreases |life|
  {
    if life == [] then d
    else
      var before := Survivor(cfg, x, d, life[..|life| - 1]);
      var last := life[|life| - 1];
      CrashStateEnters(cfg, x, last.world, before, last.storesBeforeCrash);
      StateAtCrash(Drive(cfg, last.world, before), before, last.storesBeforeCrash)
  }

  /** Crash-resume agreement. After any number of crashes at any store states, every step the next run
      begins sees the lock ledger, and locks exactly the items, that an uninterrupted run has there. */
  lemma ResumedStepsLockAlike(cfg: Config, x: Charter, d: Durable, life: seq<Incarnation>, w: World)
    requires Enters(cfg, x, d) && w.reference.Some?
    ensures var plan, ch := BasePlan(cfg, x), Worked(cfg, w, Survivor(cfg, x, d, life));
      forall k | 0 <= k < |ch.starts| ::
        && ch.starts[k].index < |plan|
        && ch.starts[k].ledger == LedgerBefore(plan, ch.starts[k].index)
        && ch.starts[k].locks == LocksFor(cfg, x.inventory, ch.starts[k].ledger, plan[ch.starts[k].index])
  {
    hide Worked, ChainInv, BestOk, FoldBest, Source, LocksFor, LedgerBefore;
    var before := Survivor(cfg, x, d, life);
    var i := WorkedInv(cfg, x, w, before);
    InvDelivers(cfg, x, w, w.reference.value, before.session, Worked(cfg, w, before), i);
  }

  /** After any number of crashes the counter still covers every recorded cost. */
  lemma {:induction false} CrashesLeaveCounterAhead(cfg: Config, x: Charter, d: Durable, life: seq<Incarnation>)
    requires Enters(cfg, x, d) && Surplus(d) >= 0
    ensures var s := Survivor(cfg, x, d, life);
      Surplus(s) >= Surplus(d) && CostSpent(s.session) <= FromMicro(s.counter)
    decreases |life|
  {
    var s := Survivor(cfg, x, d, life);
    if life != [] {
      var init, last := life[..|life| - 1], life[|life| - 1];
      var before := Survivor(cfg, x, d, init);
      CrashesLeaveCounterAhead(cfg, x, d, init);
      CounterNonNegative(before);
      LedgerMatchesRecord(cfg, last.world, before);
      hide Drive;
    }
    SumUsdWithinMicro(IterationCosts(s.session.iterations));
    SumUsdWithinMicro(CallCosts(s.session.llmCalls));
    SplitDollars(s.session);
  }

  /** A run stopped at any store state leaves on the counter, beyond the record it was entered with and the record it
      made, nothing or exactly one call's amount: an open estimate or a settled cost. */
  lemma CrashLosesOneAmount(cfg: Config, x: Charter, w: World, d: Durable, stores: nat)
    requires Enters(cfg, x, d) && Surplus(d) >= 0
    ensures OneAmount(Drive(cfg, w, d).ops, Surplus(StateAtCrash(Drive(cfg, w, d), d, stores)) - Surplus(d))
  {
    hide Drive, Worked, OneAmount, Surplus;
    CounterNonNegative(d);
    LedgerMatchesRecord(cfg, w, d);
    NoAmount(Drive(cfg, w, d).ops);
  }

  lemma CounterNonNegative(d: Durable)
    requires Surplus(d) >= 0
    ensures d.counter >= 0
  {
    SumMicroNonNegative(IterationCosts(d.session.iterations));
    SumMicroNonNegative(CallCosts(d.session.llmCalls));
  }

  /** No call of the run puts more than `bound` on the counter. */
  predicate AmountsWithin(ops: seq<Op>, bound: nat) {
    forall k | 0 <= k < |ops| && Amount(ops[k]).Some? :: Amount(ops[k]).value <= bound
  }

  lemma AmountBounded(ops: seq<Op>, micro: int, bound: nat)
    requires OneAmount(ops, micro) && AmountsWithin(ops, bound)
    ensures micro <= bound
  {
  }

  /** In no run of the life a call puts more than `bound` on the counter. */
  predicate LifeWithin(cfg: Config, x: Charter, d: Durable, life: seq<Incarnation>, bound: nat)
    requires Enters(cfg, x, d)
  {
    life == []
    || (var front, last := life[..|life| - 1], life[|life| - 1];
        LifeWithin(cfg, x, d, front, bound)
        && AmountsWithin(Drive(cfg, last.world, Survivor(cfg, x, d, front)).ops, bound))
  }

  /** Over a life the counter is ahead of the record by at most one call's amount per interrupted run. */
  lemma {:induction false} CrashesLoseOneCallEach(
    cfg: Config, x: Charter, d: Durable, life: seq<Incarnation>, bound: nat)
    requires Enters(cfg, x, d) && Surplus(d) >= 0 && LifeWithin(cfg, x, d, life, bound)
    ensures Surplus(d) <= Surplus(Survivor(cfg, x, d, life)) <= Surplus(d) + |life| * bound
    decreases |life|
  {
    hide Drive, Surplus, Enters, StateAtCrash, OneAmount, AmountsWithin;
    if life != [] {
      var init, last := life[..|life| - 1], life[|life| - 1];
      var before := Survivor(cfg, x, d, init);
      CrashesLoseOneCallEach(cfg, x, d, init, bound);
      CrashesLeaveCounterAhead(cfg, x, d, life);
      EntersPlanned(cfg, x, before);
      CrashLosesOneAmount(cfg, x, last.world, before, last.storesBeforeCrash);
      AmountBounded(Drive(cfg, last.world, before).ops, Surplus(Survivor(cfg, x, d, life)) - Surplus(before), bound);
      assert |life| * bound == |init| * bound + bound;
    }
  }

  lemma EntersPlanned(cfg: Config, x: Charter, d: Durable)
    requires Enters(cfg, x, d)
    ensures d.session.thresholds == Some(x.thresholds)
  {
  }

  lemma SplitDollars(s: Session)
    ensures FromMicro(RecordMicro(s))
         == FromMicro(SumMicro(IterationCosts(s.iterations))) + FromMicro(SumMicro(CallCosts(s.llmCalls)))
  {
  }

  // ----- Delivery -----

  /** The identity promise about a delivered result. */
  predicate IdentityKept(x: Charter, s: Session) {
    s.best.Some? ==>
      && NamesIteration(s.best.value, s.iterations)
      && s.best.value.verdict != BelowFloor
      && s.best.value.verdict == Banded(s.best.value.similarity, x.thresholds)
      && s.best.value.resultRef == Ref(x.key, s.best.value.iterationN)
      && (x.thresholds.identityFloor <= x.thresholds.similarityThreshold ==>
            s.best.value.similarity >= x.thresholds.identityFloor)
  }

  lemma ResumableKeepsIdentity(x: Charter, s: Session)
    requires Resumable(x, s)
    ensures IdentityKept(x, s)
  {
    if s.best.Some? {
      var k := s.best.value.iterationN - 1;
      assert RecordOk(s.iterations[k], k + 1, x.key, x.thresholds);
      BandedGuarantee(s.best.value.similarity, x.thresholds);
    }
  }

  /** In every reachable session the best names an iteration on record that cleared the floor. */
  lemma DeliveredIdentity(cfg: Config, x: Charter, d: Durable, life: seq<Incarnation>, w: World)
    requires Enters(cfg, x, d)
    ensures IdentityKept(x, Survivor(cfg, x, d, life).session)
    ensures IdentityKept(x, Drive(cfg, w, Survivor(cfg, x, d, life)).session)
  {
    var s := Survivor(cfg, x, d, life);
    EveryStoreStateResumable(cfg, x, w, s);
    ResumableKeepsIdentity(x, s.session);
    ResumableKeepsIdentity(x, Drive(cfg, w, s).session);
    hide Drive, Resumable, IdentityKept;
  }

  /** A finished run returns a result exactly when the session had a best already or a step completed in it, for a
      planned session exactly when some step of the plan has completed; the event and the stored state agree. */
  lemma ResultIffStepCompleted(cfg: Config, x: Charter, w: World, d: Durable)
    requires Enters(cfg, x, d) && !Worked(cfg, w, d).state.Broken?
    ensures var r := Drive(cfg, w, d);
      && r.stream != []
      && var last := r.stream[|r.stream| - 1];
      && (last.ResultEvent? <==> d.session.best.Some? || Worked(cfg, w, d).bests != [])
      && (d.session.plan != [] ==> (last.ResultEvent? <==> SomeCompleted(r.durable.session.plan)))
      && (last.ResultEvent? ==>
            r.durable.session.best == Some(last.best) && r.durable.session.fsmState == Done
            && last.iterationsUsed == |r.durable.session.iterations|
            && last.generationsSpent == GenerationsSpent(r.durable.session.iterations)
            && last.costSpent == CostSpent(r.durable.session))
      && (!last.ResultEvent? ==>
            last.FailedEvent? && r.durable.session.best.None? && r.durable.session.fsmState == Failed
            && last.iterationsUsed == |r.durable.session.iterations|
            && last.generationsSpent == GenerationsSpent(r.durable.session.iterations)
            && last.costSpent == CostSpent(r.durable.session))
  {
    EveryStoreStateResumable(cfg, x, w, d);
    DriveFinishes(cfg, w, d);
    BestIffCompleted(cfg, x, w, d);
    hide Worked, Drive, RecordOk, NamesIteration, CompletedPrefix;
  }

  lemma BestIffCompleted(cfg: Config, x: Charter, w: World, d: Durable)
    requires Enters(cfg, x, d)
    ensures Worked(cfg, w, d).run.session.best.Some? <==> d.session.best.Some? || Worked(cfg, w, d).bests != []
  {
    if w.reference.Some? {
      ChainDelivers(cfg, x, w, d);
      hide Worked, BestOk;
    }
  }

  lemma DriveFinishes(cfg: Config, w: World, d: Durable)
    requires d.session.thresholds.Some? && !Worked(cfg, w, d).state.Broken?
    ensures var r, ch := Drive(cfg, w, d), Worked(cfg, w, d);
      && r.stream == ch.run.stream + [TerminalEvent(ch.run.session, ch.code)]
      && r.session == ch.run.session.(fsmState := if ch.run.session.best.Some? then Done else Failed)
      && r.durable.session == r.session
      && CostSpent(r.session) == CostSpent(ch.run.session)
  {
    hide Worked;
  }

  /** Chain delivery. The session's best after a run is the fold of the step bests of that run over the
      best it was entered with, and each step it completed is on the plan with its best frame. */
  lemma ChainDelivers(cfg: Config, x: Charter, w: World, d: Durable)
    requires Enters(cfg, x, d) && w.reference.Some?
    ensures var ch := Worked(cfg, w, d);
      && ch.run.session.best == FoldBest(d.session.best, ch.bests)
      && (forall k | 0 <= k < |ch.bests| ::
            BestOk(ch, ch.bests[k]) && k < |ch.starts| && ch.starts[k].index == ch.bests[k].index)
      && |ch.bests| <= |ch.starts| <= |ch.bests| + 1
  {
    hide Worked, ChainInv, BestOk, FoldBest;
    var i := WorkedInv(cfg, x, w, d);
    InvDelivers(cfg, x, w, w.reference.value, d.session, Worked(cfg, w, d), i);
  }

  lemma InvDelivers(cfg: Config, x: Charter, w: World, reference: Bytes, s: Session, ch: Chain, i: nat)
    requires ChainInv(cfg, x, w, reference, s, ch, i)
    ensures ch.run.session.best == FoldBest(s.best, ch.bests)
    ensures forall k | 0 <= k < |ch.bests| ::
      BestOk(ch, ch.bests[k]) && k < |ch.starts| && ch.starts[k].index == ch.bests[k].index
    ensures |ch.bests| <= |ch.starts| <= |ch.bests| + 1
    ensures forall k | 0 <= k < |ch.starts| ::
      k <= |ch.bests| && StartOk(cfg, x, w, reference, ch.starts[k], ch.bests[..k])
  {
    hide RunOk, StepsOk, BestOk, StartOk, FoldBest;
    if ch.starts != [] {
      var last := ch.starts[|ch.starts| - 1];
    }
  }

  /** Image chaining. In any one run, the k-th step begun edits the frame of the best of the step completed
      just before it in that run, and the first edits the original photo. */
  lemma StepsEditPreviousBest(cfg: Config, x: Charter, w: World, d: Durable)
    requires Enters(cfg, x, d) && w.reference.Some?
    ensures var ch := Worked(cfg, w, d);
      forall k | 0 <= k < |ch.starts| ::
        k <= |ch.bests| && ch.starts[k].working == Source(w, w.reference.value, ch.bests[..k])
  {
    hide Worked, ChainInv, BestOk, FoldBest, Source, LocksFor, LedgerBefore;
    var i := WorkedInv(cfg, x, w, d);
    InvDelivers(cfg, x, w, w.reference.value, d.session, Worked(cfg, w, d), i);
  }

  /** At most min(1 + K, max_iterations) new iterations per step of the plan. */
  lemma IterationsBounded(cfg: Config, x: Charter, w: World, d: Durable)
    requires Enters(cfg, x, d)
    ensures var its := Drive(cfg, w, d).session.iterations;
      && d.session.iterations <= its
      && |its| <= |d.session.iterations| + |BasePlan(cfg, x)| * AttemptCap(cfg, x.thresholds)
  {
    if w.reference.Some? {
      var i := WorkedInv(cfg, x, w, d);
      var ch := Worked(cfg, w, d);
      hide Worked, RunOk, LogsOk;
      ProductMonotone(|ch.starts|, |BasePlan(cfg, x)|, AttemptCap(cfg, x.thresholds));
    }
  }

  lemma ProductMonotone(a: nat, b: nat, c: nat)
    requires a <= b
    ensures a * c <= b * c
  {
  }
}
