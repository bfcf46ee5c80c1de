/** The whole chain: what is delivered, from which image each step works, and what a crash leaves behind. */
module ChainDelivery {
  import opened Schemas
  import opened LockItems
  import opened ChainSpec
  import opened ChainRecord
  import opened ChainResume

  // ----- Delivery as a fold -----

  /** The delivered result: step bests folded in chain order. */
  function FoldBest(prior: Option<BestResult>, bests: seq<StepBest>): Option<BestResult> {
    if bests == [] then prior
    else
      var last := bests[|bests| - 1];
      Promoted(FoldBest(prior, bests[..|bests| - 1]), last.isEnhance, last.best)
  }

  /** An enhance step never lowers the delivered similarity. */
  lemma EnhanceNeverLowers(prior: Option<BestResult>, bests: seq<StepBest>, enhance: StepBest)
    requires enhance.isEnhance && FoldBest(prior, bests).Some?
    ensures var after := FoldBest(prior, bests + [enhance]);
      && after.Some?
      && after.value.similarity >= FoldBest(prior, bests).value.similarity
      && after.value.similarity >= enhance.best.similarity
      && (after == FoldBest(prior, bests) || after.value == enhance.best)
  {
    assert (bests + [enhance])[..|bests|] == bests;
  }

  /** When the latest completed step is not an enhance step, its best is what is delivered. */
  lemma LatestEditWins(prior: Option<BestResult>, bests: seq<StepBest>)
    requires bests != [] && !bests[|bests| - 1].isEnhance
    ensures FoldBest(prior, bests) == Some(bests[|bests| - 1].best)
  {
  }

  /** What may be delivered: the best of the latest edit step and of every enhance step after it; while no edit step
      has completed, the best delivered before as well. */
  function Deliverables(prior: Option<BestResult>, bests: seq<StepBest>): seq<BestResult> {
    if bests == [] then if prior.Some? then [prior.value] else []
    else
      var last := bests[|bests| - 1];
      if last.isEnhance then Deliverables(prior, bests[..|bests| - 1]) + [last.best] else [last.best]
  }

  /** No other is more similar, and the later ones are less similar. */
  predicate LatestMaximum(bests: seq<BestResult>, k: nat)
    requires k < |bests|
  {
    && (forall j | 0 <= j < |bests| :: bests[j].similarity <= bests[k].similarity)
    && (forall j | k < j < |bests| :: bests[j].similarity < bests[k].similarity)
  }

  /** What is delivered is exactly the most similar of the deliverables, the latest of equals. */
  lemma {:induction false} DeliveredIsLatestMaximum(prior: Option<BestResult>, bests: seq<StepBest>)
    ensures var all, delivered := Deliverables(prior, bests), FoldBest(prior, bests);
      && (delivered.None? <==> all == [])
      && (delivered.Some? ==> exists k | 0 <= k < |all| :: all[k] == delivered.value && LatestMaximum(all, k))
  {
    if bests == [] {
      assert prior.Some? ==> LatestMaximum([prior.value], 0);
    } else {
      var front, last := bests[..|bests| - 1], bests[|bests| - 1];
      DeliveredIsLatestMaximum(prior, front);
      var before, all := Deliverables(prior, front), Deliverables(prior, bests);
      assert all[|all| - 1] == last.best;
      if FoldBest(prior, bests) == Some(last.best) {
        assert last.isEnhance ==> forall j | 0 <= j < |before| :: all[j] == before[j];
        assert LatestMaximum(all, |all| - 1);
      } else {
        var k :| 0 <= k < |before| && before[k] == FoldBest(prior, front).value && LatestMaximum(before, k);
        assert forall j | 0 <= j < |before| :: all[j] == before[j];
        assert LatestMaximum(all, k);
      }
    }
  }

  function ImageOf(reply: ProviderReply): Bytes {
    if reply.Frame? then reply.image else ""
  }

  /** The image a step edits: the frame of the last completed step's best, else the original photo. */
  function Source(w: World, reference: Bytes, bests: seq<StepBest>): Bytes {
    if bests == [] then reference else ImageOf(ReplyAt(w, bests[|bests| - 1].best.iterationN))
  }

  // ----- The chain invariant -----

  function BasePlan(cfg: Config, x: Charter): seq<EditStep> {
    if x.plan != [] then x.plan else [EditStep(1, cfg.presetTitle, "", [], "", false, Pending, None)]
  }

  function AttemptCap(cfg: Config, th: Thresholds): nat {
    var most := if 1 + th.kMaxRetries <= cfg.maxIterations then 1 + th.kMaxRetries else cfg.maxIterations;
    if most < 0 then 0 else most
  }

  /** Where a step's begin record must agree with the plan and with the chain so far. */
  predicate StartOk(cfg: Config, x: Charter, w: World, reference: Bytes, start: StepStart, before: seq<StepBest>) {
    var plan := BasePlan(cfg, x);
    && start.index < |plan|
    && plan[start.index].status != Skipped
    && start.ledger == LedgerBefore(plan, start.index)
    && start.locks == LocksFor(cfg, x.inventory, start.ledger, plan[start.index])
    && start.working == Source(w, reference, before)
  }

  predicate BestOk(ch: Chain, b: StepBest) {
    && b.index < |ch.steps|
    && ch.steps[b.index].status == Completed && ch.steps[b.index].resultRef == Some(b.best.resultRef)
    && ch.steps[b.index].isEnhance == b.isEnhance
    && NamesIteration(b.best, ch.run.session.iterations)
  }

  predicate RunOk(x: Charter, r: Run) {
    && Resumable(x, r.session)
    && r.face.inventory == x.inventory
    && DurableOk(x, r.durable)
    && forall i | 0 <= i < |r.trail| :: DurableOk(x, r.trail[i])
  }

  predicate StepsOk(cfg: Config, x: Charter, ch: Chain, i: nat) {
    && SamePlan(ch.steps, BasePlan(cfg, x))
    && CompletedPrefix(ch.steps)
    && ch.ledger == AbsorbCompleted(ch.steps)
    && (ch.state.Open? ==>
          && ch.run.durable.session == ch.run.session
          && ch.run.session.plan == (if x.plan == [] then [] else ch.steps)
          && forall j | 0 <= j < i && j < |ch.steps| :: ch.steps[j].status != Pending)
  }

  predicate LogsOk(cfg: Config, x: Charter, w: World, reference: Bytes, prior: Option<BestResult>, ch: Chain, i: nat) {
    && |ch.bests| <= |ch.starts|
    && (ch.state.Open? ==> |ch.bests| == |ch.starts|)
    && (forall k | 0 <= k < |ch.bests| :: ch.bests[k].index == ch.starts[k].index && BestOk(ch, ch.bests[k]))
    && (forall k | 0 <= k < |ch.starts| ::
          k <= |ch.bests| && StartOk(cfg, x, w, reference, ch.starts[k], ch.bests[..k]))
    && (ch.state.Open? ==> forall k | 0 <= k < |ch.starts| :: ch.starts[k].index < i)
    && ch.run.session.best == FoldBest(prior, ch.bests)
    && (ch.state.Open? ==> ch.working == Source(w, reference, ch.bests))
  }

  predicate ChainInv(cfg: Config, x: Charter, w: World, reference: Bytes, s: Session, ch: Chain, i: nat) {
    && RunOk(x, ch.run)
    && StepsOk(cfg, x, ch, i)
    && LogsOk(cfg, x, w, reference, s.best, ch, i)
    && s.iterations <= ch.run.session.iterations
    && |ch.run.session.iterations| <= |s.iterations| + |ch.starts| * AttemptCap(cfg, x.thresholds)
    && (ch.state.Open? ==> |ch.starts| <= i)
    && |ch.starts| <= |ch.steps|
  }

  // ----- Beginning a step -----

  lemma BegunInv(cfg: Config, x: Charter, w: World, reference: Bytes, s: Session, ch: Chain, i: nat)
    requires ChainInv(cfg, x, w, reference, s, ch, i) && ch.state.Open? && cfg.sessionKey == x.key
    requires i < |ch.steps| && ch.steps[i].status == Pending
    ensures var begun := Begun(cfg, ch, i);
      && Safe(x, begun.run.session, begun.run) && Resumable(x, begun.run.session)
      && OneBegun(ch, begun) && begun.starts[|ch.starts|].index == i
      && StartOk(cfg, x, w, reference, begun.starts[|ch.starts|], ch.bests)
      && Fits(x, ContextAt(cfg, x.thresholds, begun, i))
      && StepsOk(cfg, x, begun, i) && begun.state.Open?
  {
    hide Begun, LocksFor, StartOk, Safe, Resumable, RunOk, StepsOk, Source;
    BegunFields(cfg, ch, i);
    var begun := Begun(cfg, ch, i);
    OpenFacts(cfg, x, ch, i);
    OpenLogs(cfg, x, w, reference, s.best, ch, i);
    BegunStartOk(cfg, x, w, reference, ch, i);
    BegunSafe(x, ch.run, begun.run);
    BegunStepsOk(cfg, x, ch, begun, i);
  }

  lemma OpenFacts(cfg: Config, x: Charter, ch: Chain, i: nat)
    requires StepsOk(cfg, x, ch, i) && ch.state.Open? && RunOk(x, ch.run)
    ensures ch.run.durable.session == ch.run.session && ch.run.face.inventory == x.inventory
  {
    hide Resumable, AbsorbCompleted;
  }

  lemma OpenLogs(cfg: Config, x: Charter, w: World, reference: Bytes, prior: Option<BestResult>, ch: Chain, i: nat)
    requires LogsOk(cfg, x, w, reference, prior, ch, i) && ch.state.Open?
    ensures ch.working == Source(w, reference, ch.bests)
  {
    hide BestOk, StartOk, Source;
  }

  lemma BegunSafe(x: Charter, r: Run, begun: Run)
    requires RunOk(x, r) && r.durable.session == r.session && begun == r.(stream := begun.stream)
    ensures Safe(x, begun.session, begun) && Resumable(x, begun.session)
  {
    hide RecordOk, NamesIteration, CompletedPrefix, SamePlan;
  }

  lemma BegunStepsOk(cfg: Config, x: Charter, ch: Chain, begun: Chain, i: nat)
    requires StepsOk(cfg, x, ch, i) && begun.steps == ch.steps && begun.ledger == ch.ledger
    requires begun.state == ch.state && begun.run == ch.run.(stream := begun.run.stream)
    ensures StepsOk(cfg, x, begun, i)
  {
    hide AbsorbCompleted, CompletedPrefix, SamePlan;
  }

  lemma BegunFields(cfg: Config, ch: Chain, i: nat)
    requires i < |ch.steps|
    ensures var begun := Begun(cfg, ch, i);
      && OneBegun(ch, begun)
      && begun.starts == ch.starts
           + [StepStart(i, ch.ledger, LocksFor(cfg, ch.run.face.inventory, ch.ledger, ch.steps[i]), ch.working)]
      && begun.working == ch.working && begun.ledger == ch.ledger && begun.state == ch.state && begun.code == ch.code
      && begun.run == ch.run.(stream := begun.run.stream)
  {
    hide LocksFor;
  }

  lemma BegunStartOk(cfg: Config, x: Charter, w: World, reference: Bytes, ch: Chain, i: nat)
    requires StepsOk(cfg, x, ch, i) && ch.state.Open? && ch.run.face.inventory == x.inventory
    requires i < |ch.steps| && ch.steps[i].status == Pending
    requires ch.working == Source(w, reference, ch.bests)
    ensures StartOk(cfg, x, w, reference,
      StepStart(i, ch.ledger, LocksFor(cfg, ch.run.face.inventory, ch.ledger, ch.steps[i]), ch.working), ch.bests)
  {
    var plan := BasePlan(cfg, x);
    ResumedLedger(ch.steps, plan, i);
    assert ch.steps[i] == plan[i].(status := ch.steps[i].status, resultRef := ch.steps[i].resultRef);
    hide AbsorbCompleted, LedgerBefore, Enumerate, Source;
  }

  // ----- Ending a step -----

  /** What a finished retry cycle guarantees to the chain around it. */
  predicate CycleResult(cfg: Config, x: Charter, w: World, r: Run, t: Tally) {
    && Safe(x, r.session, t.run)
    && (t.best.Some? ==>
          && NamesIteration(t.best.value, t.run.session.iterations)
          && t.image == ImageOf(ReplyAt(w, t.best.value.iterationN)))
    && |t.run.session.iterations| <= |r.session.iterations| + AttemptCap(cfg, x.thresholds)
  }

  lemma CycleEnds(cfg: Config, x: Charter, w: World, c: Context, r: Run)
    requires Resumable(x, r.session) && Safe(x, r.session, r) && Fits(x, c) && c.cfg == cfg
    ensures CycleResult(cfg, x, w, r, StepRun(c, w, r))
  {
    hide StepRun, Safe;
    StepSafe(x, c, w, r);
    StepKeepsBest(c, w, r);
  }

  lemma SafeRunOk(x: Charter, s: Session, r: Run)
    requires Resumable(x, s) && Safe(x, s, r)
    ensures RunOk(x, r)
  {
    GrownResumable(x, s, r.session);
    GrownResumable(x, s, r.durable.session);
    hide Resumable;
  }

  /** Iterations only grow, so a best on record stays on record. */
  lemma BestStays(b: BestResult, its: seq<Iteration>, more: seq<Iteration>)
    requires NamesIteration(b, its) && its <= more
    ensures NamesIteration(b, more)
  {
  }

  lemma CompletedPlan(x: Charter, plan: seq<EditStep>, steps: seq<EditStep>, i: nat, ref: Ref)
    requires SamePlan(steps, plan) && CompletedPrefix(steps)
    requires i < |steps| && steps[i].status == Pending
    requires forall j | 0 <= j < i :: steps[j].status != Pending
    ensures var after := steps[i := steps[i].(status := Completed, resultRef := Some(ref))];
      SamePlan(after, plan) && CompletedPrefix(after) && SomeCompleted(after)
  {
    var after := steps[i := steps[i].(status := Completed, resultRef := Some(ref))];
    assert after[i].status == Completed;
    forall j, k | 0 <= j < k < |after| && after[k].status == Completed
      ensures after[j].status != Pending
    {
      if k != i {
        assert steps[k].status == Completed;
      }
    }
  }

  function CompletedSteps(steps: seq<EditStep>, i: nat, ref: Ref): seq<EditStep>
    requires i < |steps|
  {
    steps[i := steps[i].(status := Completed, resultRef := Some(ref))]
  }

  function CompletedSession(ch: Chain, i: nat, t: Tally): Session
    requires i < |ch.steps| && t.best.Some?
  {
    WithSteps(t.run.session, CompletedSteps(ch.steps, i, t.best.value.resultRef))
      .(best := Promoted(t.run.session.best, ch.steps[i].isEnhance, t.best.value))
  }

  lemma CompletedFields(ch: Chain, i: nat, t: Tally)
    requires i < |ch.steps| && t.best.Some?
    ensures var after, session := StepCompleted(ch, i, t), CompletedSession(ch, i, t);
      && after.steps == CompletedSteps(ch.steps, i, t.best.value.resultRef)
      && after.ledger == Absorbed(ch.ledger, ch.steps[i])
      && after.working == t.image
      && after.state == (if t.progress.Exhausted? then Closed else Open)
      && after.starts == ch.starts
      && after.bests == ch.bests + [StepBest(i, ch.steps[i].isEnhance, t.best.value)]
      && after.run.session == session
      && after.run.durable == t.run.durable.(session := session)
      && after.run.trail == t.run.trail + [after.run.durable]
      && after.run.face == t.run.face
  {
  }

  /** The session and run after a completed step are resumable. */
  lemma CompletedRunOk(cfg: Config, x: Charter, w: World, reference: Bytes, ch: Chain, i: nat, t: Tally)
    requires i < |ch.steps| && ch.steps[i].status == Pending && t.best.Some?
    requires StepsOk(cfg, x, ch, i) && ch.state.Open?
    requires Resumable(x, ch.run.session) && CycleResult(cfg, x, w, ch.run, t)
    ensures RunOk(x, StepCompleted(ch, i, t).run)
    ensures StepsOk(cfg, x, StepCompleted(ch, i, t), i + 1)
  {
    hide StepCompleted, Absorbed, AbsorbCompleted;
    CompletedFields(ch, i, t);
    CompletedStepsOk(cfg, x, ch, i, t.best.value.resultRef);
    CompletedSessionOk(cfg, x, w, ch, i, t);
    SafeRunOk(x, ch.run.session, t.run);
    hide Resumable, Safe, CompletedPrefix, SamePlan;
  }

  lemma CompletedStepsOk(cfg: Config, x: Charter, ch: Chain, i: nat, ref: Ref)
    requires i < |ch.steps| && ch.steps[i].status == Pending && StepsOk(cfg, x, ch, i) && ch.state.Open?
    ensures var steps := CompletedSteps(ch.steps, i, ref);
      && SamePlan(steps, BasePlan(cfg, x)) && CompletedPrefix(steps) && SomeCompleted(steps)
      && AbsorbCompleted(steps) == Absorbed(ch.ledger, ch.steps[i])
      && forall j | 0 <= j < i + 1 && j < |steps| :: steps[j].status != Pending
  {
    CompletedPlan(x, BasePlan(cfg, x), ch.steps, i, ref);
    AbsorbOneMore(ch.steps, i, Some(ref));
    hide AbsorbCompleted, SamePlan, CompletedPrefix;
  }

  lemma CompletedSessionOk(cfg: Config, x: Charter, w: World, ch: Chain, i: nat, t: Tally)
    requires i < |ch.steps| && ch.steps[i].status == Pending && t.best.Some?
    requires StepsOk(cfg, x, ch, i) && ch.state.Open?
    requires Resumable(x, ch.run.session) && CycleResult(cfg, x, w, ch.run, t)
    ensures var session := CompletedSession(ch, i, t);
      Resumable(x, session)
      && session.plan == (if x.plan == [] then [] else CompletedSteps(ch.steps, i, t.best.value.resultRef))
  {
    CompletedStepsOk(cfg, x, ch, i, t.best.value.resultRef);
    if t.run.session.best.Some? {
      BestStays(t.run.session.best.value, ch.run.session.iterations, t.run.session.iterations);
    }
    hide AbsorbCompleted, StepsOk, NamesIteration, RecordOk;
  }

  /** `ch` is `before` with one step begun. */
  predicate OneBegun(before: Chain, ch: Chain) {
    && |ch.starts| == |before.starts| + 1 && ch.starts[..|before.starts|] == before.starts
    && ch.steps == before.steps && ch.bests == before.bests
    && ch.run.session == before.run.session
  }

  lemma CompletedLogsOk(
    cfg: Config, x: Charter, w: World, reference: Bytes, prior: Option<BestResult>, before: Chain, ch: Chain, i: nat,
        t: Tally)
    requires i < |ch.steps| && ch.steps[i].status == Pending && t.best.Some? && before.state.Open?
    requires LogsOk(cfg, x, w, reference, prior, before, i) && OneBegun(before, ch)
    requires ch.starts[|before.starts|].index == i
    requires StartOk(cfg, x, w, reference, ch.starts[|before.starts|], before.bests)
    requires CycleResult(cfg, x, w, ch.run, t)
    ensures LogsOk(cfg, x, w, reference, prior, StepCompleted(ch, i, t), i + 1)
  {
    hide StepCompleted, StartOk, BestOk, CycleResult, Safe, FoldBest, Resumable, Absorbed, Source, WithSteps, Promoted;
    CompletedFields(ch, i, t);
    CompletedBestsOk(cfg, x, w, reference, prior, before, ch, i, t);
    var start, best := ch.starts[|before.starts|], StepBest(i, ch.steps[i].isEnhance, t.best.value);
    StartsExtend(cfg, x, w, reference, before.starts, before.bests, start, best);
    assert ch.starts == before.starts + [start];
    NewSource(w, reference, before.bests, best, ch, t, cfg, x);
  }

  lemma NewSource(
    w: World, reference: Bytes, bests: seq<StepBest>, best: StepBest, ch: Chain, t: Tally, cfg: Config, x: Charter)
    requires CycleResult(cfg, x, w, ch.run, t) && t.best == Some(best.best)
    ensures Source(w, reference, bests + [best]) == t.image
  {
  }

  lemma StartsExtend(
    cfg: Config, x: Charter, w: World, reference: Bytes, starts: seq<StepStart>, bests: seq<StepBest>,
    start: StepStart, best: StepBest)
    requires |starts| == |bests|
    requires forall k | 0 <= k < |starts| :: StartOk(cfg, x, w, reference, starts[k], bests[..k])
    requires StartOk(cfg, x, w, reference, start, bests)
    ensures forall k | 0 <= k < |starts + [start]| ::
      StartOk(cfg, x, w, reference, (starts + [start])[k], (bests + [best])[..k])
  {
    hide StartOk;
    forall k | 0 <= k < |starts + [start]|
      ensures StartOk(cfg, x, w, reference, (starts + [start])[k], (bests + [best])[..k])
    {
      if k < |starts| {
        assert (bests + [best])[..k] == bests[..k];
      } else {
        assert (bests + [best])[..k] == bests;
      }
    }
  }

  lemma CompletedBestsOk(
    cfg: Config, x: Charter, w: World, reference: Bytes, prior: Option<BestResult>, before: Chain, ch: Chain, i: nat,
        t: Tally)
    requires i < |ch.steps| && ch.steps[i].status == Pending && t.best.Some? && before.state.Open?
    requires LogsOk(cfg, x, w, reference, prior, before, i) && OneBegun(before, ch)
    requires ch.starts[|before.starts|].index == i
    requires CycleResult(cfg, x, w, ch.run, t)
    ensures var after := StepCompleted(ch, i, t);
      && (forall k | 0 <= k < |after.bests| ::
            k < |after.starts| && after.bests[k].index == after.starts[k].index && BestOk(after, after.bests[k]))
      && after.run.session.best == FoldBest(prior, after.bests)
  {
    hide StepCompleted, StartOk, Resumable, Absorbed, NamesIteration, Source;
    CompletedFields(ch, i, t);
    var after := StepCompleted(ch, i, t);
    var b := StepBest(i, ch.steps[i].isEnhance, t.best.value);
    FoldOneMore(prior, before.bests, b);
    hide FoldBest;
    forall k | 0 <= k < |after.bests|
      ensures k < |after.starts| && after.bests[k].index == after.starts[k].index && BestOk(after, after.bests[k])
    {
      if k < |before.bests| {
        assert after.bests[k] == before.bests[k] && after.starts[k] == before.starts[k];
        assert BestOk(before, before.bests[k]);
        BestStays(before.bests[k].best, before.run.session.iterations, t.run.session.iterations);
      }
    }
  }

  lemma FoldOneMore(prior: Option<BestResult>, bests: seq<StepBest>, b: StepBest)
    ensures FoldBest(prior, bests + [b]) == Promoted(FoldBest(prior, bests), b.isEnhance, b.best)
  {
    assert (bests + [b])[..|bests|] == bests;
  }

  lemma UnfinishedLogsOk(
    cfg: Config, x: Charter, w: World, reference: Bytes, prior: Option<BestResult>, before: Chain, after: Chain, i: nat)
    requires before.state.Open? && LogsOk(cfg, x, w, reference, prior, before, i) && !after.state.Open?
    requires |after.starts| == |before.starts| + 1 && after.starts[..|before.starts|] == before.starts
    requires after.bests == before.bests && after.steps == before.steps
    requires StartOk(cfg, x, w, reference, after.starts[|before.starts|], before.bests)
    requires after.run.session.best == before.run.session.best
    requires before.run.session.iterations <= after.run.session.iterations
    ensures LogsOk(cfg, x, w, reference, prior, after, i + 1)
  {
    hide StartOk;
    forall k | 0 <= k < |after.bests|
      ensures after.bests[k].index == after.starts[k].index && BestOk(after, after.bests[k])
    {
      assert BestOk(before, before.bests[k]);
      BestStays(before.bests[k].best, before.run.session.iterations, after.run.session.iterations);
    }
    forall k | 0 <= k < |after.starts|
      ensures k <= |after.bests| && StartOk(cfg, x, w, reference, after.starts[k], after.bests[..k])
    {
      if k == |before.starts| {
        assert before.bests[..k] == before.bests;
      }
    }
  }

  lemma PendingInv(cfg: Config, x: Charter, w: World, reference: Bytes, s: Session, ch: Chain, i: nat, t: Tally)
    requires ChainInv(cfg, x, w, reference, s, ch, i) && ch.state.Open? && cfg.sessionKey == x.key
    requires i < |ch.steps| && ch.steps[i].status == Pending
    requires CycleResult(cfg, x, w, Begun(cfg, ch, i).run, t)
    ensures ChainInv(cfg, x, w, reference, s, StepEnded(Begun(cfg, ch, i), i, t), i + 1)
  {
    hide Begun, StepEnded, StepCompleted, LogsOk, StepsOk, Safe, StartOk, AttemptCap, Resumable;
    BegunInv(cfg, x, w, reference, s, ch, i);
    var begun := Begun(cfg, ch, i);
    ProductGrows(|ch.starts|, AttemptCap(cfg, x.thresholds));
    if !t.progress.Raised? && t.best.Some? {
      CompletedEnds(begun, i, t);
      CompletedFields(begun, i, t);
      CompletedRunOk(cfg, x, w, reference, begun, i, t);
      CompletedLogsOk(cfg, x, w, reference, s.best, ch, begun, i, t);
      CompletedGrowth(x, begun, i, t);
    } else {
      UnfinishedEnds(begun, i, t);
      var after := StepEnded(begun, i, t);
      UnfinishedRunOk(x, begun, after, t);
      UnfinishedStepsOk(cfg, x, begun, after, i);
      UnfinishedGrowth(x, begun, t);
      UnfinishedLogsOk(cfg, x, w, reference, s.best, ch, after, i);
    }
  }

  lemma ProductGrows(a: nat, b: nat)
    ensures (a + 1) * b == a * b + b
  {
  }

  lemma CompletedEnds(ch: Chain, i: nat, t: Tally)
    requires i < |ch.steps| && !t.progress.Raised? && t.best.Some?
    ensures StepEnded(ch, i, t) == StepCompleted(ch, i, t)
  {
    hide StepCompleted;
  }

  lemma UnfinishedEnds(ch: Chain, i: nat, t: Tally)
    requires i < |ch.steps| && (t.progress.Raised? || t.best.None?)
    ensures var after := StepEnded(ch, i, t);
      && !after.state.Open? && after.steps == ch.steps && after.starts == ch.starts && after.bests == ch.bests
      && after.ledger == ch.ledger && after.run == t.run.(stream := after.run.stream)
  {
    hide StepCompleted;
  }

  lemma CompletedGrowth(x: Charter, ch: Chain, i: nat, t: Tally)
    requires i < |ch.steps| && t.best.Some? && Safe(x, ch.run.session, t.run)
    ensures ch.run.session.iterations <= CompletedSession(ch, i, t).iterations == t.run.session.iterations
  {
  }

  lemma UnfinishedGrowth(x: Charter, ch: Chain, t: Tally)
    requires Safe(x, ch.run.session, t.run)
    ensures ch.run.session.iterations <= t.run.session.iterations && t.run.session.best == ch.run.session.best
  {
  }

  lemma UnfinishedRunOk(x: Charter, ch: Chain, after: Chain, t: Tally)
    requires Resumable(x, ch.run.session) && Safe(x, ch.run.session, t.run)
    requires after.run == t.run.(stream := after.run.stream)
    ensures RunOk(x, after.run)
  {
    SafeRunOk(x, ch.run.session, t.run);
    hide Resumable, Safe;
  }

  lemma UnfinishedStepsOk(cfg: Config, x: Charter, ch: Chain, after: Chain, i: nat)
    requires StepsOk(cfg, x, ch, i) && !after.state.Open? && after.steps == ch.steps && after.ledger == ch.ledger
    ensures StepsOk(cfg, x, after, i + 1)
  {
    hide AbsorbCompleted, CompletedPrefix, SamePlan;
  }

  lemma PassedOverInv(cfg: Config, x: Charter, w: World, reference: Bytes, s: Session, ch: Chain, i: nat)
    requires ChainInv(cfg, x, w, reference, s, ch, i) && ch.state.Open? && i < |ch.steps|
    requires ch.steps[i].status != Pending
    ensures ChainInv(cfg, x, w, reference, s, Advanced(cfg, x.thresholds, w, ch, i), i + 1)
  {
    hide Resumable, StartOk, AbsorbCompleted, StepRun, StepEnded, Begun, FoldBest;
  }

  lemma AdvancedPending(cfg: Config, th: Thresholds, w: World, ch: Chain, i: nat)
    requires i < |ch.steps| && ch.steps[i].status == Pending
    ensures var begun := Begun(cfg, ch, i);
      Advanced(cfg, th, w, ch, i) == StepEnded(begun, i, StepRun(ContextAt(cfg, th, begun, i), w, begun.run))
  {
    hide StepEnded, StepRun, ContextAt;
  }

  lemma BegunAdvanceInv(cfg: Config, x: Charter, w: World, reference: Bytes, s: Session, ch: Chain, i: nat)
    requires ChainInv(cfg, x, w, reference, s, ch, i) && ch.state.Open? && cfg.sessionKey == x.key
    requires i < |ch.steps| && ch.steps[i].status == Pending
    ensures ChainInv(cfg, x, w, reference, s, Advanced(cfg, x.thresholds, w, ch, i), i + 1)
  {
    hide Advanced, ChainInv, StepRun, Safe, StepEnded, CycleResult, StartOk, StepsOk, OneBegun, Resumable, Enumerate;
    BegunInv(cfg, x, w, reference, s, ch, i);
    var begun := Begun(cfg, ch, i);
    var c := ContextAt(cfg, x.thresholds, begun, i);
    CycleEnds(cfg, x, w, c, begun.run);
    PendingInv(cfg, x, w, reference, s, ch, i, StepRun(c, w, begun.run));
    AdvancedPending(cfg, x.thresholds, w, ch, i);
  }

  lemma AdvanceInv(cfg: Config, x: Charter, w: World, reference: Bytes, s: Session, ch: Chain, i: nat)
    requires ChainInv(cfg, x, w, reference, s, ch, i) && ch.state.Open? && cfg.sessionKey == x.key && i < |ch.steps|
    ensures ChainInv(cfg, x, w, reference, s, Advanced(cfg, x.thresholds, w, ch, i), i + 1)
  {
    hide ChainInv, Advanced;
    if ch.steps[i].status == Pending {
      BegunAdvanceInv(cfg, x, w, reference, s, ch, i);
    } else {
      PassedOverInv(cfg, x, w, reference, s, ch, i);
    }
  }

  lemma {:induction false} ChainKeepsInv(
    cfg: Config, x: Charter, w: World, reference: Bytes, s: Session, ch: Chain, i: nat) returns (j: nat)
    requires ChainInv(cfg, x, w, reference, s, ch, i) && cfg.sessionKey == x.key
    ensures ChainInv(cfg, x, w, reference, s, Chained(cfg, x.thresholds, w, ch, i), j)
    decreases |ch.steps| - i
  {
    hide ChainInv, Advanced;
    j := i;
    if i < |ch.steps| && ch.state.Open? {
      AdvanceInv(cfg, x, w, reference, s, ch, i);
      j := ChainKeepsInv(cfg, x, w, reference, s, Advanced(cfg, x.thresholds, w, ch, i), i + 1);
    }
  }
}
