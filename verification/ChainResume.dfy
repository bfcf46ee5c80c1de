/** Crash and resume: every store state a run passes through can be resumed, and a resumed chain locks
    at each step start exactly what an uninterrupted one locks there. */
module ChainResume {
  import opened Schemas
  import opened Money
  import opened BudgetOps
  import opened LockItems
  import opened ChainSpec
  import opened ChainRecord

  // ----- Plans -----

  /** Two versions of one plan: same content, same skipped steps, possibly different progress. */
  predicate SamePlan(steps: seq<EditStep>, plan: seq<EditStep>) {
    && |steps| == |plan|
    && forall i | 0 <= i < |steps| ::
         && steps[i] == plan[i].(status := steps[i].status, resultRef := steps[i].resultRef)
         && (steps[i].status == Skipped <==> plan[i].status == Skipped)
  }

  /** Completed steps form a prefix of the steps that are not skipped. */
  predicate CompletedPrefix(steps: seq<EditStep>) {
    forall i, j | 0 <= i < j < |steps| :: steps[j].status == Completed ==> steps[i].status != Pending
  }

  predicate SomeCompleted(steps: seq<EditStep>) {
    exists i | 0 <= i < |steps| :: steps[i].status == Completed
  }

  /** The lock ledger an uninterrupted run has before step `i`: every earlier step not skipped, in order. */
  function LedgerBefore(plan: seq<EditStep>, i: nat): LockLedger
    requires i <= |plan|
  {
    if i == 0 then EMPTY_LEDGER
    else if plan[i - 1].status == Skipped then LedgerBefore(plan, i - 1)
    else Absorbed(LedgerBefore(plan, i - 1), plan[i - 1])
  }

  lemma {:induction false} AbsorbSettledPrefix(steps: seq<EditStep>, plan: seq<EditStep>, i: nat)
    requires SamePlan(steps, plan) && i <= |steps|
    requires forall j | 0 <= j < i :: steps[j].status != Pending
    ensures AbsorbCompleted(steps[..i]) == LedgerBefore(plan, i)
  {
    if i > 0 {
      assert steps[..i][..i - 1] == steps[..i - 1];
      AbsorbSettledPrefix(steps, plan, i - 1);
      assert steps[i - 1] == plan[i - 1].(status := steps[i - 1].status, resultRef := steps[i - 1].resultRef);
    }
  }

  lemma {:induction false} AbsorbIgnoresTail(steps: seq<EditStep>, i: nat)
    requires i <= |steps|
    requires forall j | i <= j < |steps| :: steps[j].status != Completed
    ensures AbsorbCompleted(steps) == AbsorbCompleted(steps[..i])
  {
    if i == |steps| {
      assert steps[..i] == steps;
    } else {
      var init := steps[..|steps| - 1];
      AbsorbIgnoresTail(init, i);
      assert init[..i] == steps[..i];
    }
  }

  /** Re-locking the completed steps of a resumed plan gives, at its first pending step, the ledger of an
      uninterrupted run. */
  lemma ResumedLedger(steps: seq<EditStep>, plan: seq<EditStep>, i: nat)
    requires SamePlan(steps, plan) && CompletedPrefix(steps)
    requires i < |steps| && steps[i].status == Pending
    requires forall j | 0 <= j < i :: steps[j].status != Pending
    ensures AbsorbCompleted(steps) == LedgerBefore(plan, i)
  {
    AbsorbIgnoresTail(steps, i);
    AbsorbSettledPrefix(steps, plan, i);
  }

  lemma AbsorbOneMore(steps: seq<EditStep>, i: nat, ref: Option<Ref>)
    requires i < |steps| && steps[i].status == Pending && CompletedPrefix(steps)
    requires forall j | 0 <= j < i :: steps[j].status != Pending
    ensures AbsorbCompleted(steps[i := steps[i].(status := Completed, resultRef := ref)])
         == Absorbed(AbsorbCompleted(steps), steps[i])
  {
    var after := steps[i := steps[i].(status := Completed, resultRef := ref)];
    AbsorbIgnoresTail(steps, i);
    AbsorbIgnoresTail(after, i + 1);
    assert after[..i + 1][..i] == steps[..i];
  }

  // ----- Sessions a run may be resumed from -----

  /** What stays fixed over the life of a session. */
  datatype Charter = Charter(key: string, thresholds: Thresholds, plan: seq<EditStep>, inventory: Option<Inventory>)

  /** A session record the loop can be entered with: well-formed iterations, a best that names one of
      them, and progress that matches the plan. */
  predicate Resumable(x: Charter, s: Session) {
    && s.thresholds == Some(x.thresholds)
    && WellRecorded(s.iterations, x.key, x.thresholds)
    && (s.best.Some? ==> NamesIteration(s.best.value, s.iterations))
    && SamePlan(s.plan, x.plan)
    && CompletedPrefix(s.plan)
    && (s.plan != [] ==> (s.best.Some? <==> SomeCompleted(s.plan)))
  }

  /** `s'` is `s` with more on the record. */
  predicate Grown(x: Charter, s: Session, s': Session) {
    SameCharter(s, s') && s.iterations <= s'.iterations && WellRecorded(s'.iterations, x.key, x.thresholds)
  }

  lemma GrownResumable(x: Charter, s: Session, s': Session)
    requires Resumable(x, s) && Grown(x, s, s')
    ensures Resumable(x, s')
  {
  }

  predicate DurableOk(x: Charter, d: Durable) {
    Resumable(x, d.session) && d.face.inventory == x.inventory
  }

  /** A retry cycle entered with session `s`: memory and store extend `s`, every store state is resumable. */
  predicate Safe(x: Charter, s: Session, r: Run) {
    && Grown(x, s, r.session) && Grown(x, s, r.durable.session)
    && r.face.inventory == x.inventory && r.durable.face.inventory == x.inventory
    && forall i | 0 <= i < |r.trail| :: DurableOk(x, r.trail[i])
  }

  // ----- The retry cycle -----

  lemma StoreSafe(x: Charter, s: Session, r: Run, counter: int)
    requires Resumable(x, s) && Safe(x, s, r)
    ensures Safe(x, s, Stored(r, r.durable.(counter := counter)))
    ensures Safe(x, s, Saved(r))
    ensures Safe(x, s, FaceSaved(r))
  {
    GrownResumable(x, s, r.session);
    GrownResumable(x, s, r.durable.session);
    hide Resumable, Grown;
  }

  lemma BudgetSafe(x: Charter, s: Session, r: Run, kind: PaidCallKind, estimate: Usd, billed: Option<Usd>)
    requires Resumable(x, s) && Safe(x, s, r)
    ensures Safe(x, s, Reserve(r, kind, estimate))
    ensures Safe(x, s, Settle(r, estimate, billed))
    ensures Safe(x, s, Cancel(r, estimate))
  {
    StoreSafe(x, s, r, r.durable.counter + ToMicro(estimate));
    StoreSafe(x, s, r, Settle(r, estimate, billed).durable.counter);
    StoreSafe(x, s, r, Cancel(r, estimate).durable.counter);
    hide Resumable, Grown, DurableOk;
  }

  lemma RecorderSafe(x: Charter, s: Session, r: Run, cost: Usd)
    requires Resumable(x, s) && Safe(x, s, r)
    ensures Safe(x, s, WriterRecorded(r, cost))
  {
    hide Resumable, DurableOk;
    StoreSafe(x, s, r.(session := r.session.(llmCalls := r.session.llmCalls + [PaidCall(SlotFill, cost)])), 0);
  }

  lemma WrittenSafe(x: Charter, s: Session, cfg: Config, w: World, r: Run, step: EditStep, revising: Option<string>)
    requires Resumable(x, s) && Safe(x, s, r)
    ensures Safe(x, s, Written(cfg, w, r, step, revising).0)
  {
    hide Safe, Resumable, WriterRecorded, Reserve, Settle, Cancel;
    BudgetSafe(x, s, r, SlotFill, cfg.flatEstimate, None);
    var reserved := Reserve(r, SlotFill, cfg.flatEstimate);
    match LlmReplyAt(w, |r.session.iterations| + 1)
    case LlmFailed =>
      BudgetSafe(x, s, reserved, SlotFill, cfg.flatEstimate, None);
    case Composed(billed, body) =>
      BudgetSafe(x, s, reserved, SlotFill, cfg.flatEstimate, billed);
      RecorderSafe(x, s, Settle(reserved, cfg.flatEstimate, billed), SettledCost(cfg.flatEstimate, billed));
  }

  lemma RecordedSafe(x: Charter, s: Session, r: Run, it: Iteration)
    requires Resumable(x, s) && Safe(x, s, r)
    requires RecordOk(it, |r.session.iterations| + 1, x.key, x.thresholds)
    ensures Safe(x, s, Recorded(r, it))
  {
    hide Resumable, DurableOk;
    RecordExtends(r.session.iterations, it, x.key, x.thresholds);
    StoreSafe(x, s, r.(session := r.session.(iterations := r.session.iterations + [it])), 0);
  }

  lemma AmendedSafe(x: Charter, s: Session, r: Run, it: Iteration, conv: Convergence)
    requires Resumable(x, s) && Safe(x, s, r)
    requires |r.session.iterations| > |s.iterations|
    requires RecordOk(it, |r.session.iterations|, x.key, x.thresholds)
    ensures Safe(x, s, Saved(Amended(r, it)))
    ensures Safe(x, s, FaceSaved(Saved(Amended(r, it).(face := r.face.(convergence := conv)))))
  {
    hide Resumable, DurableOk, RecordOk;
    var r1 := Amended(r, it);
    var r2 := r1.(face := r.face.(convergence := conv));
    StoreSafe(x, s, r1, 0);
    StoreSafe(x, s, r2, 0);
    StoreSafe(x, s, Saved(r2), 0);
  }

  lemma AnnouncedSafe(x: Charter, s: Session, r: Run, it: Iteration, retry: bool)
    requires Safe(x, s, r)
    ensures Safe(x, s, Announced(r, it, retry))
  {
  }

  predicate Fits(x: Charter, c: Context) {
    c.cfg.sessionKey == x.key && c.thresholds == x.thresholds
  }

  lemma ReplySafe(
    x: Charter, s: Session, c: Context, t: Tally, n: nat, estimate: Usd, reply: ProviderReply, more: bool)
    requires Resumable(x, s) && Safe(x, s, t.run) && Fits(x, c) && n == |t.run.session.iterations| + 1
    ensures Safe(x, s, AfterReply(c, t, n, estimate, reply, more).run)
  {
    match reply
    case Refused(billed) =>
      BudgetSafe(x, s, t.run, Generation, estimate, billed);
      var it := FailedIteration(c, n, SettledCost(estimate, billed));
      RecordedSafe(x, s, Settle(t.run, estimate, billed), it);
      hide Safe, Resumable;
      AnnouncedSafe(x, s, Recorded(Settle(t.run, estimate, billed), it), it, more);
    case TransportFailed =>
      BudgetSafe(x, s, t.run, Generation, estimate, None);
      var it := FailedIteration(c, n, 0.0);
      RecordedSafe(x, s, Cancel(t.run, estimate), it);
      hide Safe, Resumable;
      AnnouncedSafe(x, s, Recorded(Cancel(t.run, estimate), it), it, more);
    case Frame(billed, image, kept, check) =>
      BudgetSafe(x, s, t.run, Generation, estimate, billed);
      if kept {
        FrameSafe(x, s, c, t, n, estimate, reply, more);
      }
  }

  lemma FrameSafe(
    x: Charter, s: Session, c: Context, t: Tally, n: nat, estimate: Usd, reply: ProviderReply, more: bool)
    requires Resumable(x, s) && Safe(x, s, t.run) && Fits(x, c) && n == |t.run.session.iterations| + 1
    requires reply.Frame? && reply.kept
    ensures Safe(x, s, AfterFrame(c, t, n, estimate, reply, more).run)
  {
    BudgetSafe(x, s, t.run, Generation, estimate, reply.billed);
    var paid := Settle(t.run, estimate, reply.billed);
    var it := FrameIteration(c, n, SettledCost(estimate, reply.billed));
    RecordedSafe(x, s, paid, it);
    var r := Recorded(paid, it);
    var failed := it.(error := Some(GenerationFailed));
    var similarity := SimilarityOf(reply.check);
    var verdict := Banded(similarity, c.thresholds);
    var measured := it.(similarity := Some(similarity), verdict := Some(verdict));
    var conv := Tracked(r.face.convergence, similarity);
    AmendedSafe(x, s, r, failed, conv);
    AmendedSafe(x, s, r, measured, conv);
    hide Safe, Resumable;
    AnnouncedSafe(x, s, Saved(Amended(r, failed)), failed, more);
    AnnouncedSafe(x, s, FaceSaved(Saved(Amended(r, measured).(face := r.face.(convergence := conv)))),
                  measured, more && verdict != Passed);
  }

  lemma CallingSafe(x: Charter, s: Session, c: Context, w: World, t: Tally)
    requires Resumable(x, s) && Safe(x, s, t.run)
    ensures Safe(x, s, Calling(c, w, t).run)
    ensures Calling(c, w, t).run.session == t.run.session
  {
    BudgetSafe(x, s, t.run, Generation, Price(c, t), None);
    hide Resumable, Grown, DurableOk;
  }

  lemma AttemptSafe(x: Charter, s: Session, c: Context, w: World, t: Tally, attempt: nat)
    requires Resumable(x, s) && Safe(x, s, t.run) && Fits(x, c)
    ensures Safe(x, s, Attempted(c, w, t, attempt).run)
  {
    hide Safe, Resumable, AfterReply, Written, Calling, Reserve;
    WrittenSafe(x, s, c.cfg, w, t.run, c.step, Some(t.body));
    var ready := Prepared(c, w, t, attempt);
    BudgetSafe(x, s, ready.run, Generation, Price(c, ready), None);
    CallingSafe(x, s, c, w, ready);
    var n := |ready.run.session.iterations| + 1;
    ReplySafe(x, s, c, Calling(c, w, ready), n, Price(c, ready), ReplyAt(w, n), attempt < c.MaxAttempts());
  }

  lemma {:induction false} AttemptsSafe(x: Charter, s: Session, c: Context, w: World, t: Tally, attempt: nat)
    requires Resumable(x, s) && Safe(x, s, t.run) && Fits(x, c)
    ensures Safe(x, s, Attempts(c, w, t, attempt).run)
    decreases c.MaxAttempts() - attempt
  {
    hide Safe, Resumable, Attempted;
    if attempt <= c.MaxAttempts() && t.progress.Going? {
      AttemptSafe(x, s, c, w, t, attempt);
      AttemptsSafe(x, s, c, w, Attempted(c, w, t, attempt), attempt + 1);
    }
  }

  lemma StepSafe(x: Charter, c: Context, w: World, r: Run)
    requires Resumable(x, r.session) && Safe(x, r.session, r) && Fits(x, c)
    ensures Safe(x, r.session, StepRun(c, w, r).run)
  {
    hide Safe, Resumable, Written, Attempts;
    WrittenSafe(x, r.session, c.cfg, w, r, c.step, None);
    AttemptsSafe(x, r.session, c, w, Opened(c, w, r), 1);
  }
}
