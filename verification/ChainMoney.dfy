/** The budget counter against the session record, at every point where a run can stop. */
module ChainMoney {
  import opened Schemas
  import opened Money
  import opened BudgetOps
  import opened ChainSpec

  /** What the counter holds beyond the recorded spend of the stored session. */
  function Surplus(d: Durable): int {
    d.counter - RecordMicro(d.session)
  }

  predicate InSync(r: Run) {
    r.durable.session == r.session && r.durable.face == r.face
  }

  /** The micro-dollars an operation put on the counter: a granted estimate or a settled cost. */
  function Amount(op: Op): Option<int> {
    match op
    case Reserved(_, micro, granted) => if granted then Some(micro) else None
    case Settled(micro) => Some(micro)
    case _ => None
  }

  /** Nothing, or exactly one operation's amount. */
  predicate OneAmount(ops: seq<Op>, micro: int) {
    micro == 0 || exists k | 0 <= k < |ops| :: Amount(ops[k]) == Some(micro)
  }

  /** Every store state since entry covers its own record, with nothing or one call's amount on top of `floor`. */
  predicate Covered(r: Run, floor: int) {
    forall i | 0 <= i < |r.trail| :: Surplus(r.trail[i]) >= floor && OneAmount(r.ops, Surplus(r.trail[i]) - floor)
  }

  /** `held` is what an open or unrecorded call has on the counter. */
  predicate Accounted(r: Run, floor: int, held: int) {
    && InSync(r) && r.durable.counter >= held >= 0
    && Surplus(r.durable) == floor + held && OneAmount(r.ops, held)
    && Covered(r, floor)
  }

  /** A store operation, logged or not. */
  lemma StoreAccounts(r: Run, r': Run, floor: int, held: int)
    requires Covered(r, floor) && r'.trail == r.trail + [r'.durable] && r.ops <= r'.ops
    requires InSync(r') && r'.durable.counter >= held >= 0 && Surplus(r'.durable) == floor + held
    requires OneAmount(r'.ops, held)
    ensures Accounted(r', floor, held)
  {
    hide Surplus;
    forall i | 0 <= i < |r.trail| ensures OneAmount(r'.ops, Surplus(r.trail[i]) - floor) {
      MoreOps(r.ops, r'.ops, Surplus(r.trail[i]) - floor);
    }
  }

  lemma MoreOps(ops: seq<Op>, more: seq<Op>, micro: int)
    requires OneAmount(ops, micro) && ops <= more
    ensures OneAmount(more, micro)
  {
    if micro != 0 {
      var k :| 0 <= k < |ops| && Amount(ops[k]) == Some(micro);
      assert Amount(more[k]) == Some(micro);
    }
  }

  lemma LastAmount(ops: seq<Op>, op: Op)
    requires Amount(op).Some?
    ensures OneAmount(ops + [op], Amount(op).value)
  {
    assert (ops + [op])[|ops|] == op;
  }

  lemma RecordWithIteration(s: Session, it: Iteration)
    ensures RecordMicro(s.(iterations := s.iterations + [it])) == RecordMicro(s) + ToMicro(it.cost)
  {
    assert IterationCosts(s.iterations + [it]) == IterationCosts(s.iterations) + [it.cost];
    SumAppend(IterationCosts(s.iterations), it.cost);
  }

  lemma RecordWithCall(s: Session, call: PaidCall)
    ensures RecordMicro(s.(llmCalls := s.llmCalls + [call])) == RecordMicro(s) + ToMicro(call.cost)
  {
    assert CallCosts(s.llmCalls + [call]) == CallCosts(s.llmCalls) + [call.cost];
    SumAppend(CallCosts(s.llmCalls), call.cost);
  }

  lemma RecordAmended(s: Session, it: Iteration)
    requires s.iterations != [] && s.iterations[|s.iterations| - 1].cost == it.cost
    ensures RecordMicro(s.(iterations := s.iterations[|s.iterations| - 1 := it])) == RecordMicro(s)
  {
    assert IterationCosts(s.iterations[|s.iterations| - 1 := it]) == IterationCosts(s.iterations);
  }

  // ----- Store operations -----

  lemma ReserveAccounts(r: Run, kind: PaidCallKind, estimate: Usd, floor: int)
    requires Accounted(r, floor, 0) && Affordable(r, estimate)
    ensures var r' := Reserve(r, kind, estimate);
      Accounted(r', floor, ToMicro(estimate)) && r'.session == r.session && r'.face == r.face
  {
    ToMicroNonNegative(estimate);
    hide ToMicro;
    LastAmount(r.ops, Reserved(kind, ToMicro(estimate), true));
    StoreAccounts(r, Reserve(r, kind, estimate), floor, ToMicro(estimate));
  }

  /** Settling replaces the held estimate by the settled cost; the zero floor never fires. */
  lemma SettleAccounts(r: Run, estimate: Usd, billed: Option<Usd>, floor: int)
    requires Accounted(r, floor, ToMicro(estimate))
    ensures var r' := Settle(r, estimate, billed);
      Accounted(r', floor, ToMicro(SettledCost(estimate, billed))) && r'.session == r.session && r'.face == r.face
  {
    ToMicroNonNegative(SettledCost(estimate, billed));
    hide ToMicro;
    LastAmount(r.ops, Settled(ToMicro(SettledCost(estimate, billed))));
    StoreAccounts(r, Settle(r, estimate, billed), floor, ToMicro(SettledCost(estimate, billed)));
  }

  lemma CancelAccounts(r: Run, estimate: Usd, floor: int)
    requires Accounted(r, floor, ToMicro(estimate))
    ensures var r' := Cancel(r, estimate);
      Accounted(r', floor, 0) && r'.session == r.session && r'.face == r.face
  {
    hide ToMicro;
    StoreAccounts(r, Cancel(r, estimate), floor, 0);
  }

  /** Saving a session that records `cost` more than the stored one. */
  lemma SaveAccounts(r: Run, s: Session, floor: int, held: int, cost: Usd)
    requires Accounted(r, floor, held) && held == ToMicro(cost)
    requires RecordMicro(s) == RecordMicro(r.session) + ToMicro(cost)
    ensures Accounted(Saved(r.(session := s)), floor, 0)
  {
    hide ToMicro, RecordMicro;
    StoreAccounts(r, Saved(r.(session := s)), floor, 0);
  }

  /** Saving a session with the same spend. */
  lemma ResaveAccounts(r: Run, s: Session, floor: int)
    requires Accounted(r, floor, 0) && RecordMicro(s) == RecordMicro(r.session)
    ensures Accounted(Saved(r.(session := s)), floor, 0)
  {
    ToMicroNonNegative(0.0);
    SaveAccounts(r, s, floor, 0, 0.0);
  }

  lemma FaceAccounts(r: Run, face: Face, floor: int)
    requires Accounted(r, floor, 0)
    ensures Accounted(FaceSaved(r.(face := face)), floor, 0)
  {
    StoreAccounts(r, FaceSaved(r.(face := face)), floor, 0);
  }

  /** Logging or telling something without touching the store. */
  lemma QuietAccounts(r: Run, r': Run, floor: int, held: int)
    requires Accounted(r, floor, held) && r.ops <= r'.ops
    requires r'.session == r.session && r'.face == r.face && r'.durable == r.durable && r'.trail == r.trail
    ensures Accounted(r', floor, held)
  {
    hide Surplus;
    MoreOps(r.ops, r'.ops, held);
    forall i | 0 <= i < |r.trail| ensures OneAmount(r'.ops, Surplus(r.trail[i]) - floor) {
      MoreOps(r.ops, r'.ops, Surplus(r.trail[i]) - floor);
    }
  }

  // ----- The writer -----

  /** A writer call leaves nothing on the counter that is not on the record. */
  lemma WrittenAccounts(cfg: Config, w: World, r: Run, step: EditStep, revising: Option<string>, floor: int)
    requires Accounted(r, floor, 0)
    ensures Accounted(Written(cfg, w, r, step, revising).0, floor, 0)
  {
    hide Accounted;
    if cfg.llmWriter {
      var reserved := Reserve(r, SlotFill, cfg.flatEstimate);
      if !Affordable(r, cfg.flatEstimate) {
        QuietAccounts(r, reserved, floor, 0);
      } else {
        ReserveAccounts(r, SlotFill, cfg.flatEstimate, floor);
        hide Reserve, Settle, Cancel, WriterRecorded;
        match LlmReplyAt(w, |r.session.iterations| + 1)
        case LlmFailed =>
          CancelAccounts(reserved, cfg.flatEstimate, floor);
        case Composed(billed, body) =>
          SettleAccounts(reserved, cfg.flatEstimate, billed, floor);
          RecorderAccounts(Settle(reserved, cfg.flatEstimate, billed), SettledCost(cfg.flatEstimate, billed), floor);
      }
    }
  }

  lemma RecorderAccounts(r: Run, cost: Usd, floor: int)
    requires Accounted(r, floor, ToMicro(cost))
    ensures Accounted(WriterRecorded(r, cost), floor, 0)
  {
    ToMicroNonNegative(cost);
    hide Accounted;
    RecordWithCall(r.session, PaidCall(SlotFill, cost));
    if cost > 0.0 {
      SaveAccounts(r, r.session.(llmCalls := r.session.llmCalls + [PaidCall(SlotFill, cost)]), floor, ToMicro(cost),
          cost);
    }
  }

  // ----- One attempt -----

  lemma RecordedAccounts(r: Run, it: Iteration, floor: int)
    requires Accounted(r, floor, ToMicro(it.cost))
    ensures Accounted(Recorded(r, it), floor, 0)
    ensures Recorded(r, it).session.iterations == r.session.iterations + [it]
  {
    hide Accounted;
    RecordWithIteration(r.session, it);
    SaveAccounts(r, r.session.(iterations := r.session.iterations + [it]), floor, ToMicro(it.cost), it.cost);
  }

  lemma AmendedAccounts(r: Run, it: Iteration, floor: int)
    requires Accounted(r, floor, 0)
    requires r.session.iterations != [] && r.session.iterations[|r.session.iterations| - 1].cost == it.cost
    ensures Accounted(Saved(Amended(r, it)), floor, 0)
  {
    hide Accounted;
    RecordAmended(r.session, it);
    ResaveAccounts(r, Amended(r, it).session, floor);
  }

  lemma AnnouncedAccounts(r: Run, it: Iteration, retry: bool, floor: int)
    requires Accounted(r, floor, 0)
    ensures Accounted(Announced(r, it, retry), floor, 0)
  {
    hide Accounted;
    QuietAccounts(r, Announced(r, it, retry), floor, 0);
  }

  /** What a reply leaves on the counter beyond the record: the cost of a paid frame that was lost. */
  function LostCost(estimate: Usd, reply: ProviderReply): int {
    if reply.Frame? && !reply.kept then ToMicro(SettledCost(estimate, reply.billed)) else 0
  }

  /** From a held reservation: the estimate gives way to the recorded cost, unless a paid frame is lost. */
  lemma ReplyAccounts(c: Context, t: Tally, n: nat, estimate: Usd, reply: ProviderReply, more: bool, floor: int)
    requires Accounted(t.run, floor, ToMicro(estimate)) && t.progress.Going?
    ensures var t' := AfterReply(c, t, n, estimate, reply, more);
      && Accounted(t'.run, floor, LostCost(estimate, reply))
      && (t'.progress.Raised? <==> reply.Frame? && !reply.kept)
  {
    hide Accounted, Settle, Cancel, Recorded, Announced;
    match reply
    case Refused(billed) =>
      SettleAccounts(t.run, estimate, billed, floor);
      var it := FailedIteration(c, n, SettledCost(estimate, billed));
      RecordedAccounts(Settle(t.run, estimate, billed), it, floor);
      AnnouncedAccounts(Recorded(Settle(t.run, estimate, billed), it), it, more, floor);
    case TransportFailed =>
      CancelAccounts(t.run, estimate, floor);
      ToMicroNonNegative(0.0);
      var it := FailedIteration(c, n, 0.0);
      RecordedAccounts(Cancel(t.run, estimate), it, floor);
      AnnouncedAccounts(Recorded(Cancel(t.run, estimate), it), it, more, floor);
    case Frame(billed, image, kept, check) =>
      SettleAccounts(t.run, estimate, billed, floor);
      if kept {
        FrameAccounts(c, t, n, estimate, reply, more, floor);
      }
  }

  lemma FrameAccounts(c: Context, t: Tally, n: nat, estimate: Usd, reply: ProviderReply, more: bool, floor: int)
    requires Accounted(t.run, floor, ToMicro(estimate)) && t.progress.Going? && reply.Frame? && reply.kept
    ensures var t' := AfterFrame(c, t, n, estimate, reply, more);
      Accounted(t'.run, floor, 0) && !t'.progress.Raised?
  {
    hide Accounted, Settle;
    SettleAccounts(t.run, estimate, reply.billed, floor);
    var it := FrameIteration(c, n, SettledCost(estimate, reply.billed));
    RecordedAccounts(Settle(t.run, estimate, reply.billed), it, floor);
    var r := Recorded(Settle(t.run, estimate, reply.billed), it);
    hide Recorded;
    if reply.check.CheckCrashed? {
      var failed := it.(error := Some(GenerationFailed));
      AmendedAccounts(r, failed, floor);
      AnnouncedAccounts(Saved(Amended(r, failed)), failed, more, floor);
    } else {
      MeasuredAccounts(c, t.(run := r), it, reply.image, SimilarityOf(reply.check), more, floor);
    }
  }

  lemma MeasuredAccounts(c: Context, t: Tally, it: Iteration, image: Bytes, similarity: real, more: bool, floor: int)
    requires Accounted(t.run, floor, 0) && t.run.session.iterations != [] && it.resultRef.Some?
    requires t.run.session.iterations[|t.run.session.iterations| - 1].cost == it.cost
    ensures var t' := AfterMeasurement(c, t, it, image, similarity, more);
      Accounted(t'.run, floor, 0) && !t'.progress.Raised?
  {
    hide Accounted;
    var verdict := Banded(similarity, c.thresholds);
    var measured := it.(similarity := Some(similarity), verdict := Some(verdict));
    var face := t.run.face.(convergence := Tracked(t.run.face.convergence, similarity));
    AmendedAccounts(t.run, measured, floor);
    var saved := Saved(Amended(t.run, measured));
    FaceAccounts(saved, face, floor);
    assert FaceSaved(saved.(face := face)) == FaceSaved(Saved(Amended(t.run, measured).(face := face)));
    AnnouncedAccounts(FaceSaved(saved.(face := face)), measured, more && verdict != Passed, floor);
  }

  /** What a cycle, a chain or a run leaves beyond its record: nothing unless it raised. */
  predicate Leaves(r: Run, floor: int, lost: int, raised: bool) {
    Accounted(r, floor, lost) && (!raised ==> lost == 0)
  }

  lemma AttemptAccounts(c: Context, w: World, t: Tally, attempt: nat, floor: int) returns (lost: int)
    requires Accounted(t.run, floor, 0) && t.progress.Going?
    ensures var t' := Attempted(c, w, t, attempt); Leaves(t'.run, floor, lost, t'.progress.Raised?)
  {
    hide Accounted, Written, Fired, Assemble;
    lost := 0;
    if attempt > 1 && !c.step.isEnhance {
      WrittenAccounts(c.cfg, w, t.run, c.step, Some(t.body), floor);
    }
    var ready := Prepared(c, w, t, attempt);
    if !ready.progress.Raised? {
      lost := FiredAccounts(c, w, ready, attempt, floor);
    }
  }

  lemma FiredAccounts(c: Context, w: World, t: Tally, attempt: nat, floor: int) returns (lost: int)
    requires Accounted(t.run, floor, 0) && t.progress.Going?
    ensures var t' := Fired(c, w, t, attempt); Leaves(t'.run, floor, lost, t'.progress.Raised?)
  {
    hide Accounted, AfterReply;
    var n := |t.run.session.iterations| + 1;
    var estimate, reply := Price(c, t), ReplyAt(w, n);
    lost := 0;
    if Affordable(t.run, estimate) {
      ReserveAccounts(t.run, Generation, estimate, floor);
      hide Reserve;
      QuietAccounts(Reserve(t.run, Generation, estimate), Calling(c, w, t).run, floor, ToMicro(estimate));
      ReplyAccounts(c, Calling(c, w, t), n, estimate, reply, attempt < c.MaxAttempts(), floor);
      lost := LostCost(estimate, reply);
    } else {
      QuietAccounts(t.run, Reserve(t.run, Generation, estimate), floor, 0);
    }
  }

  lemma {:induction false} AttemptsAccount(c: Context, w: World, t: Tally, attempt: nat, floor: int) returns (lost: int)
    requires Accounted(t.run, floor, 0)
    ensures var t' := Attempts(c, w, t, attempt); Leaves(t'.run, floor, lost, t'.progress.Raised?)
    decreases c.MaxAttempts() - attempt
  {
    hide Accounted, Attempted;
    lost := 0;
    if attempt <= c.MaxAttempts() && t.progress.Going? {
      lost := AttemptAccounts(c, w, t, attempt, floor);
      if Attempted(c, w, t, attempt).progress.Going? {
        lost := AttemptsAccount(c, w, Attempted(c, w, t, attempt), attempt + 1, floor);
      }
    }
  }

  // ----- Steps and the whole run -----

  lemma StepAccounts(c: Context, w: World, r: Run, floor: int) returns (lost: int)
    requires Accounted(r, floor, 0)
    ensures var t := StepRun(c, w, r); Leaves(t.run, floor, lost, t.progress.Raised?)
  {
    hide Accounted, Written, Assemble, Attempts;
    if !c.step.isEnhance {
      WrittenAccounts(c.cfg, w, r, c.step, None, floor);
    }
    lost := AttemptsAccount(c, w, Opened(c, w, r), 1, floor);
  }

  lemma AdvanceAccounts(cfg: Config, th: Thresholds, w: World, ch: Chain, i: nat, floor: int) returns (lost: int)
    requires i < |ch.steps| && Accounted(ch.run, floor, 0) && ch.state.Open?
    ensures var ch' := Advanced(cfg, th, w, ch, i); Leaves(ch'.run, floor, lost, ch'.state.Broken?)
  {
    hide Accounted, StepRun, StepEnded, ContextAt, LocksFor;
    lost := 0;
    match ch.steps[i].status
    case Completed =>
    case Skipped =>
      QuietAccounts(ch.run, Advanced(cfg, th, w, ch, i).run, floor, 0);
    case Pending =>
      var begun := Begun(cfg, ch, i);
      QuietAccounts(ch.run, begun.run, floor, 0);
      var c := ContextAt(cfg, th, begun, i);
      lost := StepAccounts(c, w, begun.run, floor);
      EndAccounts(begun, i, StepRun(c, w, begun.run), floor, lost);
  }

  lemma EndAccounts(ch: Chain, i: nat, t: Tally, floor: int, lost: int)
    requires i < |ch.steps| && Leaves(t.run, floor, lost, t.progress.Raised?)
    ensures var ch' := StepEnded(ch, i, t); Leaves(ch'.run, floor, lost, ch'.state.Broken?)
  {
    hide Accounted, StepCompleted;
    if t.progress.Raised? {
    } else if t.best.None? {
      QuietAccounts(t.run, StepEnded(ch, i, t).run, floor, 0);
    } else {
      CompletionAccounts(ch, i, t, floor);
      CompletionOpen(ch, i, t);
    }
  }

  lemma CompletionOpen(ch: Chain, i: nat, t: Tally)
    requires i < |ch.steps| && t.best.Some?
    ensures !StepCompleted(ch, i, t).state.Broken?
  {
  }

  lemma CompletionAccounts(ch: Chain, i: nat, t: Tally, floor: int)
    requires i < |ch.steps| && t.best.Some? && Accounted(t.run, floor, 0)
    ensures Accounted(StepCompleted(ch, i, t).run, floor, 0)
  {
    hide Accounted, Promoted;
    var best, step := t.best.value, ch.steps[i];
    var steps := ch.steps[i := step.(status := Completed, resultRef := Some(best.resultRef))];
    var session := WithSteps(t.run.session, steps).(best := Promoted(t.run.session.best, step.isEnhance, best));
    ResaveAccounts(t.run, session, floor);
    QuietAccounts(Saved(t.run.(session := session)), StepCompleted(ch, i, t).run, floor, 0);
  }

  lemma {:induction false} ChainAccounts(cfg: Config, th: Thresholds, w: World, ch: Chain, i: nat, floor: int)
    returns (lost: int)
    requires Leaves(ch.run, floor, 0, ch.state.Broken?)
    ensures var ch' := Chained(cfg, th, w, ch, i); Leaves(ch'.run, floor, lost, ch'.state.Broken?)
    decreases |ch.steps| - i
  {
    hide Accounted, Advanced;
    lost := 0;
    if i < |ch.steps| && ch.state.Open? {
      lost := AdvanceAccounts(cfg, th, w, ch, i, floor);
      if Advanced(cfg, th, w, ch, i).state.Open? {
        lost := ChainAccounts(cfg, th, w, Advanced(cfg, th, w, ch, i), i + 1, floor);
      }
    }
  }

  lemma RunAccounts(cfg: Config, w: World, d: Durable) returns (lost: int)
    requires d.session.thresholds.Some? && d.counter >= 0
    ensures Leaves(Drive(cfg, w, d), Surplus(d), lost, Worked(cfg, w, d).state.Broken?)
  {
    hide Accounted, Surplus;
    lost := 0;
    var ch := Worked(cfg, w, d);
    if w.reference.Some? {
      LaunchedAccounts(cfg, d, w.reference.value);
      hide Launched, Chained;
      lost := ChainAccounts(cfg, d.session.thresholds.value, w, Launched(cfg, d, w.reference.value), 0, Surplus(d));
    } else {
      EnteredAccounts(d);
    }
    hide Worked;
    if !ch.state.Broken? {
      FinishAccounts(ch.run, ch.code, Surplus(d));
    }
  }

  /** The counter grows by exactly the micro amounts of the costs a run records. A run that raises, and every store
      state of any run, has at most one call's amount on top: one open estimate or one settled cost. */
  lemma LedgerMatchesRecord(cfg: Config, w: World, d: Durable)
    requires d.session.thresholds.Some? && d.counter >= 0
    ensures var r, raised := Drive(cfg, w, d), Worked(cfg, w, d).state.Broken?;
      && r.durable.session == r.session && r.durable.counter >= 0
      && Surplus(r.durable) >= Surplus(d) && OneAmount(r.ops, Surplus(r.durable) - Surplus(d))
      && (!raised ==> r.durable.counter - d.counter == RecordMicro(r.session) - RecordMicro(d.session))
      && forall i | 0 <= i < |r.trail| ::
           Surplus(r.trail[i]) >= Surplus(d) && OneAmount(r.ops, Surplus(r.trail[i]) - Surplus(d))
  {
    hide Drive, Worked, OneAmount, RecordMicro, Leaves;
    var lost := RunAccounts(cfg, w, d);
    LeavesMeans(Drive(cfg, w, d), Surplus(d), lost, Worked(cfg, w, d).state.Broken?);
  }

  lemma LeavesMeans(r: Run, floor: int, lost: int, raised: bool)
    requires Leaves(r, floor, lost, raised)
    ensures r.durable.session == r.session && r.durable.counter >= 0
    ensures Surplus(r.durable) >= floor && OneAmount(r.ops, Surplus(r.durable) - floor)
    ensures !raised ==> Surplus(r.durable) == floor
    ensures Covered(r, floor)
  {
    hide OneAmount, Surplus;
  }

  lemma NoAmount(ops: seq<Op>)
    ensures OneAmount(ops, 0)
  {
  }

  lemma EnteredAccounts(d: Durable)
    requires d.counter >= 0
    ensures Accounted(Entered(d), Surplus(d), 0)
  {
  }

  lemma LaunchedAccounts(cfg: Config, d: Durable, reference: Bytes)
    requires d.counter >= 0
    ensures Accounted(Launched(cfg, d, reference).run, Surplus(d), 0)
  {
    EnteredAccounts(d);
    hide Accounted, Surplus;
    ResaveAccounts(Entered(d), d.session.(fsmState := Generating), Surplus(d));
  }

  lemma FinishAccounts(r: Run, code: FailureCode, floor: int)
    requires Accounted(r, floor, 0)
    ensures Accounted(Finished(r, code), floor, 0)
  {
    hide Accounted, TerminalEvent;
    var s := r.session.(fsmState := if r.session.best.Some? then Done else Failed);
    ResaveAccounts(r, s, floor);
    QuietAccounts(Saved(r.(session := s)), Finished(r, code), floor, 0);
  }

  /** The reported `cost_spent` never exceeds the counter's dollar value. */
  lemma CostSpentWithinCounter(cfg: Config, w: World, d: Durable)
    requires d.session.thresholds.Some? && d.counter >= 0 && Surplus(d) >= 0
    ensures CostSpent(Drive(cfg, w, d).session) <= FromMicro(Drive(cfg, w, d).durable.counter)
    ensures Surplus(Drive(cfg, w, d).durable) >= 0
  {
    LedgerMatchesRecord(cfg, w, d);
    var s := Drive(cfg, w, d).session;
    SumUsdWithinMicro(IterationCosts(s.iterations));
    SumUsdWithinMicro(CallCosts(s.llmCalls));
    assert FromMicro(RecordMicro(s)) == FromMicro(SumMicro(IterationCosts(s.iterations)))
                                      + FromMicro(SumMicro(CallCosts(s.llmCalls)));
  }
}
