/** Reservation discipline of a run: what is reserved, called, settled and cancelled, and in which order. */
module ChainOps {
  import opened Schemas
  import opened Money
  import opened BudgetOps
  import opened ChainSpec

  // ----- The discipline, as an automaton over the operations -----

  datatype Desk =
    | Idle
    | Holding(kind: PaidCallKind, micro: int)
    | AwaitingSettle(owed: int)
    | AwaitingCancel(micro: int)
    | Refusing                 // a generation was refused: nothing may follow
    | Misused

  /** What a generator call costs: the billed amount rounded up, else what its reservation held. */
  function Owed(reply: ProviderReply, held: int): int
    requires !reply.TransportFailed?
  {
    if reply.billed.Some? then ToMicro(reply.billed.value) else held
  }

  function Next(w: World, desk: Desk, op: Op): Desk {
    match (desk, op)
    case (Idle, Reserved(kind, micro, granted)) =>
      if granted then Holding(kind, micro) else if kind == Generation then Refusing else Idle
    case (Holding(kind, micro), Called(attempt, _, _, _, _, replied)) =>
      if kind != Generation || replied == ReplyAt(w, attempt).TransportFailed? then Misused
      else if replied then AwaitingSettle(Owed(ReplyAt(w, attempt), micro))
      else AwaitingCancel(micro)
    case (Holding(kind, micro), Settled(_)) => if kind == Generation then Misused else Idle
    case (Holding(kind, micro), Cancelled(refund)) => if kind == Generation || refund != micro then Misused else Idle
    case (AwaitingSettle(owed), Settled(micro)) => if micro == owed then Idle else Misused
    case (AwaitingCancel(micro), Cancelled(refund)) => if refund == micro then Idle else Misused
    case _ => Misused
  }

  function DeskAfter(w: World, ops: seq<Op>): Desk {
    if ops == [] then Idle else Next(w, DeskAfter(w, ops[..|ops| - 1]), ops[|ops| - 1])
  }

  lemma DeskAppend(w: World, ops: seq<Op>, op: Op)
    ensures DeskAfter(w, ops + [op]) == Next(w, DeskAfter(w, ops), op)
  {
    assert (ops + [op])[..|ops|] == ops;
  }

  lemma {:induction false} PrefixUsedWell(w: World, ops: seq<Op>, k: nat)
    requires k <= |ops| && !DeskAfter(w, ops).Misused?
    ensures !DeskAfter(w, ops[..k]).Misused?
  {
    if k == |ops| {
      assert ops[..k] == ops;
    } else {
      PrefixUsedWell(w, ops[..|ops| - 1], k);
      assert ops[..|ops| - 1][..k] == ops[..k];
    }
  }

  /** The close attempt `n` owes for a reservation of `held`: its settlement at the billed cost, else the refund. */
  function CloseAt(w: World, n: nat, held: int): Op {
    var reply := w.provider(n);
    if reply.TransportFailed? then Op.Cancelled(held) else Settled(Owed(reply, held))
  }

  /** The discipline spelled out: each generator call directly follows its own granted reservation and is directly
      followed by the close its reply calls for, to the micro-dollar; and nothing follows a refused generation. */
  lemma DisciplineMeans(w: World, ops: seq<Op>, i: nat)
    requires i < |ops| && (DeskAfter(w, ops).Idle? || DeskAfter(w, ops).Refusing?)
    ensures ops[i].Called? ==>
      && i > 0 && ops[i - 1].Reserved? && ops[i - 1].kind == Generation && ops[i - 1].granted
      && i + 1 < |ops|
      && ops[i + 1] == CloseAt(w, ops[i].attempt, ops[i - 1].micro)
    ensures ops[i].Reserved? && ops[i].kind == Generation && !ops[i].granted ==> i + 1 == |ops|
  {
    if ops[i].Called? {
      hide DeskAfter, Next;
      CallReserved(w, ops, i);
      CallClosed(w, ops, i);
    } else if ops[i].Reserved? {
      DeskBefore(w, ops, i);
      if i + 1 < |ops| {
        DeskBefore(w, ops, i + 1);
      }
    }
  }

  lemma CallReserved(w: World, ops: seq<Op>, i: nat)
    requires i < |ops| && ops[i].Called? && !DeskAfter(w, ops).Misused?
    ensures i > 0 && ops[i - 1].Reserved? && ops[i - 1].kind == Generation && ops[i - 1].granted
    ensures DeskAfter(w, ops[..i]) == Holding(Generation, ops[i - 1].micro)
  {
    DeskBefore(w, ops, i);
    assert ops[..0] == [];
    if i > 0 {
      DeskBefore(w, ops, i - 1);
    }
    hide DeskAfter;
    assert DeskAfter(w, []) == Idle by { DeskOfNothing(w); }
  }

  lemma DeskOfNothing(w: World)
    ensures DeskAfter(w, []) == Idle
  {
  }

  lemma CallClosed(w: World, ops: seq<Op>, i: nat)
    requires 0 < i < |ops| && ops[i].Called? && (DeskAfter(w, ops).Idle? || DeskAfter(w, ops).Refusing?)
    requires ops[i - 1].Reserved?
    requires DeskAfter(w, ops[..i]) == Holding(Generation, ops[i - 1].micro)
    ensures i + 1 < |ops|
    ensures ops[i + 1] == CloseAt(w, ops[i].attempt, ops[i - 1].micro)
  {
    hide DeskAfter;
    DeskBefore(w, ops, i);
    assert ops[..|ops|] == ops;
    if i + 1 < |ops| {
      DeskBefore(w, ops, i + 1);
    }
  }

  lemma DeskBefore(w: World, ops: seq<Op>, i: nat)
    requires i < |ops| && !DeskAfter(w, ops).Misused?
    ensures DeskAfter(w, ops[..i + 1]) == Next(w, DeskAfter(w, ops[..i]), ops[i])
    ensures !DeskAfter(w, ops[..i]).Misused? && !DeskAfter(w, ops[..i + 1]).Misused?
  {
    PrefixUsedWell(w, ops, i);
    PrefixUsedWell(w, ops, i + 1);
    DeskAppend(w, ops[..i], ops[i]);
    assert ops[..i + 1] == ops[..i] + [ops[i]];
  }

  // ----- Calls belong to their step -----

  /** A generator call of a step edits the step's working image, at its size; an edit prompt carries the
      step's locks. */
  predicate CallOf(c: Context, op: Op) {
    op.Called? ==>
      && op.stepIndex == c.index && op.image == c.working && op.size == c.Size()
      && (op.prompt.EditPrompt? ==> op.prompt.locks == c.locks)
  }

  predicate CallsOf(c: Context, ops: seq<Op>, from: nat) {
    forall i | from <= i < |ops| :: CallOf(c, ops[i])
  }

  /** `r` has the operations of `r0` and more, all of them calls of `c` or budget operations. */
  predicate Extends(c: Context, r0: Run, r: Run) {
    r0.ops <= r.ops && CallsOf(c, r.ops, |r0.ops|)
  }

  lemma LoggedExtends(c: Context, r0: Run, r: Run, op: Op)
    requires Extends(c, r0, r) && CallOf(c, op)
    ensures Extends(c, r0, Logged(r, op))
  {
  }

  /** A writer call logs a reservation and, when granted, its close. */
  lemma WrittenOps(cfg: Config, w: World, r: Run, step: EditStep, revising: Option<string>) returns (close: Op)
    ensures var r' := Written(cfg, w, r, step, revising).0;
      var granted, micro := Affordable(r, cfg.flatEstimate), ToMicro(cfg.flatEstimate);
      && r'.ops == (if !cfg.llmWriter then r.ops
                    else if !granted then r.ops + [Reserved(SlotFill, micro, false)]
                    else r.ops + [Reserved(SlotFill, micro, true)] + [close])
      && (close.Settled? || close == Op.Cancelled(micro))
  {
    hide ToMicro, Affordable;
    var reply := LlmReplyAt(w, |r.session.iterations| + 1);
    close := if reply.Composed? then Settled(ToMicro(SettledCost(cfg.flatEstimate, reply.billed)))
             else Op.Cancelled(ToMicro(cfg.flatEstimate));
  }

  lemma WrittenKeepsDesk(c: Context, w: World, r0: Run, r: Run, revising: Option<string>)
    requires DeskAfter(w, r.ops).Idle? && Extends(c, r0, r)
    ensures var r' := Written(c.cfg, w, r, c.step, revising).0;
      DeskAfter(w, r'.ops).Idle? && Extends(c, r0, r')
  {
    var close := WrittenOps(c.cfg, w, r, c.step, revising);
    var reserved := Reserved(SlotFill, ToMicro(c.cfg.flatEstimate), Affordable(r, c.cfg.flatEstimate));
    DeskAppend(w, r.ops, reserved);
    DeskAppend(w, r.ops + [reserved], close);
    hide Written, DeskAfter, ToMicro, Affordable;
    var r' := Written(c.cfg, w, r, c.step, revising).0;
    LoggedExtends(c, r0, r, reserved);
    LoggedExtends(c, r0, Logged(r, reserved), close);
    hide Extends;
    if c.cfg.llmWriter {
      OpsOnly(c, r0, if reserved.granted then Logged(Logged(r, reserved), close) else Logged(r, reserved), r');
    } else {
      OpsOnly(c, r0, r, r');
    }
  }

  lemma OpsOnly(c: Context, r0: Run, r: Run, r': Run)
    requires Extends(c, r0, r) && r'.ops == r.ops
    ensures Extends(c, r0, r')
  {
  }

  /** After the call: one close, fitting the reply, and the desk is idle again. */
  lemma ReplyCloses(w: World, c: Context, r0: Run, t: Tally, n: nat, estimate: Usd, reply: ProviderReply, more: bool)
    requires Extends(c, r0, t.run)
    requires DeskAfter(w, t.run.ops) == if reply.TransportFailed? then AwaitingCancel(ToMicro(estimate))
                                       else AwaitingSettle(Owed(reply, ToMicro(estimate)))
    ensures var t' := AfterReply(c, t, n, estimate, reply, more);
      DeskAfter(w, t'.run.ops).Idle? && Extends(c, r0, t'.run)
      && (t'.progress == t.progress || t'.progress.Delivered? || t'.progress.Raised? || t'.progress.Going?)
      && t'.prompt == t.prompt
  {
    var op := CloseOf(estimate, reply);
    DeskAppend(w, t.run.ops, op);
    LoggedExtends(c, r0, t.run, op);
    ReplyOps(c, t, n, estimate, reply, more);
    hide DeskAfter, Extends, AfterReply, ToMicro;
    OpsOnly(c, r0, Logged(t.run, op), AfterReply(c, t, n, estimate, reply, more).run);
  }

  /** The close of a generator call: a settlement when the provider replied, else the refund. */
  function CloseOf(estimate: Usd, reply: ProviderReply): Op {
    if reply.TransportFailed? then Op.Cancelled(ToMicro(estimate))
    else Settled(ToMicro(SettledCost(estimate, reply.billed)))
  }

  lemma ReplyOps(c: Context, t: Tally, n: nat, estimate: Usd, reply: ProviderReply, more: bool)
    ensures var t' := AfterReply(c, t, n, estimate, reply, more);
      && t'.run.ops == t.run.ops + [CloseOf(estimate, reply)] && t'.prompt == t.prompt
      && (t'.progress == t.progress || t'.progress.Delivered? || t'.progress.Raised? || t'.progress.Going?)
  {
    hide ToMicro, Banded, KeepsBest, Tracked, SettledCounter;
  }

  predicate CycleDesk(c: Context, w: World, r0: Run, t: Tally) {
    && Extends(c, r0, t.run)
    && (t.prompt.EditPrompt? ==> t.prompt.locks == c.locks)
    && (if t.progress.Exhausted? then DeskAfter(w, t.run.ops).Refusing? else DeskAfter(w, t.run.ops).Idle?)
  }

  lemma FiredKeepsDesk(c: Context, w: World, r0: Run, t: Tally, attempt: nat)
    requires CycleDesk(c, w, r0, t) && t.progress.Going?
    ensures CycleDesk(c, w, r0, Fired(c, w, t, attempt))
  {
    var n := |t.run.session.iterations| + 1;
    var estimate, reply := Price(c, t), ReplyAt(w, n);
    var reserved := Reserved(Generation, ToMicro(estimate), Affordable(t.run, estimate));
    DeskAppend(w, t.run.ops, reserved);
    LoggedExtends(c, r0, t.run, reserved);
    if Affordable(t.run, estimate) {
      var called := Called(n, c.index, c.Size(), t.prompt, c.working, !reply.TransportFailed?);
      DeskAppend(w, t.run.ops + [reserved], called);
      LoggedExtends(c, r0, Logged(t.run, reserved), called);
      var calling := Calling(c, w, t);
      assert calling.run.ops == (t.run.ops + [reserved]) + [called];
      hide DeskAfter, Extends, AfterReply;
      OpsOnly(c, r0, Logged(Logged(t.run, reserved), called), calling.run);
      ReplyCloses(w, c, r0, calling, n, estimate, reply, attempt < c.MaxAttempts());
    } else {
      OpsOnly(c, r0, Logged(t.run, reserved), Fired(c, w, t, attempt).run);
    }
  }

  lemma {:induction false} AttemptsKeepDesk(c: Context, w: World, r0: Run, t: Tally, attempt: nat)
    requires CycleDesk(c, w, r0, t)
    ensures CycleDesk(c, w, r0, Attempts(c, w, t, attempt))
    decreases c.MaxAttempts() - attempt
  {
    hide Fired, CycleDesk, Prepared;
    if attempt <= c.MaxAttempts() && t.progress.Going? {
      PreparedKeepsDesk(c, w, r0, t, attempt);
      var ready := Prepared(c, w, t, attempt);
      if !ready.progress.Raised? {
        FiredKeepsDesk(c, w, r0, ready, attempt);
      }
      AttemptsKeepDesk(c, w, r0, Attempted(c, w, t, attempt), attempt + 1);
    }
  }

  lemma PreparedKeepsDesk(c: Context, w: World, r0: Run, t: Tally, attempt: nat)
    requires CycleDesk(c, w, r0, t) && t.progress.Going?
    ensures var t' := Prepared(c, w, t, attempt);
      CycleDesk(c, w, r0, t') && (t'.progress.Going? || t'.progress.Raised?)
  {
    hide Written, DeskAfter, Extends;
    WrittenKeepsDesk(c, w, r0, t.run, Some(t.body));
  }

  lemma StepKeepsDesk(c: Context, w: World, r: Run)
    requires DeskAfter(w, r.ops).Idle?
    ensures CycleDesk(c, w, r, StepRun(c, w, r))
  {
    assert Extends(c, r, r);
    hide Written, DeskAfter, Extends, Attempts;
    WrittenKeepsDesk(c, w, r, r, None);
    AttemptsKeepDesk(c, w, r, Opened(c, w, r), 1);
  }

  // ----- The whole run -----

  /** Each call of the run belongs to a step the run began, and edits that step's working image. */
  predicate CallFromStart(starts: seq<StepStart>, op: Op) {
    op.Called? ==>
      exists k | 0 <= k < |starts| ::
        && starts[k].index == op.stepIndex && starts[k].working == op.image
        && (op.prompt.EditPrompt? ==> op.prompt.locks == starts[k].locks)
  }

  predicate ChainDesk(w: World, ch: Chain) {
    && (forall i | 0 <= i < |ch.run.ops| :: CallFromStart(ch.starts, ch.run.ops[i]))
    && (DeskAfter(w, ch.run.ops).Idle? || (DeskAfter(w, ch.run.ops).Refusing? && !ch.state.Open?))
  }

  lemma AdvanceKeepsDesk(cfg: Config, th: Thresholds, w: World, ch: Chain, i: nat)
    requires i < |ch.steps| && ch.state.Open? && ChainDesk(w, ch)
    ensures ChainDesk(w, Advanced(cfg, th, w, ch, i))
  {
    if ch.steps[i].status.Pending? {
      var begun := Begun(cfg, ch, i);
      var c := ContextAt(cfg, th, begun, i);
      hide StepRun, DeskAfter;
      StepKeepsDesk(c, w, begun.run);
      var t, ch' := StepRun(c, w, begun.run), Advanced(cfg, th, w, ch, i);
      assert ch'.starts == ch.starts + [begun.starts[|ch.starts|]] && ch'.run.ops == t.run.ops;
      CallsFromStarts(w, c, ch, begun.starts[|ch.starts|], t);
    }
  }

  lemma CallsFromStarts(w: World, c: Context, ch: Chain, start: StepStart, t: Tally)
    requires ChainDesk(w, ch) && ch.run.ops <= t.run.ops && CallsOf(c, t.run.ops, |ch.run.ops|)
    requires start.index == c.index && start.working == c.working && start.locks == c.locks
    ensures forall i | 0 <= i < |t.run.ops| :: CallFromStart(ch.starts + [start], t.run.ops[i])
  {
    var starts := ch.starts + [start];
    forall i | 0 <= i < |t.run.ops|
      ensures CallFromStart(starts, t.run.ops[i])
    {
      if i < |ch.run.ops| {
        var op := ch.run.ops[i];
        assert op == t.run.ops[i] && CallFromStart(ch.starts, op);
        if op.Called? {
          var k :| 0 <= k < |ch.starts| && ch.starts[k].index == op.stepIndex && ch.starts[k].working == op.image
            && (op.prompt.EditPrompt? ==> op.prompt.locks == ch.starts[k].locks);
          assert starts[k] == ch.starts[k];
        }
      } else {
        assert CallOf(c, t.run.ops[i]);
        assert starts[|ch.starts|] == start;
      }
    }
  }

  lemma {:induction false} ChainKeepsDesk(cfg: Config, th: Thresholds, w: World, ch: Chain, i: nat)
    requires ChainDesk(w, ch)
    ensures ChainDesk(w, Chained(cfg, th, w, ch, i))
    decreases |ch.steps| - i
  {
    hide ChainDesk, Advanced;
    if i < |ch.steps| && ch.state.Open? {
      AdvanceKeepsDesk(cfg, th, w, ch, i);
      ChainKeepsDesk(cfg, th, w, Advanced(cfg, th, w, ch, i), i + 1);
    }
  }

  /** Reservation discipline of every run, and every generator call edits the image, under the locks, its
      step began with. */
  lemma RunKeepsDiscipline(cfg: Config, w: World, d: Durable)
    requires d.session.thresholds.Some?
    ensures var ops, starts := Drive(cfg, w, d).ops, Worked(cfg, w, d).starts;
      && (DeskAfter(w, ops).Idle? || DeskAfter(w, ops).Refusing?)
      && forall i | 0 <= i < |ops| :: CallFromStart(starts, ops[i])
  {
    if w.reference.Some? {
      var launched := Launched(cfg, d, w.reference.value);
      assert ChainDesk(w, launched);
      ChainKeepsDesk(cfg, d.session.thresholds.value, w, launched, 0);
      hide Launched, Chained;
    }
  }

  /** So in every run each generator call is preceded by its own granted reservation and followed by its close, and
      nothing follows a refused generation. */
  lemma EveryCallReservedAndClosed(cfg: Config, w: World, d: Durable, i: nat)
    requires d.session.thresholds.Some? && i < |Drive(cfg, w, d).ops|
    ensures var ops := Drive(cfg, w, d).ops;
      && (ops[i].Called? ==>
            && i > 0 && ops[i - 1].Reserved? && ops[i - 1].kind == Generation && ops[i - 1].granted
            && i + 1 < |ops|
            && ops[i + 1] == CloseAt(w, ops[i].attempt, ops[i - 1].micro))
      && (ops[i].Reserved? && ops[i].kind == Generation && !ops[i].granted ==> i + 1 == |ops|)
  {
    RunKeepsDiscipline(cfg, w, d);
    hide Drive, Worked, DeskAfter;
    DisciplineMeans(w, Drive(cfg, w, d).ops, i);
  }
}
