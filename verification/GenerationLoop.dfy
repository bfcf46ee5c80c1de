/** The generation loop over the mutable store, event bus and budget meter
    (src/services/generation_loop.py), proved to compute `ChainSpec.Drive`. */
module GenerationLoop {
  import opened Schemas
  import opened Money
  import opened Text
  import opened LockItems
  import opened BudgetOps
  import opened StateStore
  import opened Budget
  import opened ChainSpec
  import opened ChainDelivery
  import opened ChainRecord

  type Store = InMemoryStateStore<Session, Face, Event>
  type Slot = Reservation<Session, Face, Event>
  type SessionMeter = Meter<Session, Face, Event>

  class Loop {
    const store: Store
    const bus: InMemoryEventBus
    const cfg: Config
    const faceKey: string

    // The session and face a run works on; the store holds copies.
    var session: Session
    var face: Face

    // History since the run was entered.
    ghost var trail: seq<Durable>
    ghost var ops: seq<Op>
    ghost var before: seq<Event>

    constructor (store: Store, bus: InMemoryEventBus, cfg: Config, faceKey: string, session: Session, face: Face)
      ensures this.store == store && this.bus == bus && this.cfg == cfg && this.faceKey == faceKey
    {
      this.store, this.bus, this.cfg, this.faceKey := store, bus, cfg, faceKey;
      this.session, this.face := session, face;
      trail, ops, before := [], [], [];
    }

    ghost predicate Loaded()
      reads this, store, bus
    {
      && cfg.sessionKey in store.sessions && faceKey in store.faces
      && before <= bus.Stream(cfg.sessionKey)
    }

    /** The session and its face are stored, and the session's thresholds are frozen. */
    ghost predicate Ready()
      reads this, store
    {
      && cfg.sessionKey in store.sessions && faceKey in store.faces
      && store.sessions[cfg.sessionKey].thresholds.Some?
    }

    ghost function Held(): Durable
      requires cfg.sessionKey in store.sessions && faceKey in store.faces
      reads this, store
    {
      Durable(store.Used(cfg.sessionKey), store.sessions[cfg.sessionKey], store.faces[faceKey])
    }

    /** The run so far, read off memory, store and stream. */
    ghost function Now(): ChainSpec.Run
      requires Loaded()
      reads this, store, bus
    {
      ChainSpec.Run.Run(session, face, Held(), trail, bus.Stream(cfg.sessionKey)[|before|..], ops)
    }

    ghost predicate Meters(meter: SessionMeter)
      reads this
    {
      && meter.store == store && meter.key == cfg.sessionKey
      && meter.limitMicro == ToMicro(session.budgetLimit)
      && SlotFill in meter.flatEstimates && meter.flatEstimates[SlotFill] == cfg.flatEstimate
    }

    ghost predicate Holds(slot: Slot, estimate: Usd)
      reads slot
    {
      slot.store == store && slot.key == cfg.sessionKey && slot.estimate == estimate && !slot.closed
    }

    // ----- Store, stream and meter -----

    method Checkpoint()
      requires Loaded()
      modifies this`trail, store`sessions
      ensures Loaded() && Now() == Saved(old(Now()))
    {
      store.PutSession(cfg.sessionKey, session);
      trail := trail + [Held()];
    }

    method CheckpointFace()
      requires Loaded()
      modifies this`trail, store`faces
      ensures Loaded() && Now() == FaceSaved(old(Now()))
    {
      store.PutFace(faceKey, face);
      trail := trail + [Held()];
    }

    method Publish(e: Event)
      requires Loaded()
      modifies bus
      ensures Loaded() && Now() == Published(old(Now()), e)
    {
      ghost var stream := bus.Stream(cfg.sessionKey);
      var _ := bus.Publish(cfg.sessionKey, e);
      assert (stream + [e])[|before|..] == stream[|before|..] + [e];
    }

    method ReserveSlot(meter: SessionMeter, kind: PaidCallKind,
        estimate: Option<Usd>) returns (slot: Reservation?<Session, Face, Event>)
      requires Loaded() && Meters(meter)
      requires estimate.None? ==> kind == SlotFill
      modifies this`trail, this`ops, store`budget
      ensures Loaded() && Now() == ChainSpec.Reserve(old(Now()), kind, meter.Amount(kind, estimate))
      ensures slot != null <==> Affordable(old(Now()), meter.Amount(kind, estimate))
      ensures slot != null ==> fresh(slot) && Holds(slot, meter.Amount(kind, estimate))
    {
      slot := meter.Reserve(kind, estimate);
      ops := ops + [Reserved(kind, ToMicro(meter.Amount(kind, estimate)), slot != null)];
      if slot != null {
        trail := trail + [Held()];
      }
    }

    method SettleSlot(slot: Slot, billed: Option<Usd>) returns (cost: Usd)
      requires Loaded() && Holds(slot, slot.estimate)
      modifies this`trail, this`ops, store`budget, slot
      ensures Loaded() && Now() == ChainSpec.Settle(old(Now()), slot.estimate, billed)
      ensures cost == SettledCost(slot.estimate, billed)
    {
      var settled := slot.Settle(billed);
      cost := settled.value;
      ops := ops + [Settled(ToMicro(cost))];
      trail := trail + [Held()];
    }

    method CancelSlot(slot: Slot)
      requires Loaded() && Holds(slot, slot.estimate)
      modifies this`trail, this`ops, store`budget, slot
      ensures Loaded() && Now() == ChainSpec.Cancel(old(Now()), slot.estimate)
    {
      var _ := slot.Cancel();
      ops := ops + [Op.Cancelled(ToMicro(slot.estimate))];
      trail := trail + [Held()];
    }

    // ----- The writer -----

    /** Compose, or revise a previous body; degrades to the deterministic body on any failure. */
    method Write(meter: SessionMeter, w: World, step: EditStep, revising: Option<string>) returns (body: string)
      requires Loaded() && Meters(meter)
      modifies this`session, this`trail, this`ops, store`budget, store`sessions
      ensures Loaded() && Meters(meter) && session.budgetLimit == old(session.budgetLimit)
      ensures (Now(), body) == Written(cfg, w, old(Now()), step, revising)
    {
      body := Fallback(cfg, step, revising);
      if !cfg.llmWriter {
        return;
      }
      var slot := ReserveSlot(meter, SlotFill, None);
      if slot == null {
        return;
      }
      match LlmReplyAt(w, |session.iterations| + 1)
      case LlmFailed =>
        CancelSlot(slot);
      case Composed(billed, composed) =>
        body := composed;
        var cost := SettleSlot(slot, billed);
        RecordWriterCost(cost);
    }

    /** Accounts writer spend, when there was any. */
    method RecordWriterCost(cost: Usd)
      requires Loaded()
      modifies this`session, this`trail, store`sessions
      ensures Loaded() && Now() == WriterRecorded(old(Now()), cost)
      ensures session.budgetLimit == old(session.budgetLimit)
    {
      if cost > 0.0 {
        session := session.(llmCalls := session.llmCalls + [PaidCall(SlotFill, cost)]);
        Checkpoint();
      }
    }

    // ----- One attempt -----

    method Record(it: Iteration)
      requires Loaded()
      modifies this`session, this`trail, store`sessions
      ensures Loaded() && Now() == Recorded(old(Now()), it) && session.budgetLimit == old(session.budgetLimit)
    {
      session := session.(iterations := session.iterations + [it]);
      Checkpoint();
    }

    method Amend(it: Iteration)
      requires Loaded() && session.iterations != []
      modifies this`session
      ensures Loaded() && Now() == Amended(old(Now()), it) && session.budgetLimit == old(session.budgetLimit)
    {
      session := session.(iterations := session.iterations[|session.iterations| - 1 := it]);
    }

    method Announce(it: Iteration, retry: bool)
      requires Loaded()
      modifies bus
      ensures Loaded() && Now() == Announced(old(Now()), it, retry)
    {
      Publish(IterationResultEvent(it.n, it.charged, it.cost, it.similarity, it.verdict, it.resultRef, it.error));
      if retry {
        Publish(RetryEvent(it.n + 1));
      }
    }

    /** The provider answered without an image: billed all the same. */
    method TakeRefusal(c: Context, ghost t: Tally, slot: Slot, n: nat, billed: Option<Usd>, more: bool)
      requires Loaded() && Holds(slot, slot.estimate) && t.run == Now()
      modifies this`session, this`trail, this`ops, store`budget, store`sessions, bus, slot
      ensures Loaded() && session.budgetLimit == old(session.budgetLimit)
      ensures t.(run := Now(), code := GenerationFailed) == AfterRefusal(c, t, n, slot.estimate, billed, more)
    {
      var cost := SettleSlot(slot, billed);
      var it := FailedIteration(c, n, cost);
      Record(it);
      Announce(it, more);
    }

    /** No answer was billed: the slot is refunded. */
    method TakeFailure(c: Context, ghost t: Tally, slot: Slot, n: nat, more: bool)
      requires Loaded() && Holds(slot, slot.estimate) && t.run == Now()
      modifies this`session, this`trail, this`ops, store`budget, store`sessions, bus, slot
      ensures Loaded() && session.budgetLimit == old(session.budgetLimit)
      ensures t.(run := Now(), code := GenerationFailed) == AfterTransportFailure(c, t, n, slot.estimate, more)
    {
      CancelSlot(slot);
      var it := FailedIteration(c, n, 0.0);
      Record(it);
      Announce(it, more);
    }

    /** The provider answered with a frame: settle, record before measuring, measure, keep the best. */
    method TakeFrame(c: Context, ghost t: Tally, slot: Slot, n: nat, reply: ProviderReply, more: bool,
                     best: Option<BestResult>, image: Bytes, code: FailureCode)
      returns (best': Option<BestResult>, image': Bytes, code': FailureCode, progress: Progress)
      requires Loaded() && c.cfg == cfg && reply.Frame?
      requires Holds(slot, slot.estimate)
      requires t == Tally(Now(), best, image, t.body, t.prompt, code, Going)
      modifies this`session, this`face, this`trail, this`ops, store`budget, store`sessions, store`faces, bus, slot
      ensures Loaded() && session.budgetLimit == old(session.budgetLimit)
      ensures Tally(Now(), best', image', t.body, t.prompt, code', progress)
           == AfterFrame(c, t, n, slot.estimate, reply, more)
    {
      best', image', code', progress := best, image, code, Going;
      var cost := SettleSlot(slot, reply.billed);
      if !reply.kept {
        progress := Raised;
        return;
      }
      var it := FrameIteration(c, n, cost);
      Record(it);
      ghost var recorded := Tally(Now(), best, image, t.body, t.prompt, code, Going);
      hide Settle, Recorded;
      if reply.check.CheckCrashed? {
        code' := GenerationFailed;
        NoteCheckCrash(it, more);
      } else {
        best', image', code', progress :=
          Measure(c, recorded, it, reply.image, SimilarityOf(reply.check), more, best, image, code);
      }
    }

    method NoteCheckCrash(it: Iteration, more: bool)
      requires Loaded() && session.iterations != []
      modifies this`session, this`trail, store`sessions, bus
      ensures Loaded() && session.budgetLimit == old(session.budgetLimit)
      ensures var failed := it.(error := Some(GenerationFailed));
        Now() == Announced(Saved(Amended(old(Now()), failed)), failed, more)
    {
      var failed := it.(error := Some(GenerationFailed));
      Amend(failed);
      Checkpoint();
      Announce(failed, more);
    }

    /** Bands the similarity, tracks convergence, keeps the best; passing stops the retries. */
    method Measure(c: Context, ghost t: Tally, it: Iteration, frame: Bytes, similarity: real, more: bool,
                   best: Option<BestResult>, image: Bytes, code: FailureCode)
      returns (best': Option<BestResult>, image': Bytes, code': FailureCode, progress: Progress)
      requires Loaded() && session.iterations != [] && it.resultRef.Some?
      requires t == Tally(Now(), best, image, t.body, t.prompt, code, Going)
      modifies this`session, this`face, this`trail, store`sessions, store`faces, bus
      ensures Loaded() && session.budgetLimit == old(session.budgetLimit)
      ensures Tally(Now(), best', image', t.body, t.prompt, code', progress)
           == AfterMeasurement(c, t, it, frame, similarity, more)
    {
      best', image', code', progress := best, image, code, Going;
      var verdict := Banded(similarity, c.thresholds);
      var measured := it.(similarity := Some(similarity), verdict := Some(verdict));
      Amend(measured);
      face := face.(convergence := Tracked(face.convergence, similarity));
      if KeepsBest(best, similarity, verdict) {
        best' := Some(BestResult(it.n, it.resultRef.value, similarity, verdict, RiskOf(verdict)));
        image' := frame;
      }
      Checkpoint();
      CheckpointFace();
      Announce(measured, more && verdict != Passed);
      if verdict == Passed {
        progress := Delivered;
      } else {
        code' := NoDeliverable;
      }
    }

    /** Reserve the prompt's price; refused means the budget is exhausted, granted means one generator call. */
    method Fire(c: Context, ghost t: Tally, meter: SessionMeter, w: World, attempt: nat, prompt: Prompt,
                best: Option<BestResult>, image: Bytes, code: FailureCode)
      returns (best': Option<BestResult>, image': Bytes, code': FailureCode, progress: Progress)
      requires Loaded() && c.cfg == cfg && Meters(meter)
      requires t == Tally(Now(), best, image, t.body, prompt, code, Going)
      modifies this`session, this`face, this`trail, this`ops, store`budget, store`sessions, store`faces, bus
      ensures Loaded() && Meters(meter) && session.budgetLimit == old(session.budgetLimit)
      ensures Tally(Now(), best', image', t.body, prompt, code', progress) == Fired(c, w, t, attempt)
    {
      hide Affordable, AfterRefusal, AfterTransportFailure, AfterFrame;
      best', image', code', progress := best, image, code, Going;
      var n := |session.iterations| + 1;
      var estimate := Estimate(cfg, prompt, c.Size());
      var slot := ReserveSlot(meter, Generation, Some(estimate));
      if slot == null {
        code', progress := BudgetExhausted, Exhausted;
        return;
      }
      Publish(IterationStartEvent(n));
      var reply := ReplyAt(w, n);
      ops := ops + [Called(n, c.index, c.Size(), prompt, c.working, !reply.TransportFailed?)];
      ghost var calling := Calling(c, w, t);
      assert Now() == calling.run;
      var more := attempt < c.MaxAttempts();
      hide Now, Calling;
      match reply
      case Refused(billed) =>
        code' := GenerationFailed;
        TakeRefusal(c, calling, slot, n, billed, more);
      case TransportFailed =>
        code' := GenerationFailed;
        TakeFailure(c, calling, slot, n, more);
      case Frame(_, _, _, _) =>
        best', image', code', progress := TakeFrame(c, calling, slot, n, reply, more, best, image, code);
    }

    // ----- One step -----

    /** The first body: an enhance step has a fixed one, an edit step asks the writer. */
    method OpenStep(c: Context, meter: SessionMeter, w: World)
      returns (body: string, prompt: Prompt, progress: Progress)
      requires Loaded() && c.cfg == cfg && Meters(meter)
      modifies this`session, this`trail, this`ops, store`budget, store`sessions
      ensures Loaded() && Meters(meter) && session.budgetLimit == old(session.budgetLimit)
      ensures Tally(Now(), None, "", body, prompt, NoDeliverable, progress) == Opened(c, w, old(Now()))
    {
      hide Written, Assemble;
      body, prompt, progress := "", EditPrompt(ENHANCE_BODY, ENHANCE_CHANGE, c.locks), Going;
      if !c.step.isEnhance {
        var composed := Write(meter, w, c.step, None);
        var assembled := Assemble(cfg, c.step, composed, c.locks);
        if assembled.None? {
          progress := Raised;
        } else {
          body, prompt := composed, assembled.value;
        }
      }
    }

    /** Before a retry of an edit step the writer revises the body. */
    method Prepare(c: Context, ghost t: Tally, meter: SessionMeter, w: World, attempt: nat, body: string,
        prompt: Prompt)
      returns (body': string, prompt': Prompt, progress: Progress)
      requires Loaded() && c.cfg == cfg && Meters(meter)
      requires t.run == Now() && t.body == body && t.prompt == prompt && t.progress == Going
      modifies this`session, this`trail, this`ops, store`budget, store`sessions
      ensures Loaded() && Meters(meter) && session.budgetLimit == old(session.budgetLimit)
      ensures progress.Going? || progress.Raised?
      ensures t.(run := Now(), body := body', prompt := prompt', progress := progress) == Prepared(c, w, t, attempt)
    {
      hide Written, Assemble;
      body', prompt', progress := body, prompt, Going;
      if attempt > 1 && !c.step.isEnhance {
        var revised := Write(meter, w, c.step, Some(body));
        var assembled := Assemble(cfg, c.step, revised, c.locks);
        if assembled.None? {
          progress := Raised;
        } else {
          body', prompt' := revised, assembled.value;
        }
      }
    }

    /** The retry cycle of one step: write, reserve, generate, check, keep the best, retry. */
    method RunStep(c: Context, meter: SessionMeter, w: World)
      returns (best: Option<BestResult>, image: Bytes, code: FailureCode, progress: Progress)
      requires Loaded() && c.cfg == cfg && Meters(meter)
      modifies this`session, this`face, this`trail, this`ops, store`budget, store`sessions, store`faces, bus
      ensures Loaded() && session.budgetLimit == old(session.budgetLimit)
      ensures var t := StepRun(c, w, old(Now()));
        && Now() == t.run && best == t.best && image == t.image && code == t.code && progress == t.progress
    {
      hide Opened, Prepared, Fired, Now;
      ghost var goal := StepRun(c, w, Now());
      best, image, code := None, "", NoDeliverable;
      var body, prompt;
      body, prompt, progress := OpenStep(c, meter, w);
      var attempt: nat := 1;
      while attempt <= c.MaxAttempts() && progress.Going?
        invariant Loaded() && Meters(meter) && session.budgetLimit == old(session.budgetLimit)
        invariant goal == Attempts(c, w, Tally(Now(), best, image, body, prompt, code, progress), attempt)
        decreases c.MaxAttempts() - attempt
      {
        ghost var t := Tally(Now(), best, image, body, prompt, code, progress);
        body, prompt, progress := Prepare(c, t, meter, w, attempt, body, prompt);
        ghost var ready := Tally(Now(), best, image, body, prompt, code, progress);
        if progress.Raised? {
          RaisedEnds(c, w, t, attempt);
          return;
        }
        best, image, code, progress := Fire(c, ready, meter, w, attempt, prompt, best, image, code);
        attempt := attempt + 1;
      }
    }

    // ----- The chain -----

    /** The lock enumeration a step begins with. */
    method Locks(ledger: LockLedger, step: EditStep) returns (locks: seq<LockItem>)
      ensures locks == LocksFor(cfg, face.inventory, ledger, step)
    {
      if step.isEnhance {
        locks := EditLockItems(cfg.poisoned, None, [], ledger.applied, [], "");
      } else {
        locks := EditLockItems(cfg.poisoned, face.inventory, cfg.preserve, ledger.applied,
                               ledger.targets + step.targets, Join(ledger.text + [step.instruction]));
      }
    }

    /** The lock ledger derived from the step record: what the completed steps already changed. */
    method AbsorbAll(steps: seq<EditStep>) returns (ledger: LockLedger)
      ensures ledger == AbsorbCompleted(steps)
    {
      ledger := EMPTY_LEDGER;
      for i := 0 to |steps|
        invariant ledger == AbsorbCompleted(steps[..i])
      {
        assert steps[..i + 1][..i] == steps[..i];
        if steps[i].status == Completed {
          ledger := Absorbed(ledger, steps[i]);
        }
      }
      assert steps[..|steps|] == steps;
    }

    /** Takes a completed step onto the record: status, delivered best, checkpoint, event. */
    method Complete(ghost ch: Chain, i: nat, ghost t: Tally, steps: seq<EditStep>, best: BestResult)
      returns (steps': seq<EditStep>)
      requires Loaded() && i < |steps| && ch.steps == steps && t.run == Now() && t.best == Some(best)
      modifies this`session, this`trail, store`sessions, bus
      ensures Loaded() && session.budgetLimit == old(session.budgetLimit)
      ensures Now() == StepCompleted(ch, i, t).run && steps' == StepCompleted(ch, i, t).steps
    {
      var step := steps[i];
      steps' := steps[i := step.(status := Completed, resultRef := Some(best.resultRef))];
      var delivered := Promoted(session.best, step.isEnhance, best);
      session := WithSteps(session, steps').(best := delivered);
      Checkpoint();
      if |steps| > 1 {
        Publish(StepResultEvent(step.n, Completed, Some(best.resultRef), Some(best.similarity)));
      }
    }

    /** One pending step: announce it, lock what earlier steps changed, run its retry cycle. */
    method BeginStep(ghost ch: Chain, i: nat, steps: seq<EditStep>, working: Bytes, ledger: LockLedger,
                     th: Thresholds, meter: SessionMeter, w: World)
      returns (best: Option<BestResult>, image: Bytes, code: FailureCode, progress: Progress)
      requires Loaded() && Meters(meter) && i < |steps|
      requires ch.run == Now() && ch.steps == steps && ch.working == working && ch.ledger == ledger
      modifies this`session, this`face, this`trail, this`ops, store`budget, store`sessions, store`faces, bus
      ensures Loaded() && session.budgetLimit == old(session.budgetLimit)
      ensures var begun := Begun(cfg, ch, i);
        var t := StepRun(ContextAt(cfg, th, begun, i), w, begun.run);
        && Now() == t.run && best == t.best && image == t.image && code == t.code && progress == t.progress
    {
      var step := steps[i];
      if |steps| > 1 {
        Publish(StepStartedEvent(step.n, step.title, step.targets));
      }
      var locks := Locks(ledger, step);
      ghost var begun := Begun(cfg, ch, i);
      var c := Context(cfg, th, step, i, locks, working);
      assert c == ContextAt(cfg, th, begun, i) && Now() == begun.run;
      best, image, code, progress := RunStep(c, meter, w);
    }

    /** One pending step from its announcement to its outcome on the chain. */
    method WorkStep(ghost ch: Chain, i: nat, steps: seq<EditStep>, working: Bytes, ledger: LockLedger,
                    th: Thresholds, meter: SessionMeter, w: World)
      returns (steps': seq<EditStep>, working': Bytes, ledger': LockLedger, code: FailureCode, state: ChainState,
               ghost bests: seq<StepBest>)
      requires Loaded() && Meters(meter) && i < |steps| && steps[i].status == Pending
      requires ch.run == Now() && ch.steps == steps && ch.working == working && ch.ledger == ledger && ch.state == Open
      modifies this`session, this`face, this`trail, this`ops, store`budget, store`sessions, store`faces, bus
      ensures Loaded() && Meters(meter)
      ensures Chain(Now(), steps', working', ledger', code, state, Begun(cfg, ch, i).starts, bests)
           == Advanced(cfg, th, w, ch, i)
    {
      hide Advanced, StepRun, Begun, StepEnded, ContextAt, Now;
      ghost var begun := Begun(cfg, ch, i);
      BegunFields(cfg, ch, i);
      ghost var t := StepRun(ContextAt(cfg, th, begun, i), w, begun.run);
      AdvancedPending(cfg, th, w, ch, i);
      var best, image, progress;
      best, image, code, progress := BeginStep(ch, i, steps, working, ledger, th, meter, w);
      steps', working', ledger', state, bests := Conclude(begun, i, t, steps, working, ledger, best, image, progress);
    }

    /** The step's outcome on the chain: broken, without a deliverable, or completed. */
    method Conclude(ghost begun: Chain, i: nat, ghost t: Tally, steps: seq<EditStep>, working: Bytes,
                    ledger: LockLedger, best: Option<BestResult>, image: Bytes, progress: Progress)
      returns (steps': seq<EditStep>, working': Bytes, ledger': LockLedger, state: ChainState,
               ghost bests: seq<StepBest>)
      requires Loaded() && i < |steps| && begun.steps == steps && begun.working == working
      requires begun.ledger == ledger && begun.state == ChainState.Open
      requires t.run == Now() && t.best == best && t.image == image && t.progress == progress
      modifies this`session, this`trail, store`sessions, bus
      ensures Loaded() && session.budgetLimit == old(session.budgetLimit)
      ensures Chain(Now(), steps', working', ledger', t.code, state, begun.starts, bests) == StepEnded(begun, i, t)
    {
      steps', working', ledger', bests := steps, working, ledger, begun.bests;
      if progress.Raised? {
        state := Broken;
      } else if best.None? {
        if |steps| > 1 {
          Publish(StepResultEvent(steps[i].n, Pending, None, None));
        }
        state := Closed;
      } else {
        CompletedEnds(begun, i, t);
        CompletedFields(begun, i, t);
        hide StepCompleted, StepEnded, Now;
        steps' := Complete(begun, i, t, steps, best.value);
        bests := bests + [StepBest(i, steps[i].isEnhance, best.value)];
        working' := image;
        ledger' := Absorbed(ledger, steps[i]);
        state := if progress.Exhausted? then Closed else Open;
      }
    }

    /** The steps in order, until one finds no deliverable, the budget is exhausted or a step raises. */
    method WorkThrough(w: World, th: Thresholds, meter: SessionMeter, ghost d: Durable)
      returns (code: FailureCode, raised: bool)
      requires Loaded() && Meters(meter) && w.reference.Some? && d.session.thresholds == Some(th)
      requires Now() == Launched(cfg, d, w.reference.value).run
      modifies this`session, this`face, this`trail, this`ops, store`budget, store`sessions, store`faces, bus
      ensures Loaded()
      ensures Now() == Worked(cfg, w, d).run && code == Worked(cfg, w, d).code
      ensures raised <==> Worked(cfg, w, d).state.Broken?
    {
      hide Advanced, Begun, AbsorbCompleted;
      var steps, working := PlanSteps(cfg, session), w.reference.value;
      var ledger := AbsorbAll(steps);
      var state := Open;
      code := NoDeliverable;
      ghost var starts: seq<StepStart>, bests: seq<StepBest> := [], [];
      ghost var goal := Worked(cfg, w, d);
      assert Chain(Now(), steps, working, ledger, code, state, starts, bests)
          == Launched(cfg, d, w.reference.value);
      hide Launched, Worked, Now;
      var i: nat := 0;
      while i < |steps| && state.Open?
        invariant Loaded() && Meters(meter)
        invariant goal == Chained(cfg, th, w, Chain(Now(), steps, working, ledger, code, state, starts, bests), i)
        decreases |steps| - i
      {
        ghost var ch := Chain(Now(), steps, working, ledger, code, state, starts, bests);
        if steps[i].status == Skipped {
          PassedOver(cfg, th, w, ch, i);
          if |steps| > 1 {
            Publish(StepResultEvent(steps[i].n, Skipped, None, None));
          }
        } else if steps[i].status == Completed {
          PassedOver(cfg, th, w, ch, i);
        } else {
          starts := Begun(cfg, ch, i).starts;
          steps, working, ledger, code, state, bests := WorkStep(ch, i, steps, working, ledger, th, meter, w);
        }
        assert Chain(Now(), steps, working, ledger, code, state, starts, bests) == Advanced(cfg, th, w, ch, i);
        i := i + 1;
      }
      raised := state.Broken?;
    }

    /** Deliver the session's best, else fail cleanly. */
    method Finish(code: FailureCode) returns (e: Event)
      requires Loaded()
      modifies this`session, this`trail, store`sessions, bus
      ensures Loaded() && Now() == Finished(old(Now()), code) && e == TerminalEvent(old(session), code)
    {
      e := TerminalEvent(session, code);
      if session.best.Some? {
        session := session.(fsmState := Done);
      } else {
        session := session.(fsmState := Failed);
      }
      Checkpoint();
      Publish(e);
    }

    method Launch(reference: Bytes, ghost d: Durable)
      requires Loaded() && Now() == Entered(d)
      modifies this`session, this`trail, store`sessions
      ensures Loaded() && Now() == Launched(cfg, d, reference).run
      ensures session.budgetLimit == old(session.budgetLimit)
    {
      session := session.(fsmState := Generating);
      Checkpoint();
    }

    /** Drive the chain from the stored session to a terminal event (`None` when the run raises). A session
        or face that is missing, or a session without thresholds, raises before anything happens. */
    method Drive(w: World, flatEstimates: map<PaidCallKind, Usd>) returns (outcome: Option<Event>)
      requires SlotFill in flatEstimates && flatEstimates[SlotFill] == cfg.flatEstimate
      modifies this, store`budget, store`sessions, store`faces, bus
      ensures
        if !old(Ready())
        then outcome.None? && store.budget == old(store.budget) && store.sessions == old(store.sessions)
             && store.faces == old(store.faces) && bus.streams == old(bus.streams)
        else
          var d := old(Held());
          var r := ChainSpec.Drive(cfg, w, d);
          && Loaded()
          && Held() == r.durable && trail == r.trail && ops == r.ops
          && bus.Stream(cfg.sessionKey) == old(bus.Stream(cfg.sessionKey)) + r.stream
          && outcome == Outcome(cfg, w, d)
    {
      hide ChainSpec.Drive, Outcome, Worked;
      outcome := None;
      var storedSession := store.GetSession(cfg.sessionKey);
      var storedFace := store.GetFace(faceKey);
      if storedSession.None? || storedFace.None? || storedSession.value.thresholds.None? {
        return;
      }
      session, face := storedSession.value, storedFace.value;
      trail, ops, before := [], [], bus.Stream(cfg.sessionKey);
      ghost var d := Held();
      assert Now() == Entered(d);
      outcome := DriveLoaded(w, flatEstimates, d);
      assert bus.Stream(cfg.sessionKey) == before + bus.Stream(cfg.sessionKey)[|before|..];
    }

    /** Once per key: a recorded outcome is replayed without touching money, sessions, faces or streams; a raised run
        records nothing. `rival` is the world of a concurrent call that also found no record and ran its own operation
        between this one's and its put: with all its own effects on store and stream. If it recorded an outcome, that
        one wins. */
    method Run(w: World, flatEstimates: map<PaidCallKind, Usd>, idemKey: string, rival: Option<World>)
      returns (result: Option<Event>, replayed: bool)
      requires SlotFill in flatEstimates && flatEstimates[SlotFill] == cfg.flatEstimate
      modifies this, store`budget, store`sessions, store`faces, store`idem, bus
      ensures idemKey in old(store.idem) ==>
        && result == Some(old(store.idem)[idemKey]) && replayed
        && store.budget == old(store.budget) && store.sessions == old(store.sessions)
        && store.faces == old(store.faces) && store.idem == old(store.idem) && bus.streams == old(bus.streams)
      ensures idemKey !in old(store.idem) && result.None? ==> store.idem == old(store.idem)
      ensures idemKey !in old(store.idem) && old(Ready()) ==>
        var d := old(Held());
        var own, stream := Outcome(cfg, w, d), ChainSpec.Drive(cfg, w, d).stream;
        var raced := rival.Some? && own.Some?;
        var after := Driven(cfg, w, d);
        && cfg.sessionKey in store.sessions && faceKey in store.faces && after.session.thresholds.Some?
        && Held() == (if raced then Driven(cfg, rival.value, after) else after)
        && bus.Stream(cfg.sessionKey) == old(bus.Stream(cfg.sessionKey)) + stream
             + (if raced then ChainSpec.Drive(cfg, rival.value, after).stream else [])
        && (own.None? ==> result.None?)
        && (own.Some? ==>
              var theirs := if rival.Some? then Outcome(cfg, rival.value, after) else None;
              && result == (if theirs.Some? then theirs else own) && (replayed <==> theirs.Some?)
              && store.idem == old(store.idem)[idemKey := result.value])
    {
      hide ChainSpec.Drive, Outcome, Worked;
      var cached := store.IdemGet(idemKey);
      if cached.Some? {
        return cached, true;
      }
      ghost var ready := Ready();
      if ready {
        RunKeepsTerms(cfg, w, Held());
      }
      var own := Drive(w, flatEstimates);
      if own.None? {
        return None, false;
      }
      if rival.Some? {
        RivalRun(rival.value, flatEstimates, idemKey);
      }
      var stored := store.IdemPut(idemKey, own.value);
      if stored {
        return own, false;
      }
      result := store.IdemGet(idemKey);
      replayed := true;
    }

    /** A concurrent caller's operation and put, from the store as it is. */
    method RivalRun(w: World, flatEstimates: map<PaidCallKind, Usd>, idemKey: string)
      requires SlotFill in flatEstimates && flatEstimates[SlotFill] == cfg.flatEstimate
      requires Ready() && idemKey !in store.idem
      modifies this, store`budget, store`sessions, store`faces, store`idem, bus
      ensures var d := old(Held());
        var theirs := Outcome(cfg, w, d);
        && cfg.sessionKey in store.sessions && faceKey in store.faces && Held() == Driven(cfg, w, d)
        && bus.Stream(cfg.sessionKey) == old(bus.Stream(cfg.sessionKey)) + ChainSpec.Drive(cfg, w, d).stream
        && store.idem == if theirs.Some? then old(store.idem)[idemKey := theirs.value] else old(store.idem)
    {
      hide ChainSpec.Drive, Outcome, Worked;
      var theirs := Drive(w, flatEstimates);
      if theirs.Some? {
        var _ := store.IdemPut(idemKey, theirs.value);
      }
    }

    /** The run of a loaded session: through its steps, then one terminal event unless it raised. */
    method DriveLoaded(w: World, flatEstimates: map<PaidCallKind, Usd>, ghost d: Durable)
      returns (outcome: Option<Event>)
      requires SlotFill in flatEstimates && flatEstimates[SlotFill] == cfg.flatEstimate
      requires Loaded() && Now() == Entered(d) && session.thresholds.Some?
      modifies this`session, this`face, this`trail, this`ops, store`budget, store`sessions, store`faces, bus
      ensures Loaded()
      ensures Now() == ChainSpec.Drive(cfg, w, d) && outcome == Outcome(cfg, w, d)
    {
      assert d.session == session;
      hide Now, Finished, TerminalEvent;
      outcome := None;
      var th := session.thresholds.value;
      var code := ReferenceMissing;
      var raised := false;
      if w.reference.Some? {
        var meter := new Meter(store, cfg.sessionKey, session.budgetLimit, flatEstimates);
        Launch(w.reference.value, d);
        hide Worked, Launched;
        code, raised := WorkThrough(w, th, meter, d);
      }
      if !raised {
        var e := Finish(code);
        outcome := Some(e);
      }
    }
  }

  /** What a run leaves in the store. */
  function Driven(cfg: Config, w: World, d: Durable): Durable
    requires d.session.thresholds.Some?
  {
    ChainSpec.Drive(cfg, w, d).durable
  }

  /** What a run reports: nothing when it raised, else its terminal event. */
  function Outcome(cfg: Config, w: World, d: Durable): Option<Event>
    requires d.session.thresholds.Some?
  {
    var ch := Worked(cfg, w, d);
    if ch.state.Broken? then None else Some(TerminalEvent(ch.run.session, ch.code))
  }

  /** A poisoned revision ends the cycle where it stands. */
  lemma RaisedEnds(c: Context, w: World, t: Tally, attempt: nat)
    requires t.progress.Going? && attempt <= c.MaxAttempts() && Prepared(c, w, t, attempt).progress.Raised?
    ensures Attempts(c, w, t, attempt) == Prepared(c, w, t, attempt)
  {
    hide Prepared, Fired;
  }

  /** A step already completed or skipped changes nothing but, when skipped, the stream. */
  lemma PassedOver(cfg: Config, th: Thresholds, w: World, ch: Chain, i: nat)
    requires i < |ch.steps| && ch.steps[i].status != Pending
    ensures Advanced(cfg, th, w, ch, i) ==
      if ch.steps[i].status == Skipped && |ch.steps| > 1
      then ch.(run := Published(ch.run, StepResultEvent(ch.steps[i].n, Skipped, None, None)))
      else ch
  {
    hide StepRun, StepEnded, Begun;
  }
}
