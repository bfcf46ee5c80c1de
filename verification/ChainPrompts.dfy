/** What a run sends to the generator: for every call the size, the price, the change, the locks and the body, told from
    the plan and from the run's own log (src/services/generation_loop.py, src/services/prompt_builder.py). */
module ChainPrompts {
  import opened Schemas
  import opened Money
  import opened Text
  import opened LockItems
  import opened BudgetOps
  import opened ChainSpec
  import opened ChainRecord
  import opened ChainOps

  // ----- Reading the log -----

  function Calls(ops: seq<Op>): nat {
    if ops == [] then 0 else Calls(ops[..|ops| - 1]) + (if ops[|ops| - 1].Called? then 1 else 0)
  }

  /** The last call for step `index` before position `i` of the log. */
  function PriorCall(ops: seq<Op>, i: nat, index: nat): (j: Option<nat>)
    requires i <= |ops|
    ensures j.Some? ==> j.value < i && ops[j.value].Called? && ops[j.value].stepIndex == index
  {
    if i == 0 then None
    else if ops[i - 1].Called? && ops[i - 1].stepIndex == index then Some(i - 1)
    else PriorCall(ops, i - 1, index)
  }

  /** The log up to `i` ends in a writer call that was granted and settled: the writer composed a body. */
  predicate JustComposed(ops: seq<Op>, i: nat)
    requires i <= |ops|
  {
    i >= 2 && ops[i - 2].Reserved? && ops[i - 2].kind == SlotFill && ops[i - 2].granted && ops[i - 1].Settled?
  }

  function ComposedBody(reply: LlmReply): string {
    if reply.Composed? then reply.body else ""
  }

  /** The body of attempt number `n` of a step, when the log up to `i` precedes its reservation: what the writer just
      composed, else the step's template on the first attempt and the emphasized previous body on a later one. */
  function Draft(cfg: Config, w: World, step: EditStep, index: nat, ops: seq<Op>, i: nat, n: nat): string
    requires i <= |ops|
    decreases i
  {
    if JustComposed(ops, i) then ComposedBody(w.writer(n))
    else
      var prior := PriorCall(ops, i, index);
      if prior.None? then cfg.template(step)
      else cfg.emphasize(CallDraft(cfg, w, step, index, ops, prior.value))
  }

  /** The body behind the call at position `j`, which follows its own reservation. */
  function CallDraft(cfg: Config, w: World, step: EditStep, index: nat, ops: seq<Op>, j: nat): string
    requires j < |ops| && ops[j].Called?
    decreases j, 1
  {
    if j == 0 then "" else Draft(cfg, w, step, index, ops, j - 1, ops[j].attempt)
  }

  // ----- What a call must say -----

  /** The prompt of a step with body `raw`. A body the guards reject is never sent. An enhance step sends its fixed
      prompt under the step's locks. An edit step sends its instruction as the only change, under the step's locks,
      exactly when it has an instruction the guards accept; otherwise the plain prompt. */
  predicate PromptSays(cfg: Config, step: EditStep, locks: seq<LockItem>, prompt: Prompt, raw: string) {
    if step.isEnhance then prompt == EditPrompt(ENHANCE_BODY, ENHANCE_CHANGE, locks)
    else
      && !cfg.injected(raw) && prompt.body == Strip(raw)
      && (prompt.EditPrompt? <==> Strip(step.instruction) != "" && !cfg.injected(Strip(step.instruction)))
      && (prompt.EditPrompt? ==> prompt.change == Strip(step.instruction) && prompt.locks == locks)
  }

  /** The call at position `i` of the log: its number, its step's image, size and prompt, and the reservation right
      before it at exactly that prompt's price. `entered` is the number of iterations the run was entered with. */
  predicate CallSays(cfg: Config, w: World, entered: nat, step: EditStep, start: StepStart, ops: seq<Op>, i: nat)
    requires i < |ops| && ops[i].Called?
  {
    var op := ops[i];
    && op.attempt == entered + Calls(ops[..i]) + 1
    && op.stepIndex == start.index && op.image == start.working
    && op.size == (if step.isEnhance then FourK else OneK)
    && PromptSays(cfg, step, start.locks, op.prompt, CallDraft(cfg, w, step, start.index, ops, i))
    && i > 0 && ops[i - 1] == Reserved(Generation, ToMicro(cfg.price(op.prompt, op.size)), true)
  }

  // ----- The log only grows -----

  lemma {:induction false} PriorCallKept(ops: seq<Op>, more: seq<Op>, i: nat, index: nat)
    requires i <= |ops| && ops <= more
    ensures PriorCall(more, i, index) == PriorCall(ops, i, index)
  {
    if i > 0 {
      PriorCallKept(ops, more, i - 1, index);
    }
  }

  lemma {:induction false} DraftKept(
    cfg: Config, w: World, step: EditStep, index: nat, ops: seq<Op>, more: seq<Op>, i: nat, n: nat)
    requires i <= |ops| && ops <= more
    ensures Draft(cfg, w, step, index, more, i, n) == Draft(cfg, w, step, index, ops, i, n)
    decreases i
  {
    PriorCallKept(ops, more, i, index);
    var prior := PriorCall(ops, i, index);
    if prior.Some? && prior.value > 0 {
      DraftKept(cfg, w, step, index, ops, more, prior.value - 1, ops[prior.value].attempt);
    }
  }

  lemma SaysKept(cfg: Config, w: World, entered: nat, step: EditStep, start: StepStart, ops: seq<Op>, more: seq<Op>,
                 i: nat)
    requires i < |ops| && ops[i].Called? && ops <= more && CallSays(cfg, w, entered, step, start, ops, i)
    ensures CallSays(cfg, w, entered, step, start, more, i)
  {
    assert more[..i] == ops[..i];
    DraftKept(cfg, w, step, start.index, ops, more, i - 1, ops[i].attempt);
    hide Draft, PromptSays, Calls, ToMicro;
  }

  lemma CallsAppend(ops: seq<Op>, op: Op)
    ensures Calls(ops + [op]) == Calls(ops) + (if op.Called? then 1 else 0)
  {
    assert (ops + [op])[..|ops|] == ops;
  }

  // ----- One retry cycle -----

  /** Everything the cycle entered with log `before` called says what it must. */
  predicate AllSay(
    cfg: Config, w: World, entered: nat, step: EditStep, start: StepStart, before: seq<Op>, ops: seq<Op>)
  {
    && before <= ops
    && forall i | |before| <= i < |ops| && ops[i].Called? :: CallSays(cfg, w, entered, step, start, ops, i)
  }

  /** A run reserves for generations and, with an LLM writer, for slot fills at the flat estimate: for nothing else. */
  predicate Frugal(cfg: Config, ops: seq<Op>) {
    forall i | 0 <= i < |ops| && ops[i].Reserved? ::
      || ops[i].kind == Generation
      || (cfg.llmWriter && ops[i].kind == SlotFill && ops[i].micro == ToMicro(cfg.flatEstimate))
  }

  /** The part of a cycle that also holds when it raised. */
  predicate Said(c: Context, w: World, entered: nat, start: StepStart, before: seq<Op>, t: Tally) {
    && AllSay(c.cfg, w, entered, c.step, start, before, t.run.ops) && Frugal(c.cfg, t.run.ops)
    && (!t.progress.Raised? ==> |t.run.session.iterations| == entered + Calls(t.run.ops))
  }

  /** Ready to reserve: the prompt says the drafted body. */
  predicate Drafted(c: Context, w: World, t: Tally) {
    && PromptSays(c.cfg, c.step, c.locks, t.prompt, t.body)
    && (!c.step.isEnhance ==>
          t.body == Draft(c.cfg, w, c.step, c.index, t.run.ops, |t.run.ops|, |t.run.session.iterations| + 1))
  }

  /** Behind a call: its body is the one to revise. */
  predicate Revisable(c: Context, w: World, t: Tally) {
    var prior := PriorCall(t.run.ops, |t.run.ops|, c.index);
    && PromptSays(c.cfg, c.step, c.locks, t.prompt, t.body)
    && (!c.step.isEnhance ==>
          prior.Some? && t.body == CallDraft(c.cfg, w, c.step, c.index, t.run.ops, prior.value))
  }

  predicate OfContext(c: Context, start: StepStart) {
    start.index == c.index && start.locks == c.locks && start.working == c.working
  }

  /** What a writer call does to the log, and where its body comes from. */
  lemma WrittenLogs(cfg: Config, w: World, r: Run, step: EditStep, revising: Option<string>)
    returns (logged: seq<Op>, composed: bool)
    ensures var (r', body), n := Written(cfg, w, r, step, revising), |r.session.iterations| + 1;
      && r'.ops == r.ops + logged && r'.session.iterations == r.session.iterations
      && body == if composed then ComposedBody(LlmReplyAt(w, n)) else Fallback(cfg, step, revising)
    ensures !cfg.llmWriter ==> logged == [] && !composed
    ensures cfg.llmWriter ==>
      && 1 <= |logged| <= 2 && logged[0].Reserved? && logged[0].kind == SlotFill
      && logged[0].micro == ToMicro(cfg.flatEstimate)
      && logged[0].granted == (|logged| == 2)
      && (|logged| == 2 ==> (if composed then logged[1].Settled? else logged[1].Cancelled?))
      && (composed ==> |logged| == 2)
  {
    hide ToMicro, Affordable, Fallback, SettledCounter, CancelledCounter;
    var micro, reply := ToMicro(cfg.flatEstimate), LlmReplyAt(w, |r.session.iterations| + 1);
    composed := false;
    if !cfg.llmWriter {
      logged := [];
    } else if !Affordable(r, cfg.flatEstimate) {
      logged := [Reserved(SlotFill, micro, false)];
    } else {
      composed := reply.Composed?;
      var close := if composed then Settled(ToMicro(SettledCost(cfg.flatEstimate, reply.billed)))
                   else Op.Cancelled(micro);
      logged := [Reserved(SlotFill, micro, true), close];
      assert r.ops + logged == (r.ops + [logged[0]]) + [logged[1]];
    }
  }

  /** Logged operations that are no calls leave the prior call and its body. */
  lemma {:induction false} PriorCallStays(ops: seq<Op>, logged: seq<Op>, index: nat)
    requires forall i | 0 <= i < |logged| :: !logged[i].Called?
    ensures PriorCall(ops + logged, |ops + logged|, index) == PriorCall(ops, |ops|, index)
    ensures Calls(ops + logged) == Calls(ops)
  {
    var all := ops + logged;
    if logged == [] {
      assert all == ops;
    } else {
      var init := logged[..|logged| - 1];
      PriorCallStays(ops, init, index);
      assert all == (ops + init) + [logged[|logged| - 1]];
      PriorCallKept(ops + init, all, |ops + init|, index);
      CallsAppend(ops + init, logged[|logged| - 1]);
    }
  }

  /** So the writer's body is the draft of the log it leaves. */
  lemma WrittenDrafts(c: Context, w: World, r: Run, revising: Option<string>)
    requires Frugal(c.cfg, r.ops)
    requires var prior := PriorCall(r.ops, |r.ops|, c.index);
      if revising.None? then prior.None?
      else prior.Some? && revising.value == CallDraft(c.cfg, w, c.step, c.index, r.ops, prior.value)
    ensures var (r', body), n := Written(c.cfg, w, r, c.step, revising), |r.session.iterations| + 1;
      && body == Draft(c.cfg, w, c.step, c.index, r'.ops, |r'.ops|, n)
      && Frugal(c.cfg, r'.ops) && r.ops <= r'.ops && r'.session.iterations == r.session.iterations
      && Calls(r'.ops) == Calls(r.ops)
      && forall i | |r.ops| <= i < |r'.ops| :: !r'.ops[i].Called?
  {
    var logged, composed := WrittenLogs(c.cfg, w, r, c.step, revising);
    hide Written, PriorCall, Calls;
    var ops, ops' := r.ops, r.ops + logged;
    PriorCallStays(ops, logged, c.index);
    assert JustComposed(ops', |ops'|) <==> composed;
    var prior := PriorCall(ops, |ops|, c.index);
    if !composed && prior.Some? && prior.value > 0 {
      DraftKept(c.cfg, w, c.step, c.index, ops, ops', prior.value - 1, ops[prior.value].attempt);
    }
  }

  lemma AllSayMore(cfg: Config, w: World, entered: nat, step: EditStep, start: StepStart, before: seq<Op>, ops: seq<Op>,
                   more: seq<Op>)
    requires AllSay(cfg, w, entered, step, start, before, ops) && ops <= more
    requires forall i | |ops| <= i < |more| && more[i].Called? :: CallSays(cfg, w, entered, step, start, more, i)
    ensures AllSay(cfg, w, entered, step, start, before, more)
  {
    hide CallSays;
    forall i | |before| <= i < |more| && more[i].Called?
      ensures CallSays(cfg, w, entered, step, start, more, i)
    {
      if i < |ops| {
        assert CallSays(cfg, w, entered, step, start, ops, i);
        SaysKept(cfg, w, entered, step, start, ops, more, i);
      }
    }
  }

  /** An assembled prompt says its body. */
  lemma AssembledSays(c: Context, body: string)
    requires !c.step.isEnhance
    ensures var prompt := Assemble(c.cfg, c.step, body, c.locks);
      prompt.Some? ==> PromptSays(c.cfg, c.step, c.locks, prompt.value, body)
  {
    hide Strip;
  }

  lemma OpenedDrafts(c: Context, w: World, entered: nat, start: StepStart, r: Run)
    requires OfContext(c, start) && Frugal(c.cfg, r.ops) && |r.session.iterations| == entered + Calls(r.ops)
    requires PriorCall(r.ops, |r.ops|, c.index).None?
    ensures var t := Opened(c, w, r);
      && Said(c, w, entered, start, r.ops, t) && (t.progress.Going? || t.progress.Raised?)
      && (t.progress.Going? ==> Drafted(c, w, t))
  {
    hide Written, Assemble, CallSays, Draft, PriorCall, Calls, PromptSays, Frugal;
    if c.step.isEnhance {
      assert PromptSays(c.cfg, c.step, c.locks, EditPrompt(ENHANCE_BODY, ENHANCE_CHANGE, c.locks), "") by {
        EnhanceSays(c);
      }
    } else {
      WrittenDrafts(c, w, r, None);
      var (r', body) := Written(c.cfg, w, r, c.step, None);
      AssembledSays(c, body);
      assert AllSay(c.cfg, w, entered, c.step, start, r.ops, r'.ops);
    }
  }

  lemma EnhanceSays(c: Context)
    requires c.step.isEnhance
    ensures PromptSays(c.cfg, c.step, c.locks, EditPrompt(ENHANCE_BODY, ENHANCE_CHANGE, c.locks), "")
  {
  }

  lemma PreparedDrafts(c: Context, w: World, entered: nat, start: StepStart, before: seq<Op>, t: Tally, attempt: nat)
    requires Said(c, w, entered, start, before, t) && t.progress.Going? && attempt >= 1
    requires if attempt == 1 then Drafted(c, w, t) else Revisable(c, w, t)
    ensures var ready := Prepared(c, w, t, attempt);
      && Said(c, w, entered, start, before, ready) && (ready.progress.Going? || ready.progress.Raised?)
      && (ready.progress.Going? ==> Drafted(c, w, ready))
  {
    hide Written, Assemble, CallSays, Draft, CallDraft, PriorCall, Calls, PromptSays, Frugal, AllSay;
    if attempt > 1 && !c.step.isEnhance {
      WrittenDrafts(c, w, t.run, Some(t.body));
      var (r', body) := Written(c.cfg, w, t.run, c.step, Some(t.body));
      AssembledSays(c, body);
      AllSayMore(c.cfg, w, entered, c.step, start, before, t.run.ops, r'.ops);
    }
  }

  /** A refused reservation, or a reservation, a call and its close. */
  lemma FiredLogs(c: Context, w: World, t: Tally, attempt: nat)
    requires t.progress.Going?
    ensures var n, t' := |t.run.session.iterations| + 1, Fired(c, w, t, attempt);
      var estimate := Estimate(c.cfg, t.prompt, c.Size());
      var reserved := Reserved(Generation, ToMicro(estimate), Affordable(t.run, estimate));
      var called := Called(n, c.index, c.Size(), t.prompt, c.working, !ReplyAt(w, n).TransportFailed?);
      && t'.body == t.body && t'.prompt == t.prompt
      && (if !Affordable(t.run, estimate)
          then t'.run.ops == t.run.ops + [reserved] && t'.run.session == t.run.session && t'.progress.Exhausted?
          else
            && t'.run.ops == t.run.ops + [reserved] + [called] + [CloseOf(estimate, ReplyAt(w, n))]
            && (!t'.progress.Raised? ==> |t'.run.session.iterations| == n))
  {
    hide ToMicro, Affordable, AfterReply;
    var n, estimate := |t.run.session.iterations| + 1, Price(c, t);
    if Affordable(t.run, estimate) {
      var calling := Calling(c, w, t);
      assert calling.run.session == t.run.session && calling.body == t.body;
      ReplyOps(c, calling, n, estimate, ReplyAt(w, n), attempt < c.MaxAttempts());
      ReplyRecords(c, calling, n, estimate, ReplyAt(w, n), attempt < c.MaxAttempts());
      ReplyKeepsBody(c, calling, n, estimate, ReplyAt(w, n), attempt < c.MaxAttempts());
    }
  }

  lemma ReplyKeepsBody(c: Context, t: Tally, n: nat, estimate: Usd, reply: ProviderReply, more: bool)
    requires n == |t.run.session.iterations| + 1
    ensures AfterReply(c, t, n, estimate, reply, more).body == t.body
  {
    hide Settle, Cancel, Announced, Recorded, Saved, FaceSaved, Tracked, Banded, KeepsBest;
  }

  /** A reserved and closed call is what the log must show, and the one to revise. */
  lemma CallLogged(c: Context, w: World, entered: nat, start: StepStart, t: Tally, reserved: Op, called: Op, close: Op)
    requires OfContext(c, start) && Drafted(c, w, t)
    requires |t.run.session.iterations| == entered + Calls(t.run.ops)
    requires reserved == Reserved(Generation, ToMicro(Estimate(c.cfg, t.prompt, c.Size())), true)
    requires called.Called? && called.attempt == |t.run.session.iterations| + 1 && called.stepIndex == c.index
    requires called.size == c.Size() && called.prompt == t.prompt && called.image == c.working && !close.Called?
    ensures var ops, more := t.run.ops, t.run.ops + [reserved] + [called] + [close];
      && CallSays(c.cfg, w, entered, c.step, start, more, |ops| + 1)
      && Calls(more) == Calls(ops) + 1
      && PriorCall(more, |more|, c.index) == Some(|ops| + 1)
      && (!c.step.isEnhance ==> t.body == CallDraft(c.cfg, w, c.step, c.index, more, |ops| + 1))
  {
    var ops, more := t.run.ops, t.run.ops + [reserved] + [called] + [close];
    CallsAppend(ops, reserved);
    CallsAppend(ops + [reserved], called);
    CallsAppend(ops + [reserved] + [called], close);
    hide Calls, Draft, ToMicro;
    assert more[..|ops| + 1] == ops + [reserved];
    assert more[|ops| + 1] == called && more[|ops|] == reserved && more[|ops| + 2] == close;
    DraftKept(c.cfg, w, c.step, c.index, ops, more, |ops|, called.attempt);
    assert PriorCall(more, |more| - 1, c.index) == Some(|ops| + 1);
  }

  lemma FiredDrafts(c: Context, w: World, entered: nat, start: StepStart, before: seq<Op>, t: Tally, attempt: nat)
    requires OfContext(c, start) && Said(c, w, entered, start, before, t) && t.progress.Going? && Drafted(c, w, t)
    ensures var t' := Fired(c, w, t, attempt);
      Said(c, w, entered, start, before, t') && (t'.progress.Going? ==> Revisable(c, w, t'))
  {
    hide Fired, CallSays, Draft, CallDraft, PriorCall, Calls, PromptSays, AllSay, Affordable, ToMicro;
    FiredLogs(c, w, t, attempt);
    var n, t' := |t.run.session.iterations| + 1, Fired(c, w, t, attempt);
    var estimate := Estimate(c.cfg, t.prompt, c.Size());
    var reserved := Reserved(Generation, ToMicro(estimate), Affordable(t.run, estimate));
    if Affordable(t.run, estimate) {
      var called := Called(n, c.index, c.Size(), t.prompt, c.working, !ReplyAt(w, n).TransportFailed?);
      CallLogged(c, w, entered, start, t, reserved, called, CloseOf(estimate, ReplyAt(w, n)));
    } else {
      CallsAppend(t.run.ops, reserved);
    }
    AllSayMore(c.cfg, w, entered, c.step, start, before, t.run.ops, t'.run.ops);
  }

  lemma {:induction false} AttemptsSay(
    c: Context, w: World, entered: nat, start: StepStart, before: seq<Op>, t: Tally, attempt: nat)
    requires OfContext(c, start) && Said(c, w, entered, start, before, t) && attempt >= 1
    requires t.progress.Going? ==> if attempt == 1 then Drafted(c, w, t) else Revisable(c, w, t)
    ensures Said(c, w, entered, start, before, Attempts(c, w, t, attempt))
    decreases c.MaxAttempts() - attempt
  {
    hide Prepared, Fired, Said, Drafted, Revisable;
    if attempt <= c.MaxAttempts() && t.progress.Going? {
      PreparedDrafts(c, w, entered, start, before, t, attempt);
      var ready := Prepared(c, w, t, attempt);
      if !ready.progress.Raised? {
        FiredDrafts(c, w, entered, start, before, ready, attempt);
      }
      AttemptsSay(c, w, entered, start, before, Attempted(c, w, t, attempt), attempt + 1);
    }
  }

  lemma StepSays(c: Context, w: World, entered: nat, start: StepStart, r: Run)
    requires OfContext(c, start) && Frugal(c.cfg, r.ops) && |r.session.iterations| == entered + Calls(r.ops)
    requires PriorCall(r.ops, |r.ops|, c.index).None?
    ensures Said(c, w, entered, start, r.ops, StepRun(c, w, r))
  {
    hide Opened, Attempts, Said, Drafted, Revisable, PriorCall, Calls;
    OpenedDrafts(c, w, entered, start, r);
    AttemptsSay(c, w, entered, start, r.ops, Opened(c, w, r), 1);
  }

  // ----- The whole run -----

  /** The call at position `i` is one of a step the run began, and says what it must. */
  ghost predicate CallOfRun(
    cfg: Config, w: World, entered: nat, plan: seq<EditStep>, starts: seq<StepStart>, ops: seq<Op>, i: nat)
    requires i < |ops| && ops[i].Called?
  {
    exists k | 0 <= k < |starts| ::
      starts[k].index < |plan| && CallSays(cfg, w, entered, plan[starts[k].index], starts[k], ops, i)
  }

  ghost predicate RunSays(
    cfg: Config, w: World, entered: nat, plan: seq<EditStep>, starts: seq<StepStart>, ops: seq<Op>)
  {
    forall i | 0 <= i < |ops| && ops[i].Called? :: CallOfRun(cfg, w, entered, plan, starts, ops, i)
  }

  predicate CallsBelow(ops: seq<Op>, i: nat) {
    forall k | 0 <= k < |ops| && ops[k].Called? :: ops[k].stepIndex < i
  }

  /** Before step `i` of the chain. */
  ghost predicate ChainSays(cfg: Config, w: World, entered: nat, plan: seq<EditStep>, ch: Chain, i: nat) {
    && RunSays(cfg, w, entered, plan, ch.starts, ch.run.ops) && Frugal(cfg, ch.run.ops)
    && |ch.steps| == |plan|
    && (ch.state.Open? ==>
          && |ch.run.session.iterations| == entered + Calls(ch.run.ops)
          && CallsBelow(ch.run.ops, i)
          && forall j | i <= j < |plan| :: ch.steps[j] == plan[j])
  }

  lemma {:induction false} NoPriorCall(ops: seq<Op>, i: nat, index: nat)
    requires CallsBelow(ops, index) && i <= |ops|
    ensures PriorCall(ops, i, index).None?
  {
    if i > 0 {
      NoPriorCall(ops, i - 1, index);
    }
  }

  lemma RunSaysMore(cfg: Config, w: World, entered: nat, plan: seq<EditStep>, starts: seq<StepStart>, start: StepStart,
                    ops: seq<Op>, more: seq<Op>)
    requires RunSays(cfg, w, entered, plan, starts, ops) && start.index < |plan|
    requires AllSay(cfg, w, entered, plan[start.index], start, ops, more)
    ensures RunSays(cfg, w, entered, plan, starts + [start], more)
  {
    hide CallSays;
    var all := starts + [start];
    forall i | 0 <= i < |more| && more[i].Called?
      ensures CallOfRun(cfg, w, entered, plan, all, more, i)
    {
      if i < |ops| {
        assert CallOfRun(cfg, w, entered, plan, starts, ops, i);
        var k :| 0 <= k < |starts| && starts[k].index < |plan|
          && CallSays(cfg, w, entered, plan[starts[k].index], starts[k], ops, i);
        SaysKept(cfg, w, entered, plan[starts[k].index], starts[k], ops, more, i);
        assert all[k] == starts[k];
      } else {
        assert all[|starts|] == start;
      }
    }
  }

  lemma BelowMore(cfg: Config, w: World, entered: nat, step: EditStep, start: StepStart, ops: seq<Op>, more: seq<Op>)
    requires CallsBelow(ops, start.index) && AllSay(cfg, w, entered, step, start, ops, more)
    ensures CallsBelow(more, start.index + 1)
  {
    forall k | 0 <= k < |more| && more[k].Called? ensures more[k].stepIndex < start.index + 1 {
      if k >= |ops| {
        assert CallSays(cfg, w, entered, step, start, more, k);
      }
    }
  }

  lemma AdvanceSays(cfg: Config, th: Thresholds, w: World, entered: nat, plan: seq<EditStep>, ch: Chain, i: nat)
    requires i < |plan| && ch.state.Open? && ChainSays(cfg, w, entered, plan, ch, i)
    ensures ChainSays(cfg, w, entered, plan, Advanced(cfg, th, w, ch, i), i + 1)
  {
    hide StepRun, RunSays, AllSay, Calls, LocksFor, Promoted, Frugal, CallsBelow;
    var after := Advanced(cfg, th, w, ch, i);
    if ch.steps[i].status == Pending {
      var begun := Begun(cfg, ch, i);
      var c, start := ContextAt(cfg, th, begun, i), begun.starts[|ch.starts|];
      NoPriorCall(ch.run.ops, |ch.run.ops|, i);
      StepSays(c, w, entered, start, begun.run);
      var t := StepRun(c, w, begun.run);
      hide PriorCall;
      RunSaysMore(cfg, w, entered, plan, ch.starts, start, ch.run.ops, t.run.ops);
      BelowMore(cfg, w, entered, c.step, start, ch.run.ops, t.run.ops);
      assert after.starts == ch.starts + [start] && after.run.ops == t.run.ops;
    } else {
      BelowStill(ch.run.ops, i);
    }
  }

  lemma BelowStill(ops: seq<Op>, i: nat)
    requires CallsBelow(ops, i)
    ensures CallsBelow(ops, i + 1)
  {
  }

  lemma {:induction false} ChainAllSays(
    cfg: Config, th: Thresholds, w: World, entered: nat, plan: seq<EditStep>, ch: Chain, i: nat)
    requires ChainSays(cfg, w, entered, plan, ch, i)
    ensures var after := Chained(cfg, th, w, ch, i);
      RunSays(cfg, w, entered, plan, after.starts, after.run.ops) && Frugal(cfg, after.run.ops)
    decreases |ch.steps| - i
  {
    hide Advanced, RunSays, Frugal;
    if i < |ch.steps| && ch.state.Open? {
      AdvanceSays(cfg, th, w, entered, plan, ch, i);
      ChainAllSays(cfg, th, w, entered, plan, Advanced(cfg, th, w, ch, i), i + 1);
    }
  }

  /** Every generator call of every run, whatever the writer and the provider answer: it belongs to a step the run
      began; it edits the image and carries the locks that step began with; an edit step's call carries the instruction
      as the only change exactly when there is one the guards accept; an enhance step's call is the fixed prompt at 4K;
      its body is what the writer composed for it, else the template, else the emphasized body of the attempt before;
      and it was reserved at the price of exactly that prompt and size. Nothing else is reserved but the writer's slot
      fills. */
  lemma EveryCallSaysItsStep(cfg: Config, w: World, d: Durable)
    requires d.session.thresholds.Some?
    ensures var ops, starts := Drive(cfg, w, d).ops, Worked(cfg, w, d).starts;
      && RunSays(cfg, w, |d.session.iterations|, PlanSteps(cfg, d.session), starts, ops)
      && Frugal(cfg, ops)
  {
    var entered, plan := |d.session.iterations|, PlanSteps(cfg, d.session);
    if w.reference.Some? {
      var launched := Launched(cfg, d, w.reference.value);
      assert launched.run.ops == [] && launched.steps == plan;
      assert launched.run.session.iterations == d.session.iterations;
      hide Launched, Chained, PlanSteps;
      assert ChainSays(cfg, w, entered, plan, launched, 0);
      ChainAllSays(cfg, d.session.thresholds.value, w, entered, plan, launched, 0);
      hide RunSays;
    }
  }
}
