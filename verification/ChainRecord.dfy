/** What a retry cycle puts on the record: one well-formed iteration per generator call, and keep-best. */
module ChainRecord {
  import opened Schemas
  import opened Money
  import opened BudgetOps
  import opened ChainSpec

  // ----- Well-formed records -----

  /** `charged` is cost > 0; a measured frame is stored under its own number and banded. */
  predicate RecordOk(it: Iteration, n: nat, key: string, th: Thresholds) {
    && it.n == n
    && (it.charged <==> it.cost > 0.0)
    && (it.resultRef.Some? ==> it.resultRef.value == Ref(key, n))
    && (it.similarity.Some? ==> it.resultRef.Some? && it.error.None?)
    && it.verdict == if it.similarity.Some? then Some(Banded(it.similarity.value, th)) else None
  }

  predicate WellRecorded(its: seq<Iteration>, key: string, th: Thresholds) {
    forall i | 0 <= i < |its| :: RecordOk(its[i], i + 1, key, th)
  }

  /** Measured and not below the floor. */
  predicate Eligible(it: Iteration) {
    it.similarity.Some? && it.verdict.Some? && it.verdict.value != BelowFloor
  }

  predicate HasPassed(it: Iteration) {
    it.verdict == Some(Passed)
  }

  /** `b` is the image of an eligible iteration on record. */
  predicate NamesIteration(b: BestResult, its: seq<Iteration>) {
    && 1 <= b.iterationN <= |its|
    && var it := its[b.iterationN - 1];
      Eligible(it) && it.resultRef == Some(b.resultRef) && it.similarity == Some(b.similarity)
      && it.verdict == Some(b.verdict) && RiskTells(b)
  }

  /** A delivered best is low risk when it passed the threshold and medium risk when it only cleared the floor. */
  predicate RiskTells(b: BestResult) {
    && (b.riskLevel == LowRisk <==> b.verdict == Passed)
    && (b.riskLevel == MediumRisk <==> b.verdict == Soft)
  }

  /** The earliest maximum of similarity over the eligible iterations from `from` on, if there is one. */
  predicate EarliestMax(its: seq<Iteration>, from: nat, best: Option<BestResult>) {
    match best
    case None => forall i | from <= i < |its| :: !Eligible(its[i])
    case Some(b) =>
      && NamesIteration(b, its)
      && from < b.iterationN
      && (forall i | from <= i < |its| && Eligible(its[i]) :: its[i].similarity.value <= b.similarity)
      && (forall i | from <= i < b.iterationN - 1 && Eligible(its[i]) :: its[i].similarity.value < b.similarity)
  }

  predicate NonePassed(its: seq<Iteration>, from: nat, to: nat)
    requires to <= |its|
  {
    forall i | from <= i < to :: !HasPassed(its[i])
  }

  // ----- The banding -----

  /** A frame passes exactly at the similarity threshold; a verdict above the floor guarantees the smaller of the two
      thresholds, and nothing more. */
  lemma BandedGuarantee(similarity: real, th: Thresholds)
    ensures Banded(similarity, th) == Passed <==> similarity >= th.similarityThreshold
    ensures Banded(similarity, th) != BelowFloor
       <==> similarity >= (if th.identityFloor <= th.similarityThreshold then th.identityFloor
                           else th.similarityThreshold)
  {
  }

  /** The identity floor holds for every deliverable similarity exactly when the thresholds are ordered. */
  lemma FloorHoldsIffOrdered(th: Thresholds)
    ensures (forall s: real :: Banded(s, th) != BelowFloor ==> s >= th.identityFloor)
       <==> th.identityFloor <= th.similarityThreshold
  {
    if th.identityFloor > th.similarityThreshold {
      assert Banded(th.similarityThreshold, th) != BelowFloor;
    }
  }

  /** The precondition is not checked anywhere: with swapped thresholds a frame under the floor passes. */
  lemma UnorderedThresholdsDeliverBelowFloor()
    ensures var th := Thresholds(0.5, 0.8, 0);
      Banded(0.6, th) == Passed && 0.6 < th.identityFloor
  {
  }

  // ----- One generator call -----

  /** The iteration a generator call leaves on the record, whatever the outcome. */
  function NewIteration(c: Context, n: nat, estimate: Usd, reply: ProviderReply): Iteration {
    match reply
    case Refused(billed) => FailedIteration(c, n, SettledCost(estimate, billed))
    case TransportFailed => FailedIteration(c, n, 0.0)
    case Frame(billed, _, _, check) =>
      var it := FrameIteration(c, n, SettledCost(estimate, billed));
      if check.CheckCrashed? then it.(error := Some(GenerationFailed))
      else it.(similarity := Some(SimilarityOf(check)),
               verdict := Some(Banded(SimilarityOf(check), c.thresholds)))
  }

  function BestAfter(best: Option<BestResult>, it: Iteration): Option<BestResult> {
    if Eligible(it) && it.resultRef.Some? && KeepsBest(best, it.similarity.value, it.verdict.value)
    then Some(BestResult(it.n, it.resultRef.value, it.similarity.value, it.verdict.value, RiskOf(it.verdict.value)))
    else best
  }

  lemma NewIterationOk(c: Context, n: nat, estimate: Usd, reply: ProviderReply)
    ensures RecordOk(NewIteration(c, n, estimate, reply), n, c.cfg.sessionKey, c.thresholds)
    ensures NewIteration(c, n, estimate, reply).stepN == c.step.n
    ensures NewIteration(c, n, estimate, reply).similarity.Some? ==> reply.Frame?
  {
  }

  /** What a reply must leave on the record, told from the reply alone: its bill, else the held estimate, nothing for a
      transport failure; the frame's reference, when there is a frame; its similarity, 0 when it shows no face; and an
      error exactly when nothing was measured. */
  predicate RecordOf(it: Iteration, c: Context, n: nat, estimate: Usd, reply: ProviderReply) {
    && it.n == n && it.stepN == c.step.n
    && it.cost == (if reply.TransportFailed? then 0.0
                   else if reply.billed.Some? then reply.billed.value
                   else estimate)
    && (it.charged <==> it.cost > 0.0)
    && it.resultRef == (if reply.Frame? then Some(Ref(c.cfg.sessionKey, n)) else None)
    && (it.error.Some? <==> it.similarity.None?)
    && (it.error.Some? ==> it.error.value == GenerationFailed)
    && (if !reply.Frame? || reply.check.CheckCrashed? then it.similarity.None? && it.verdict.None?
        else
          && it.similarity == Some(if reply.check.Scored? then reply.check.similarity else 0.0)
          && it.verdict == Some(Banded(it.similarity.value, c.thresholds)))
  }

  lemma NewIterationTells(c: Context, n: nat, estimate: Usd, reply: ProviderReply)
    ensures RecordOf(NewIteration(c, n, estimate, reply), c, n, estimate, reply)
  {
    hide Banded;
  }

  lemma LostRaises(c: Context, t: Tally, n: nat, estimate: Usd, reply: ProviderReply, more: bool)
    requires t.progress.Going?
    ensures AfterReply(c, t, n, estimate, reply, more).progress.Raised? <==> reply.Frame? && !reply.kept
  {
    hide Settle, Cancel, Recorded, Announced, Saved, FaceSaved, Tracked, Banded, KeepsBest;
  }

  /** A reply appends its iteration and moves the best as functions of the reply say. */
  lemma ReplyRecords(c: Context, t: Tally, n: nat, estimate: Usd, reply: ProviderReply, more: bool)
    requires n == |t.run.session.iterations| + 1 && t.progress.Going?
    ensures var t' := AfterReply(c, t, n, estimate, reply, more);
      var it := NewIteration(c, n, estimate, reply);
      if t'.progress.Raised? then t'.run.session == t.run.session && t'.best == t.best && t'.image == t.image
      else
        && t'.run.session == t.run.session.(iterations := t.run.session.iterations + [it])
        && t'.best == BestAfter(t.best, it)
        && t'.image == (if t'.best != t.best && reply.Frame? then reply.image else t.image)
        && t'.progress == (if HasPassed(it) then Delivered else Going)
  {
    match reply
    case Refused(_) =>
    case TransportFailed =>
    case Frame(_, _, _, _) =>
      FrameRecords(c, t, n, estimate, reply, more);
      hide AfterFrame, NewIteration, BestAfter;
  }

  lemma FrameRecords(c: Context, t: Tally, n: nat, estimate: Usd, reply: ProviderReply, more: bool)
    requires n == |t.run.session.iterations| + 1 && t.progress.Going? && reply.Frame?
    ensures var t' := AfterFrame(c, t, n, estimate, reply, more);
      var it := NewIteration(c, n, estimate, reply);
      if t'.progress.Raised? then t'.run.session == t.run.session && t'.best == t.best && t'.image == t.image
      else
        && t'.run.session == t.run.session.(iterations := t.run.session.iterations + [it])
        && t'.best == BestAfter(t.best, it)
        && t'.image == (if t'.best != t.best then reply.image else t.image)
        && t'.progress == (if HasPassed(it) then Delivered else Going)
  {
    var its := t.run.session.iterations;
    var it := FrameIteration(c, n, SettledCost(estimate, reply.billed));
    var final := NewIteration(c, n, estimate, reply);
    assert (its + [it])[|its + [it]| - 1 := final] == its + [final];
  }

  /** Every reply but a lost frame appends exactly one iteration, the one the reply calls for, and changes nothing else
      on the session; the frame is kept when it is above the floor and beats the best so far. */
  lemma ReplyLeaves(c: Context, t: Tally, n: nat, estimate: Usd, reply: ProviderReply, more: bool)
    requires n == |t.run.session.iterations| + 1 && t.progress.Going?
    ensures var t', its := AfterReply(c, t, n, estimate, reply, more), t.run.session.iterations;
      if reply.Frame? && !reply.kept then t'.progress.Raised? && t'.run.session == t.run.session && t'.best == t.best
      else
        && |t'.run.session.iterations| == n
        && t'.run.session == t.run.session.(iterations := its + [t'.run.session.iterations[n - 1]])
        && RecordOf(t'.run.session.iterations[n - 1], c, n, estimate, reply)
        && (t'.progress.Delivered? <==> t'.run.session.iterations[n - 1].verdict == Some(Passed))
        && (!t'.progress.Delivered? ==> t'.progress.Going?)
        && (var it := t'.run.session.iterations[n - 1];
            var beats := Eligible(it) && (t.best.None? || it.similarity.value > t.best.value.similarity);
            if beats
            then t'.best.Some? && t'.best.value.iterationN == n && NamesIteration(t'.best.value, its + [it])
                 && t'.image == reply.image
            else t'.best == t.best && t'.image == t.image)
  {
    ReplyRecords(c, t, n, estimate, reply, more);
    NewIterationTells(c, n, estimate, reply);
    LostRaises(c, t, n, estimate, reply, more);
    hide AfterReply, NewIteration, Banded;
  }

  lemma EarliestMaxExtends(its: seq<Iteration>, it: Iteration, from: nat, best: Option<BestResult>,
                           key: string, th: Thresholds)
    requires from <= |its| && EarliestMax(its, from, best) && RecordOk(it, |its| + 1, key, th)
    ensures EarliestMax(its + [it], from, BestAfter(best, it))
    ensures best.Some? && BestAfter(best, it) != best ==> BestAfter(best, it).value.similarity > best.value.similarity
  {
    var all, best' := its + [it], BestAfter(best, it);
    forall i | from <= i < |all|
      ensures i < |its| ==> all[i] == its[i]
    {
    }
    if best.Some? {
      assert all[best.value.iterationN - 1] == its[best.value.iterationN - 1];
    }
    if best' != best {
      assert all[|its|] == it;
    }
  }

  /** The attempts that were billed something. */
  function ChargedAttempts(its: seq<Iteration>): set<nat> {
    set i | 0 <= i < |its| && its[i].charged
  }

  /** What the terminal event calls generations spent is the number of attempts charged. */
  lemma {:induction false} SpentCountsCharged(its: seq<Iteration>)
    ensures GenerationsSpent(its) == |ChargedAttempts(its)|
  {
    if its != [] {
      var front := its[..|its| - 1];
      SpentCountsCharged(front);
      assert forall i | 0 <= i < |front| :: front[i] == its[i];
      var last: set<nat> := if its[|front|].charged then {|front|} else {};
      assert ChargedAttempts(its) == ChargedAttempts(front) + last;
      assert |front| !in ChargedAttempts(front);
    }
  }

  // ----- The retry cycle -----

  /** Fields of the session a retry cycle never touches. */
  predicate SameCharter(s: Session, s': Session) {
    && s'.plan == s.plan && s'.best == s.best && s'.thresholds == s.thresholds
    && s'.budgetLimit == s.budgetLimit && s'.approved == s.approved && s'.fsmState == s.fsmState
  }

  /** The state of a retry cycle that was entered with session `s`, before attempt `attempt`. */
  predicate CycleInv(c: Context, w: World, s: Session, t: Tally, attempt: nat) {
    var its, from := t.run.session.iterations, |s.iterations|;
    && SameCharter(s, t.run.session)
    && s.iterations <= its
    && |its| < from + attempt
    && WellRecorded(its, c.cfg.sessionKey, c.thresholds)
    && (forall i | from <= i < |its| :: its[i].stepN == c.step.n)
    && EarliestMax(its, from, t.best)
    && (t.best.Some? ==>
          ReplyAt(w, t.best.value.iterationN).Frame? && t.image == ReplyAt(w, t.best.value.iterationN).image)
    && (if t.progress.Delivered?
        then |its| > from && HasPassed(its[|its| - 1]) && NonePassed(its, from, |its| - 1)
             && t.best.Some? && t.best.value.iterationN == |its|
        else NonePassed(its, from, |its|))
  }

  lemma WrittenKeepsRecord(cfg: Config, w: World, r: Run, step: EditStep, revising: Option<string>)
    ensures var r' := Written(cfg, w, r, step, revising).0;
      r'.session.iterations == r.session.iterations && SameCharter(r.session, r'.session)
  {
  }

  /** A passing frame beats every earlier one: none of them reached the threshold. */
  lemma PassingFrameWins(its: seq<Iteration>, it: Iteration, from: nat, best: Option<BestResult>,
                         key: string, th: Thresholds)
    requires from <= |its| && WellRecorded(its, key, th) && NonePassed(its, from, |its|)
    requires EarliestMax(its, from, best) && RecordOk(it, |its| + 1, key, th) && HasPassed(it)
    ensures BestAfter(best, it).Some? && BestAfter(best, it).value.iterationN == |its| + 1
  {
    if best.Some? {
      var k := best.value.iterationN - 1;
      assert RecordOk(its[k], k + 1, key, th) && !HasPassed(its[k]);
    }
  }

  lemma RecordExtends(its: seq<Iteration>, it: Iteration, key: string, th: Thresholds)
    requires WellRecorded(its, key, th) && RecordOk(it, |its| + 1, key, th)
    ensures WellRecorded(its + [it], key, th)
  {
  }

  lemma CycleExtends(c: Context, w: World, s: Session, t: Tally, t': Tally, it: Iteration, attempt: nat)
    requires CycleInv(c, w, s, t, attempt) && t.progress.Going?
    requires RecordOk(it, |t.run.session.iterations| + 1, c.cfg.sessionKey, c.thresholds) && it.stepN == c.step.n
    requires t'.run.session == t.run.session.(iterations := t.run.session.iterations + [it])
    requires t'.best == BestAfter(t.best, it)
    requires t'.progress == (if HasPassed(it) then Delivered else Going)
    requires t'.best == t.best ==> t'.image == t.image
    requires t'.best != t.best ==>
      ReplyAt(w, |t.run.session.iterations| + 1).Frame?
      && t'.image == ReplyAt(w, |t.run.session.iterations| + 1).image
    ensures CycleInv(c, w, s, t', attempt + 1)
  {
    var its, from := t.run.session.iterations, |s.iterations|;
    RecordExtends(its, it, c.cfg.sessionKey, c.thresholds);
    EarliestMaxExtends(its, it, from, t.best, c.cfg.sessionKey, c.thresholds);
    if HasPassed(it) {
      PassingFrameWins(its, it, from, t.best, c.cfg.sessionKey, c.thresholds);
    }
    hide RecordOk, WellRecorded, EarliestMax;
  }

  lemma FiredKeeps(c: Context, w: World, s: Session, t: Tally, attempt: nat)
    requires CycleInv(c, w, s, t, attempt) && t.progress.Going?
    ensures CycleInv(c, w, s, Fired(c, w, t, attempt), attempt + 1)
  {
    var n := |t.run.session.iterations| + 1;
    var estimate, reply, more := Price(c, t), ReplyAt(w, n), attempt < c.MaxAttempts();
    if Affordable(t.run, estimate) {
      var calling := Calling(c, w, t);
      assert calling.run.session == t.run.session && calling.best == t.best && calling.image == t.image;
      ReplyRecords(c, calling, n, estimate, reply, more);
      NewIterationOk(c, n, estimate, reply);
      hide AfterReply, Calling, NewIteration;
      var t' := AfterReply(c, calling, n, estimate, reply, more);
      if !t'.progress.Raised? {
        CycleExtends(c, w, s, t, t', NewIteration(c, n, estimate, reply), attempt);
      }
    }
  }

  lemma AttemptKeeps(c: Context, w: World, s: Session, t: Tally, attempt: nat)
    requires CycleInv(c, w, s, t, attempt) && t.progress.Going?
    ensures CycleInv(c, w, s, Attempted(c, w, t, attempt), attempt + 1)
  {
    hide Fired;
    WrittenKeepsRecord(c.cfg, w, t.run, c.step, Some(t.body));
    var ready := Prepared(c, w, t, attempt);
    assert CycleInv(c, w, s, ready, attempt);
    if !ready.progress.Raised? {
      FiredKeeps(c, w, s, ready, attempt);
    }
  }

  lemma {:induction false} AttemptsKeep(c: Context, w: World, s: Session, t: Tally, attempt: nat)
    returns (next: nat)
    requires CycleInv(c, w, s, t, attempt)
    requires attempt <= 1 || attempt <= c.MaxAttempts() + 1
    ensures CycleInv(c, w, s, Attempts(c, w, t, attempt), next)
    ensures next <= 1 || next <= c.MaxAttempts() + 1
    decreases c.MaxAttempts() - attempt
  {
    hide Attempted, CycleInv;
    next := attempt;
    if attempt <= c.MaxAttempts() && t.progress.Going? {
      AttemptKeeps(c, w, s, t, attempt);
      next := AttemptsKeep(c, w, s, Attempted(c, w, t, attempt), attempt + 1);
    }
  }

  /** Keep-best is exact. For any outcomes, a step's best is the earliest maximum over the measured,
      not-below-floor frames of the step; it makes at most min(1 + K, max_iterations) attempts, and a
      passing frame ends the step and is its best. */
  lemma StepKeepsBest(c: Context, w: World, r: Run)
    requires WellRecorded(r.session.iterations, c.cfg.sessionKey, c.thresholds)
    ensures var t, from := StepRun(c, w, r), |r.session.iterations|;
      var its := t.run.session.iterations;
      && SameCharter(r.session, t.run.session)
      && r.session.iterations <= its
      && WellRecorded(its, c.cfg.sessionKey, c.thresholds)
      && EarliestMax(its, from, t.best)
      && |its| - from <= (if c.MaxAttempts() < 0 then 0 else c.MaxAttempts())
      && (forall i | from <= i < |its| - 1 :: !HasPassed(its[i]))
      && (|its| > from && HasPassed(its[|its| - 1]) ==> t.best.Some? && t.best.value.iterationN == |its|)
      && (t.best.Some? ==>
            ReplyAt(w, t.best.value.iterationN).Frame? && t.image == ReplyAt(w, t.best.value.iterationN).image)
  {
    WrittenKeepsRecord(c.cfg, w, r, c.step, None);
    var t := Opened(c, w, r);
    assert CycleInv(c, w, r.session, t, 1);
    hide Opened, Attempts;
    var next := AttemptsKeep(c, w, r.session, t, 1);
  }

  // ----- What no run touches -----

  /** What was agreed before the loop: thresholds, budget and approval. */
  predicate SameTerms(s: Session, s': Session) {
    s'.thresholds == s.thresholds && s'.budgetLimit == s.budgetLimit && s'.approved == s.approved
  }

  /** In memory and in the store. */
  predicate OnTerms(s: Session, r: Run) {
    SameTerms(s, r.session) && SameTerms(s, r.durable.session)
  }

  lemma WrittenOnTerms(s: Session, cfg: Config, w: World, r: Run, step: EditStep, revising: Option<string>)
    requires OnTerms(s, r)
    ensures OnTerms(s, Written(cfg, w, r, step, revising).0)
  {
    hide ToMicro, Affordable;
  }

  lemma ReplyOnTerms(s: Session, c: Context, t: Tally, n: nat, estimate: Usd, reply: ProviderReply, more: bool)
    requires OnTerms(s, t.run)
    ensures OnTerms(s, AfterReply(c, t, n, estimate, reply, more).run)
  {
    hide ToMicro, Banded, KeepsBest, Tracked, SettledCounter, Announced;
    var it := FailedIteration(c, n, SettledCost(estimate, if reply.TransportFailed? then None else reply.billed));
    match reply
    case Refused(billed) =>
      AnnouncedOnTerms(s, Recorded(Settle(t.run, estimate, billed), it), it, more);
    case TransportFailed =>
      var free := FailedIteration(c, n, 0.0);
      AnnouncedOnTerms(s, Recorded(Cancel(t.run, estimate), free), free, more);
    case Frame(_, _, _, _) =>
      FrameOnTerms(s, c, t, n, estimate, reply, more);
  }

  lemma AnnouncedOnTerms(s: Session, r: Run, it: Iteration, retry: bool)
    requires OnTerms(s, r)
    ensures OnTerms(s, Announced(r, it, retry))
  {
  }

  lemma FrameOnTerms(s: Session, c: Context, t: Tally, n: nat, estimate: Usd, reply: ProviderReply, more: bool)
    requires OnTerms(s, t.run) && reply.Frame?
    ensures OnTerms(s, AfterFrame(c, t, n, estimate, reply, more).run)
  {
    hide ToMicro, Banded, KeepsBest, Tracked, SettledCounter;
  }

  lemma FiredOnTerms(s: Session, c: Context, w: World, t: Tally, attempt: nat)
    requires OnTerms(s, t.run)
    ensures OnTerms(s, Fired(c, w, t, attempt).run)
  {
    hide AfterReply;
    if Affordable(t.run, Price(c, t)) {
      var n := |t.run.session.iterations| + 1;
      ReplyOnTerms(s, c, Calling(c, w, t), n, Price(c, t), ReplyAt(w, n), attempt < c.MaxAttempts());
    }
  }

  lemma {:induction false} AttemptsOnTerms(s: Session, c: Context, w: World, t: Tally, attempt: nat)
    requires OnTerms(s, t.run)
    ensures OnTerms(s, Attempts(c, w, t, attempt).run)
    decreases c.MaxAttempts() - attempt
  {
    hide Fired, Written, Assemble, OnTerms;
    if attempt <= c.MaxAttempts() && t.progress.Going? {
      WrittenOnTerms(s, c.cfg, w, t.run, c.step, Some(t.body));
      var ready := Prepared(c, w, t, attempt);
      if !ready.progress.Raised? {
        FiredOnTerms(s, c, w, ready, attempt);
      }
      AttemptsOnTerms(s, c, w, Attempted(c, w, t, attempt), attempt + 1);
    }
  }

  lemma StepOnTerms(s: Session, c: Context, w: World, r: Run)
    requires OnTerms(s, r)
    ensures OnTerms(s, StepRun(c, w, r).run)
  {
    hide Written, Attempts, Assemble, OnTerms;
    WrittenOnTerms(s, c.cfg, w, r, c.step, None);
    AttemptsOnTerms(s, c, w, Opened(c, w, r), 1);
  }

  lemma AdvanceOnTerms(s: Session, cfg: Config, th: Thresholds, w: World, ch: Chain, i: nat)
    requires i < |ch.steps| && OnTerms(s, ch.run)
    ensures OnTerms(s, Advanced(cfg, th, w, ch, i).run)
  {
    hide StepRun, LocksFor, Promoted;
    if ch.steps[i].status == Pending {
      var begun := Begun(cfg, ch, i);
      StepOnTerms(s, ContextAt(cfg, th, begun, i), w, begun.run);
    }
  }

  lemma {:induction false} ChainOnTerms(s: Session, cfg: Config, th: Thresholds, w: World, ch: Chain, i: nat)
    requires OnTerms(s, ch.run)
    ensures OnTerms(s, Chained(cfg, th, w, ch, i).run)
    decreases |ch.steps| - i
  {
    hide Advanced, OnTerms;
    if i < |ch.steps| && ch.state.Open? {
      AdvanceOnTerms(s, cfg, th, w, ch, i);
      ChainOnTerms(s, cfg, th, w, Advanced(cfg, th, w, ch, i), i + 1);
    }
  }

  /** No run changes the thresholds, the budget or the approval it was entered with. */
  lemma RunKeepsTerms(cfg: Config, w: World, d: Durable)
    requires d.session.thresholds.Some?
    ensures OnTerms(d.session, Drive(cfg, w, d))
  {
    hide Chained, TerminalEvent;
    if w.reference.Some? {
      ChainOnTerms(d.session, cfg, d.session.thresholds.value, w, Launched(cfg, d, w.reference.value), 0);
    }
  }
}
