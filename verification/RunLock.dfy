/** The run lock of one session: token fence, expiry, crashes and late releases
    (src/api/deps.py, src/services/connectors/memory_store.py, src/utils/lua.py). */
module RunLock {
  import opened Schemas

  /** `expires` tells the Redis lock, which dies `wallClock` plus a grace after it was taken, from the
      in-memory one, which lives as long as its process. */
  datatype Config = Config(wallClock: nat, expires: bool)

  const GRACE: nat := 60

  /** `Running`: the graph invocation is in flight. `Releasing`: it ended, timed out, was cancelled or raised,
      and its release has not reached the store. `Dead`: its process died, or its release failed. */
  datatype Phase = Running | Releasing | Released | Dead
  datatype GraphRun = GraphRun(started: nat, phase: Phase)

  /** Tokens are fresh per spawn, so a run's position stands for its token. */
  datatype Lock = Lock(holder: nat, expiry: Option<nat>)
  datatype Runner = Runner(now: nat, lock: Option<Lock>, runs: seq<GraphRun>)

  datatype Action = Spawn | Tick(seconds: nat) | EndInvocation(run: nat) | Release(run: nat) | Die(run: nat)

  const IDLE: Runner := Runner(0, None, [])

  function Expiry(cfg: Config, started: nat): Option<nat> {
    if cfg.expires then Some(started + cfg.wallClock + GRACE) else None
  }

  predicate Passed(expiry: Option<nat>, now: nat) {
    expiry.Some? && now >= expiry.value
  }

  /** The token the store shows under the lock key: an expired lock is absent. */
  function Holder(s: Runner): Option<nat> {
    if s.lock.None? || Passed(s.lock.value.expiry, s.now) then None else Some(s.lock.value.holder)
  }

  function WithPhase(s: Runner, run: nat, phase: Phase): Runner
    requires run < |s.runs|
  {
    s.(runs := s.runs[run := s.runs[run].(phase := phase)])
  }

  function Step(cfg: Config, s: Runner, a: Action): Runner {
    match a
    case Spawn =>
      if Holder(s).Some? then s
      else s.(lock := Some(Lock(|s.runs|, Expiry(cfg, s.now))), runs := s.runs + [GraphRun(s.now, Running)])
    case Tick(seconds) => s.(now := s.now + seconds)
    case EndInvocation(run) =>
      if run < |s.runs| && s.runs[run].phase.Running? then WithPhase(s, run, Releasing) else s
    case Release(run) =>
      if run < |s.runs| && s.runs[run].phase.Releasing? then
        var ended := WithPhase(s, run, Released);
        if Holder(s) == Some(run) then ended.(lock := None) else ended
      else s
    case Die(run) =>
      if run < |s.runs| && (s.runs[run].phase.Running? || s.runs[run].phase.Releasing?)
      then WithPhase(s, run, Dead)
      else s
  }

  function Ran(cfg: Config, s: Runner, actions: seq<Action>): Runner {
    if actions == [] then s
    else Step(cfg, Ran(cfg, s, actions[..|actions| - 1]), actions[|actions| - 1])
  }

  // ----- The invariant -----

  /** The run has lived through the whole lifetime of the lock it took. */
  predicate Outlived(cfg: Config, s: Runner, run: nat)
    requires run < |s.runs|
  {
    Passed(Expiry(cfg, s.runs[run].started), s.now)
  }

  /** Neither released nor outlived. */
  predicate Entitled(cfg: Config, s: Runner, run: nat) {
    run < |s.runs| && !s.runs[run].phase.Released? && !Outlived(cfg, s, run)
  }

  ghost predicate Inv(cfg: Config, s: Runner) {
    && (forall run: nat :: Holder(s) == Some(run) <==> Entitled(cfg, s, run))
    && (s.lock.Some? ==>
          s.lock.value.holder < |s.runs| && s.lock.value.expiry == Expiry(cfg, s.runs[s.lock.value.holder].started))
  }

  lemma StepInv(cfg: Config, s: Runner, a: Action)
    requires Inv(cfg, s)
    ensures Inv(cfg, Step(cfg, s, a))
  {
    var s' := Step(cfg, s, a);
    hide Expiry;
    forall run: nat ensures Holder(s') == Some(run) <==> Entitled(cfg, s', run) {
      assert Holder(s) == Some(run) <==> Entitled(cfg, s, run);
    }
  }

  lemma {:induction false} Reachable(cfg: Config, actions: seq<Action>)
    ensures Inv(cfg, Ran(cfg, IDLE, actions))
  {
    if actions != [] {
      Reachable(cfg, actions[..|actions| - 1]);
      StepInv(cfg, Ran(cfg, IDLE, actions[..|actions| - 1]), actions[|actions| - 1]);
    }
  }

  // ----- Mutual exclusion -----

  /** Two graph invocations of one session overlap only if one of them has outlived its lock. */
  lemma MutualExclusion(cfg: Config, actions: seq<Action>, i: nat, j: nat)
    requires var s := Ran(cfg, IDLE, actions);
      i < |s.runs| && j < |s.runs| && i != j && s.runs[i].phase.Running? && s.runs[j].phase.Running?
    ensures var s := Ran(cfg, IDLE, actions); Outlived(cfg, s, i) || Outlived(cfg, s, j)
    ensures cfg.expires
  {
    Reachable(cfg, actions);
    var s := Ran(cfg, IDLE, actions);
    assert Entitled(cfg, s, i) <==> Holder(s) == Some(i);
    assert Entitled(cfg, s, j) <==> Holder(s) == Some(j);
  }

  /** A run is stopped at the wall clock, at most `lag` seconds late. */
  predicate StoppedWithin(cfg: Config, s: Runner, lag: nat) {
    forall run | 0 <= run < |s.runs| && s.runs[run].phase.Running? :: s.now <= s.runs[run].started + cfg.wallClock + lag
  }

  /** The grace is what excludes overlap: a stop later than the wall clock by less than it is still safe. */
  lemma NoOverlapWithinGrace(cfg: Config, actions: seq<Action>, lag: nat, i: nat, j: nat)
    requires lag < GRACE && StoppedWithin(cfg, Ran(cfg, IDLE, actions), lag)
    requires var s := Ran(cfg, IDLE, actions);
      i < |s.runs| && j < |s.runs| && s.runs[i].phase.Running? && s.runs[j].phase.Running?
    ensures i == j
  {
    if i != j {
      MutualExclusion(cfg, actions, i, j);
    }
  }

  /** A lock taken when nobody holds it outlives the wall clock by a minute, to the second, unless it is released. */
  lemma LockLifetime(cfg: Config, actions: seq<Action>, seconds: nat)
    requires cfg.expires && Holder(Ran(cfg, IDLE, actions)).None?
    ensures Holder(Ran(cfg, IDLE, actions + [Spawn] + [Tick(seconds)])).Some? <==> seconds < cfg.wallClock + 60
  {
    assert (actions + [Spawn] + [Tick(seconds)])[..|actions| + 1] == actions + [Spawn];
    assert (actions + [Spawn])[..|actions|] == actions;
  }

  /** And no later: a run still going when the grace ends can be overlapped. */
  lemma OverlapAfterGrace(cfg: Config) returns (actions: seq<Action>)
    requires cfg.expires
    ensures var s := Ran(cfg, IDLE, actions);
      && StoppedWithin(cfg, s, GRACE)
      && |s.runs| == 2 && s.runs[0].phase.Running? && s.runs[1].phase.Running?
  {
    actions := [Spawn, Tick(cfg.wallClock + GRACE), Spawn];
    assert actions[..2] == [Spawn, Tick(cfg.wallClock + GRACE)] && actions[..2][..1] == [Spawn];
    assert Ran(cfg, IDLE, []) == IDLE;
    assert [Spawn][..0] == [];
    assert Ran(cfg, IDLE, [Spawn]) == Step(cfg, IDLE, Spawn);
    var second := Ran(cfg, IDLE, actions[..2]);
    assert second == Step(cfg, Step(cfg, IDLE, Spawn), Tick(cfg.wallClock + GRACE));
    assert Ran(cfg, IDLE, actions) == Step(cfg, second, Spawn);
  }

  // ----- The fence -----

  /** `later` follows `s`, in which `run` held the lock: until the expiry passes the lock is as it was. */
  predicate Keeps(s: Runner, later: Runner, run: nat) {
    && s.lock.Some? && s.lock.value.holder == run
    && s.now <= later.now && |s.runs| <= |later.runs|
    && (later.lock == s.lock || Passed(s.lock.value.expiry, later.now))
  }

  lemma KeepsStep(cfg: Config, s: Runner, later: Runner, a: Action, run: nat)
    requires Keeps(s, later, run) && a != Release(run)
    ensures Keeps(s, Step(cfg, later, a), run)
  {
  }

  /** From the spawn on, nothing but the holder's own release or the expiry takes the lock away: in particular
      no release by an earlier, expired token. */
  lemma {:induction false} HeldUntilReleased(cfg: Config, s: Runner, more: seq<Action>, run: nat)
    requires Holder(s) == Some(run) && Release(run) !in more
    ensures Keeps(s, Ran(cfg, s, more), run)
    ensures Holder(Ran(cfg, s, more)) == Some(run) || Passed(s.lock.value.expiry, Ran(cfg, s, more).now)
  {
    if more != [] {
      var front := more[..|more| - 1];
      HeldUntilReleased(cfg, s, front, run);
      KeepsStep(cfg, s, Ran(cfg, s, front), more[|more| - 1], run);
    }
  }

  // ----- When a run may start -----

  lemma HolderEntitled(cfg: Config, s: Runner)
    requires Inv(cfg, s) && Holder(s).Some?
    ensures Entitled(cfg, s, Holder(s).value)
  {
  }

  /** A spawn is refused exactly when an earlier run neither released its lock nor outlived it. */
  lemma SpawnRefusedIff(cfg: Config, actions: seq<Action>)
    ensures var s := Ran(cfg, IDLE, actions);
      |Step(cfg, s, Spawn).runs| == |s.runs| <==> exists run: nat :: Entitled(cfg, s, run)
  {
    Reachable(cfg, actions);
    var s := Ran(cfg, IDLE, actions);
    if Holder(s).Some? {
      HolderEntitled(cfg, s);
    }
  }

  /** A crashed run cannot wedge the session: after the lock's lifetime a spawn is granted. */
  lemma CrashNeverWedges(cfg: Config, actions: seq<Action>)
    requires cfg.expires
    ensures var later := Step(cfg, Ran(cfg, IDLE, actions), Tick(cfg.wallClock + GRACE));
      |Step(cfg, later, Spawn).runs| == |later.runs| + 1
  {
    StartedInThePast(cfg, actions);
    Reachable(cfg, actions);
    var s := Ran(cfg, IDLE, actions);
    StepInv(cfg, s, Tick(cfg.wallClock + GRACE));
    var later := Step(cfg, s, Tick(cfg.wallClock + GRACE));
    if Holder(later).Some? {
      HolderEntitled(cfg, later);
    }
  }

  predicate StartsPast(s: Runner) {
    forall run | 0 <= run < |s.runs| :: s.runs[run].started <= s.now
  }

  lemma {:induction false} StartedInThePast(cfg: Config, actions: seq<Action>)
    ensures StartsPast(Ran(cfg, IDLE, actions))
  {
    if actions != [] {
      StartedInThePast(cfg, actions[..|actions| - 1]);
    }
  }
}
