/** The runner of one process: its task table, the run lock, and what it narrates (src/api/deps.py). Overlap of
    processes, expiry and late releases are the subject of RunLock.dfy. */
module SessionRunner {
  import opened Schemas
  import opened ChainSpec
  import opened StateStore
  import opened Money
  import ChainRecord

  /** How a graph invocation comes back. */
  datatype Outcome = Finished | Paused(slot: string) | Raised | TimedOut | CancelledTask

  function LockKey(key: string): string {
    "run:" + key
  }

  lemma LockKeyInjective(a: string, b: string)
    ensures LockKey(a) == LockKey(b) ==> a == b
  {
    assert LockKey(a)[4..] == a && LockKey(b)[4..] == b;
  }

  /** The spend a terminal event reports: from the record, or zeros when there is none. */
  function Accounting(code: FailureCode, session: Option<Session>): Event {
    if session.None? then FailedEvent(code, 0, 0, 0.0)
    else FailedEvent(code, |session.value.iterations|, GenerationsSpent(session.value.iterations),
        CostSpent(session.value))
  }

  /** A terminal event of the runner counts what the record holds: every attempt, those charged, and every cost. */
  lemma AccountingTells(code: FailureCode, session: Session)
    ensures var e := Accounting(code, Some(session));
      && e.FailedEvent? && e.code == code && e.iterationsUsed == |session.iterations|
      && e.generationsSpent == |ChainRecord.ChargedAttempts(session.iterations)|
      && e.costSpent == SumUsd(IterationCosts(session.iterations)) + SumUsd(CallCosts(session.llmCalls))
  {
    ChainRecord.SpentCountsCharged(session.iterations);
  }

  /** What the outside sees of a run's end: the release of its lock, and an event on the stream. */
  datatype Act = Freed(key: string, token: string) | Told(key: string, event: Event)

  class Runner {
    const store: InMemoryStateStore<Session, Face, Event>
    const bus: InMemoryEventBus
    // The token of each session's latest run that has not been reaped.
    var tasks: map<string, string>

    // The tokens this process drew, and its acts in order.
    ghost var issued: set<string>
    ghost var acts: seq<Act>

    constructor (store: InMemoryStateStore<Session, Face, Event>, bus: InMemoryEventBus)
      ensures this.store == store && this.bus == bus && tasks == map[] && issued == {} && acts == [] && Valid()
    {
      this.store, this.bus, this.tasks, this.issued, this.acts := store, bus, map[], {}, [];
    }

    /** A session's run lock held by a run of this process is held by the run registered for it: the one `Cancel`
        reaches. Locks of other replicas may be there as well. */
    ghost predicate Valid()
      reads this, store
    {
      forall key: string :: LockKey(key) in store.locks && store.locks[LockKey(key)] in issued ==>
        key in tasks && tasks[key] == store.locks[LockKey(key)]
    }

    ghost function Stored(key: string): Option<Session>
      reads store
    {
      if key in store.sessions then Some(store.sessions[key]) else None
    }

    /** One in-flight run per session: refused while anyone holds the lock. A token is fresh. */
    method Spawn(key: string, token: string) returns (started: bool)
      requires Valid() && token !in issued && token !in store.locks.Values
      modifies this`tasks, this`issued, store`locks
      ensures Valid()
      ensures started <==> LockKey(key) !in old(store.locks)
      ensures store.locks == if started then old(store.locks)[LockKey(key) := token] else old(store.locks)
      ensures tasks == if started then old(tasks)[key := token] else old(tasks)
      ensures issued == if started then old(issued) + {token} else old(issued)
    {
      hide LockKey;
      started := store.AcquireLock(LockKey(key), token);
      if started {
        tasks := tasks[key := token];
        issued := issued + {token};
      }
      forall other: string ensures LockKey(other) == LockKey(key) ==> other == key {
        LockKeyInjective(other, key);
      }
    }

    /** The end of a run: its own lock is freed and its own table entry reaped, nobody else's. */
    method Finish(key: string, token: string)
      requires Valid()
      modifies this`tasks, this`acts, store`locks
      ensures Valid()
      ensures store.locks == if LockKey(key) in old(store.locks) && old(store.locks)[LockKey(key)] == token
                             then old(store.locks) - {LockKey(key)} else old(store.locks)
      ensures tasks == if key in old(tasks) && old(tasks)[key] == token then old(tasks) - {key} else old(tasks)
      ensures acts == old(acts) + [Freed(key, token)]
    {
      hide LockKey;
      var _ := store.ReleaseLock(LockKey(key), token);
      acts := acts + [Freed(key, token)];
      if key in tasks && tasks[key] == token {
        tasks := tasks - {key};
      }
      forall other: string ensures LockKey(other) == LockKey(key) ==> other == key {
        LockKeyInjective(other, key);
      }
    }

    method Tell(key: string, e: Event)
      modifies this`acts, bus
      ensures acts == old(acts) + [Told(key, e)]
      ensures bus.streams == old(bus.streams)[key := old(bus.Stream(key)) + [e]]
    {
      var _ := bus.Publish(key, e);
      acts := acts + [Told(key, e)];
    }

    /** Overwrites the stored state, whatever it was, and closes the stream with the record's spend. */
    method Terminate(key: string, state: FsmState, code: FailureCode)
      modifies this`acts, store`sessions, bus
      ensures Stored(key) == if old(Stored(key)).Some? then Some(old(Stored(key)).value.(fsmState := state)) else None
      ensures forall other | other != key :: Stored(other) == old(Stored(other))
      ensures bus.streams == old(bus.streams)[key := old(bus.Stream(key)) + [Accounting(code, old(Stored(key)))]]
      ensures acts == old(acts) + [Told(key, Accounting(code, old(Stored(key))))]
    {
      hide Accounting;
      var session := store.GetSession(key);
      if session.Some? {
        store.PutSession(key, session.value.(fsmState := state));
      }
      Tell(key, Accounting(code, session));
    }

    /** What each outcome of an invocation puts on the stream. */
    ghost function Narration(key: string, outcome: Outcome): seq<Event>
      reads store
    {
      match outcome
      case Finished => []
      case CancelledTask => []
      case Paused(slot) => [NeedInputEvent(slot)]
      case Raised => [FailedEvent(Internal, 0, 0, 0.0)]
      case TimedOut => [Accounting(WallClock, Stored(key))]
    }

    /** A run from its graph invocation's outcome to its end. The lock is released before anything is narrated; only a
        timeout touches the stored session; a cancelled run leaves the narration to its canceller. */
    method Conclude(key: string, token: string, outcome: Outcome)
      requires Valid()
      modifies this`tasks, this`acts, store`locks, store`sessions, bus
      ensures Valid()
      ensures LockKey(key) in store.locks ==> store.locks[LockKey(key)] != token
      ensures store.locks == if LockKey(key) in old(store.locks) && old(store.locks)[LockKey(key)] == token
                             then old(store.locks) - {LockKey(key)} else old(store.locks)
      ensures tasks == if key in old(tasks) && old(tasks)[key] == token then old(tasks) - {key} else old(tasks)
      ensures Stored(key) == if outcome.TimedOut? && old(Stored(key)).Some?
                             then Some(old(Stored(key)).value.(fsmState := Failed)) else old(Stored(key))
      ensures bus.Stream(key) == old(bus.Stream(key)) + old(Narration(key, outcome))
      ensures |acts| == |old(acts)| + 1 + |old(Narration(key, outcome))|
      ensures acts[..|old(acts)|] == old(acts) && acts[|old(acts)|] == Freed(key, token)
      ensures forall i | 0 <= i < |old(Narration(key, outcome))| ::
        acts[|old(acts)| + 1 + i] == Told(key, old(Narration(key, outcome))[i])
    {
      Finish(key, token);
      hide LockKey, Accounting;
      match outcome
      case Finished =>
      case CancelledTask =>
      case Paused(slot) =>
        Tell(key, NeedInputEvent(slot));
      case Raised =>
        Tell(key, FailedEvent(Internal, 0, 0, 0.0));
      case TimedOut =>
        Terminate(key, Failed, WallClock);
    }

    /** Cancel reaches the run of this process that holds the lock: afterwards none does, and the session is marked and
        closed. A lock of another replica stays. */
    method Cancel(key: string)
      requires Valid()
      modifies this`tasks, this`acts, store`locks, store`sessions, bus
      ensures Valid() && key !in tasks
      ensures LockKey(key) in store.locks ==>
        store.locks[LockKey(key)] !in issued
        && LockKey(key) in old(store.locks) && store.locks[LockKey(key)] == old(store.locks)[LockKey(key)]
      ensures Stored(key) == if old(Stored(key)).Some?
                             then Some(old(Stored(key)).value.(fsmState := FsmState.Cancelled)) else None
      ensures bus.Stream(key) == old(bus.Stream(key)) + [Accounting(CancelledByCaller, old(Stored(key)))]
    {
      hide Accounting;
      if key in tasks {
        Conclude(key, tasks[key], CancelledTask);
      }
      hide LockKey;
      Terminate(key, FsmState.Cancelled, CancelledByCaller);
    }
  }
}
