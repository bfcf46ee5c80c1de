/** The in-memory state store and event bus (src/services/connectors/memory_store.py). */
module StateStore {
  import opened Schemas
  import opened BudgetOps

  /** Sessions, faces, locks, idempotency records and budget counters, each in its own map. */
  class InMemoryStateStore<S, F, V> {
    var sessions: map<string, S>
    var faces: map<string, F>
    var locks: map<string, string>
    var idem: map<string, V>
    var budget: map<string, int>

    constructor ()
      ensures sessions == map[] && faces == map[] && locks == map[] && idem == map[] && budget == map[]
    {
      sessions, faces, locks, idem, budget := map[], map[], map[], map[], map[];
    }

    function Used(key: string): int
      reads this`budget
    {
      if key in budget then budget[key] else 0
    }

    method GetSession(key: string) returns (s: Option<S>)
      ensures s == if key in sessions then Some(sessions[key]) else None
    {
      s := if key in sessions then Some(sessions[key]) else None;
    }

    method PutSession(key: string, s: S)
      modifies this`sessions
      ensures sessions == old(sessions)[key := s]
    {
      sessions := sessions[key := s];
    }

    method GetFace(key: string) returns (f: Option<F>)
      ensures f == if key in faces then Some(faces[key]) else None
    {
      f := if key in faces then Some(faces[key]) else None;
    }

    method PutFace(key: string, f: F)
      modifies this`faces
      ensures faces == old(faces)[key := f]
    {
      faces := faces[key := f];
    }

    /** Set if absent: only one token can hold a key. */
    method AcquireLock(key: string, token: string) returns (acquired: bool)
      modifies this`locks
      ensures acquired <==> key !in old(locks)
      ensures locks == if acquired then old(locks)[key := token] else old(locks)
    {
      if key in locks {
        return false;
      }
      locks := locks[key := token];
      acquired := true;
    }

    /** Token fence: only the holder's token frees the lock. */
    method ReleaseLock(key: string, token: string) returns (released: bool)
      modifies this`locks
      ensures released <==> key in old(locks) && old(locks)[key] == token
      ensures locks == if released then old(locks) - {key} else old(locks)
    {
      if key !in locks || locks[key] != token {
        return false;
      }
      locks := locks - {key};
      released := true;
    }

    method IdemGet(key: string) returns (v: Option<V>)
      ensures v == if key in idem then Some(idem[key]) else None
    {
      v := if key in idem then Some(idem[key]) else None;
    }

    /** Set if absent: the first value stored under a key is the one kept. */
    method IdemPut(key: string, value: V) returns (stored: bool)
      modifies this`idem
      ensures stored <==> key !in old(idem)
      ensures idem == if stored then old(idem)[key := value] else old(idem)
    {
      if key in idem {
        return false;
      }
      idem := idem[key := value];
      stored := true;
    }

    /** Compare with the limit and add the estimate in one step. */
    method BudgetReserve(key: string, estimateMicro: int, limitMicro: int) returns (granted: bool)
      modifies this`budget
      ensures granted <==> Admits(old(Used(key)), estimateMicro, limitMicro)
      ensures budget == if granted then old(budget)[key := old(Used(key)) + estimateMicro] else old(budget)
    {
      var used := Used(key);
      if used + estimateMicro > limitMicro {
        return false;
      }
      budget := budget[key := used + estimateMicro];
      granted := true;
    }

    /** Apply a signed delta, floored at zero. */
    method BudgetAdjust(key: string, deltaMicro: int) returns (now: int)
      modifies this`budget
      ensures now == Adjusted(old(Used(key)), deltaMicro)
      ensures budget == old(budget)[key := now]
    {
      var sum := Used(key) + deltaMicro;
      now := if sum > 0 then sum else 0;
      budget := budget[key := now];
    }
  }

  /** Per-session append-only streams; stream ids are 1-based positions. */
  class InMemoryEventBus {
    var streams: map<string, seq<Event>>

    constructor ()
      ensures streams == map[]
    {
      streams := map[];
    }

    function Stream(key: string): seq<Event>
      reads this
    {
      if key in streams then streams[key] else []
    }

    method Publish(key: string, e: Event) returns (id: nat)
      modifies this
      ensures streams == old(streams)[key := old(Stream(key)) + [e]]
      ensures id == |Stream(key)|
    {
      streams := streams[key := Stream(key) + [e]];
      id := |streams[key]|;
    }
  }
}
