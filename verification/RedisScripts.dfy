/** The Redis twins of the store's atomic operations, read, compared and written one command at a time
    (src/utils/lua.py). A key that expired is absent. */
module RedisScripts {
  import opened BudgetOps

  class Keys {
    var counters: map<string, int>
    var tokens: map<string, string>

    constructor ()
      ensures counters == map[] && tokens == map[]
    {
      counters, tokens := map[], map[];
    }

    function Used(key: string): int
      reads this`counters
    {
      if key in counters then counters[key] else 0
    }

    /** The reserve script answers and changes the counter as the in-memory reservation does. */
    method BudgetReserve(key: string, estimate: int, limit: int) returns (reply: int)
      modifies this`counters
      ensures reply == if Admits(old(Used(key)), estimate, limit) then 1 else 0
      ensures counters == if reply == 1 then old(counters)[key := old(Used(key)) + estimate] else old(counters)
    {
      var used := 0;
      if key in counters {
        used := counters[key];
      }
      if used + estimate > limit {
        return 0;
      }
      counters := counters[key := Used(key) + estimate];
      reply := 1;
    }

    /** The adjust script floors at zero as the in-memory adjustment does. */
    method BudgetAdjust(key: string, delta: int) returns (v: int)
      modifies this`counters
      ensures v == Adjusted(old(Used(key)), delta)
      ensures counters == old(counters)[key := v]
    {
      v := Used(key) + delta;
      if v < 0 {
        v := 0;
      }
      counters := counters[key := v];
    }

    /** Compare and delete: a lock re-acquired by another token stays. */
    method ReleaseLockIfHeld(key: string, token: string) returns (reply: int)
      modifies this`tokens
      ensures reply == if key in old(tokens) && old(tokens)[key] == token then 1 else 0
      ensures tokens == if reply == 1 then old(tokens) - {key} else old(tokens)
    {
      reply := 0;
      if key in tokens && tokens[key] == token {
        tokens := tokens - {key};
        reply := 1;
      }
    }
  }
}
