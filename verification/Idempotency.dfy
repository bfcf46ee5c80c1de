/** Run-once per key: any number of interleaved callers, with and without expiry of the record
    (src/services/idempotency.py). */
module Idempotency {
  import opened Schemas

  /** One `run_once` call, between two of its store steps. */
  datatype Caller<V> =
    | Entering
    | Missed
    | Produced(result: V)
    | Beaten(result: V)
    | Returned(value: V, replayed: bool, kept: nat)
    | Failed(vanished: bool)

  /** The record under the key, every value ever recorded, every value some caller's own `op` returned, how
      many times `op` was started and how often a record expired. `kept` in `Returned` counts the values
      recorded up to the return. */
  datatype State<V> = State(
    record: Option<V>,
    kept: seq<V>,
    produced: set<V>,
    started: nat,
    expiries: nat,
    callers: seq<Caller<V>>)

  datatype Action<V> =
    | Enter
    | Get(caller: nat)
    | OpReturns(caller: nat, value: V)
    | OpRaises(caller: nat)
    | Put(caller: nat)
    | Reread(caller: nat)
    | Expire

  function Fresh<V(==)>(): State<V> {
    State(None, [], {}, 0, 0, [])
  }

  function To<V(==)>(s: State<V>, i: nat, c: Caller<V>): State<V>
    requires i < |s.callers|
  {
    s.(callers := s.callers[i := c])
  }

  /** An action that does not apply to its caller changes nothing. */
  function Step<V(==)>(s: State<V>, a: Action<V>): State<V> {
    match a
    case Enter => s.(callers := s.callers + [Entering])
    case Get(i) =>
      if i < |s.callers| && s.callers[i].Entering? then
        if s.record.Some? then To(s, i, Returned(s.record.value, true, |s.kept|))
        else To(s, i, Missed).(started := s.started + 1)
      else s
    case OpReturns(i, v) =>
      if i < |s.callers| && s.callers[i].Missed? then To(s, i, Produced(v)).(produced := s.produced + {v}) else s
    case OpRaises(i) =>
      if i < |s.callers| && s.callers[i].Missed? then To(s, i, Caller.Failed(false)) else s
    case Put(i) =>
      if i < |s.callers| && s.callers[i].Produced? then
        var v := s.callers[i].result;
        if s.record.Some? then To(s, i, Beaten(v))
        else To(s, i, Returned(v, false, |s.kept| + 1)).(record := Some(v), kept := s.kept + [v])
      else s
    case Reread(i) =>
      if i < |s.callers| && s.callers[i].Beaten? then
        if s.record.Some? then To(s, i, Returned(s.record.value, true, |s.kept|)) else To(s, i, Caller.Failed(true))
      else s
    case Expire =>
      if s.record.Some? then s.(record := None, expiries := s.expiries + 1) else s
  }

  function Ran<V(==)>(s: State<V>, actions: seq<Action<V>>): State<V> {
    if actions == [] then s else Step(Ran(s, actions[..|actions| - 1]), actions[|actions| - 1])
  }

  // ----- The invariant -----

  predicate CallerOk<V(==)>(s: State<V>, c: Caller<V>) {
    match c
    case Produced(v) => v in s.produced
    case Beaten(v) => v in s.produced && (s.expiries == 0 ==> s.record.Some?)
    case Returned(v, _, k) => 0 < k <= |s.kept| && s.kept[k - 1] == v
    case Failed(vanished) => vanished ==> s.expiries > 0
    case _ => true
  }

  predicate Inv<V(==)>(s: State<V>) {
    && |s.kept| == s.expiries + (if s.record.Some? then 1 else 0)
    && (s.record.Some? ==> s.record.value == s.kept[|s.kept| - 1])
    && (forall v | v in s.kept :: v in s.produced)
    && (forall i | 0 <= i < |s.callers| :: CallerOk(s, s.callers[i]))
  }

  lemma StepInv<V>(s: State<V>, a: Action<V>)
    requires Inv(s)
    ensures Inv(Step(s, a))
  {
    var s' := Step(s, a);
    assert s'.kept == s.kept || s'.kept[..|s.kept|] == s.kept;
    forall i | 0 <= i < |s'.callers| ensures CallerOk(s', s'.callers[i]) {
      assert i < |s.callers| ==> CallerOk(s, s.callers[i]);
    }
  }

  lemma {:induction false} Reachable<V>(actions: seq<Action<V>>)
    ensures Inv(Ran(Fresh<V>(), actions))
  {
    if actions != [] {
      Reachable(actions[..|actions| - 1]);
      StepInv(Ran(Fresh<V>(), actions[..|actions| - 1]), actions[|actions| - 1]);
    }
  }

  // ----- Agreement -----

  predicate NeverExpires<V(==)>(actions: seq<Action<V>>) {
    Expire !in actions
  }

  lemma {:induction false} NoExpiries<V>(actions: seq<Action<V>>)
    requires NeverExpires(actions)
    ensures Ran(Fresh<V>(), actions).expiries == 0
  {
    if actions != [] {
      NoExpiries(actions[..|actions| - 1]);
    }
  }

  /** Two normal returns under the same record agree, and that record came from some caller's own `op`. */
  lemma AgreementPerRecord<V>(actions: seq<Action<V>>, i: nat, j: nat)
    requires var s := Ran(Fresh<V>(), actions);
      && i < |s.callers| && j < |s.callers| && s.callers[i].Returned? && s.callers[j].Returned?
      && s.callers[i].kept == s.callers[j].kept
    ensures var s := Ran(Fresh<V>(), actions);
      s.callers[i].value == s.callers[j].value && s.callers[i].value in s.produced
  {
    Reachable(actions);
    var s := Ran(Fresh<V>(), actions);
    assert CallerOk(s, s.callers[i]) && CallerOk(s, s.callers[j]);
  }

  /** Without expiry there is one record: every normal return carries it, some `op` produced it, and no caller
      ever finds it vanished. */
  lemma Agreement<V>(actions: seq<Action<V>>, i: nat)
    requires NeverExpires(actions)
    requires i < |Ran(Fresh<V>(), actions).callers|
    ensures var s := Ran(Fresh<V>(), actions);
      && (s.callers[i].Returned? ==> s.record == Some(s.callers[i].value) && s.callers[i].value in s.produced)
      && (s.callers[i].Failed? ==> !s.callers[i].vanished)
  {
    NoExpiries(actions);
    Reachable(actions);
    var s := Ran(Fresh<V>(), actions);
    assert CallerOk(s, s.callers[i]);
  }

  /** Once set, the record does not change until it expires. */
  lemma {:induction false} RecordPermanent<V>(s: State<V>, more: seq<Action<V>>)
    requires s.record.Some? && NeverExpires(more)
    ensures Ran(s, more).record == s.record
  {
    if more != [] {
      RecordPermanent(s, more[..|more| - 1]);
    }
  }

  // ----- Exactly one effect -----

  function FreshReturns<V(==)>(callers: seq<Caller<V>>): nat {
    if callers == [] then 0
    else
      var last := callers[|callers| - 1];
      FreshReturns(callers[..|callers| - 1]) + (if last.Returned? && !last.replayed then 1 else 0)
  }

  lemma {:induction false} FreshUpdate<V>(callers: seq<Caller<V>>, i: nat, c: Caller<V>)
    requires i < |callers| && !(callers[i].Returned? && !callers[i].replayed)
    ensures FreshReturns(callers[i := c]) == FreshReturns(callers) + (if c.Returned? && !c.replayed then 1 else 0)
  {
    var front := callers[..|callers| - 1];
    if i < |callers| - 1 {
      FreshUpdate(front, i, c);
      assert callers[i := c][..|callers| - 1] == front[i := c];
    } else {
      assert callers[i := c][..|callers| - 1] == front;
    }
  }

  /** As many returns are not replays as values were ever recorded: without expiry, exactly one once a record
      exists. A raising `op` records nothing. */
  lemma {:induction false} OneFreshReturnPerRecord<V>(actions: seq<Action<V>>)
    ensures var s := Ran(Fresh<V>(), actions); FreshReturns(s.callers) == |s.kept|
  {
    if actions != [] {
      var front, a := actions[..|actions| - 1], actions[|actions| - 1];
      OneFreshReturnPerRecord(front);
      var s := Ran(Fresh<V>(), front);
      if a.Enter? {
        assert (s.callers + [Entering])[..|s.callers|] == s.callers;
      } else if !a.Expire? && a.caller < |s.callers| {
        var c := Step(s, a).callers[a.caller];
        if c != s.callers[a.caller] {
          FreshUpdate(s.callers, a.caller, c);
        }
      }
    }
  }

  /** A caller that looks only after the record exists never starts `op`: it replays. */
  lemma {:induction false} LateCallerReplays<V>(s: State<V>, more: seq<Action<V>>, i: nat)
    requires s.record.Some? && NeverExpires(more)
    requires i < |s.callers| && s.callers[i].Entering?
    ensures var later := Ran(s, more);
      i < |later.callers| && (later.callers[i].Entering? || later.callers[i] == Returned(s.record.value, true,
          |s.kept|))
    ensures Ran(s, more).kept == s.kept
  {
    if more != [] {
      LateCallerReplays(s, more[..|more| - 1], i);
      RecordPermanent(s, more[..|more| - 1]);
    }
  }

  /** So no `op` starts at all once the record exists. */
  lemma {:induction false} NoLateStarts<V>(s: State<V>, more: seq<Action<V>>)
    requires s.record.Some? && NeverExpires(more)
    ensures Ran(s, more).started == s.started
  {
    if more != [] {
      NoLateStarts(s, more[..|more| - 1]);
      RecordPermanent(s, more[..|more| - 1]);
    }
  }

  // ----- What it does not promise -----

  lemma Then<V>(s: State<V>, actions: seq<Action<V>>, a: Action<V>) returns (longer: seq<Action<V>>)
    ensures longer == actions + [a] && Ran(s, longer) == Step(Ran(s, actions), a)
  {
    longer := actions + [a];
    assert longer[..|actions|] == actions;
  }

  /** Some caller has returned normally since the last expiry: under the current record. */
  predicate SomeoneReturned<V(==)>(s: State<V>) {
    exists i | 0 <= i < |s.callers| :: s.callers[i].Returned? && s.callers[i].kept > s.expiries
  }

  /** A record is there because its caller put it and returned. */
  lemma {:induction false} RecordReturned<V>(actions: seq<Action<V>>)
    ensures var s := Ran(Fresh<V>(), actions); s.record.Some? ==> SomeoneReturned(s)
  {
    if actions != [] {
      var front, a := actions[..|actions| - 1], actions[|actions| - 1];
      RecordReturned(front);
      Reachable(front);
      var s := Ran(Fresh<V>(), front);
      var s' := Step(s, a);
      if s'.record.Some? {
        if s.record.Some? {
          var k :| 0 <= k < |s.callers| && s.callers[k].Returned? && s.callers[k].kept > s.expiries;
          assert s'.callers[k] == s.callers[k];
        } else {
          assert s'.callers[a.caller].Returned? && s'.callers[a.caller].kept > s'.expiries;
        }
      }
    }
  }

  /** Exactly when `op` runs again: a caller that looks starts it if and only if no caller has returned under the
      current record. Concurrent callers and callers after a raised `op` are the cases. */
  lemma OpStartsIff<V>(actions: seq<Action<V>>, i: nat)
    requires var s := Ran(Fresh<V>(), actions); i < |s.callers| && s.callers[i].Entering?
    ensures var s := Ran(Fresh<V>(), actions);
      Step(s, Get(i)).started == s.started + 1 <==> !SomeoneReturned(s)
    ensures var s := Ran(Fresh<V>(), actions);
      NeverExpires(actions) ==>
        (Step(s, Get(i)).started == s.started + 1 <==> forall k | 0 <= k < |s.callers| :: !s.callers[k].Returned?)
  {
    Reachable(actions);
    RecordReturned(actions);
    var s := Ran(Fresh<V>(), actions);
    if NeverExpires(actions) {
      NoExpiries(actions);
      assert forall k | 0 <= k < |s.callers| :: CallerOk(s, s.callers[k]);
    }
    if SomeoneReturned(s) {
      var k :| 0 <= k < |s.callers| && s.callers[k].Returned? && s.callers[k].kept > s.expiries;
      assert CallerOk(s, s.callers[k]);
    }
  }

  /** Callers take turns: one that looks while more starts than expiries lie behind it finds someone returned under
      the current record. */
  predicate InTurn<V(==)>(actions: seq<Action<V>>) {
    forall k | 0 <= k < |actions| && actions[k].Get? ::
      var s := Ran(Fresh<V>(), actions[..k]); s.started > s.expiries ==> SomeoneReturned(s)
  }

  /** At most once, for callers that start only after an earlier one returned: `op` starts once per record, hence once
      when the record never expires. */
  lemma {:induction false} AtMostOncePerRecord<V>(actions: seq<Action<V>>)
    requires InTurn(actions)
    ensures var s := Ran(Fresh<V>(), actions); s.started <= s.expiries + 1
    ensures NeverExpires(actions) ==> Ran(Fresh<V>(), actions).started <= 1
  {
    if actions != [] {
      var front, a := actions[..|actions| - 1], actions[|actions| - 1];
      assert forall k | 0 <= k < |front| :: front[..k] == actions[..k];
      AtMostOncePerRecord(front);
      var s := Ran(Fresh<V>(), front);
      if a.Get? && a.caller < |s.callers| && s.callers[a.caller].Entering? {
        OpStartsIff(front, a.caller);
        assert actions[|actions| - 1].Get? && Ran(Fresh<V>(), actions[..|actions| - 1]) == s;
      }
    }
    if NeverExpires(actions) {
      NoExpiries(actions);
    }
  }

  /** A caller that arrives after an `op` that raised runs it again. */
  lemma RaisedOpRunsAgain<V>() returns (actions: seq<Action<V>>)
    ensures var s := Ran(Fresh<V>(), actions);
      NeverExpires(actions) && s.started == 2 && s.callers == [Caller.Failed(false), Missed]
  {
    actions := [];
    actions := Then(Fresh<V>(), actions, Enter);
    actions := Then(Fresh<V>(), actions, Get(0));
    actions := Then(Fresh<V>(), actions, OpRaises(0));
    actions := Then(Fresh<V>(), actions, Enter);
    actions := Then(Fresh<V>(), actions, Get(1));
  }

  /** Not at most once: two callers that both look before either records both run `op`. */
  lemma ConcurrentCallersBothRun<V>(first: V, second: V) returns (actions: seq<Action<V>>)
    ensures var s := Ran(Fresh<V>(), actions);
      NeverExpires(actions) && s.started == 2
      && s.callers == [Returned(first, false, 1), Returned(first, true, 1)]
  {
    actions := [];
    actions := Then(Fresh<V>(), actions, Enter);
    actions := Then(Fresh<V>(), actions, Enter);
    actions := Then(Fresh<V>(), actions, Get(0));
    actions := Then(Fresh<V>(), actions, Get(1));
    actions := Then(Fresh<V>(), actions, OpReturns(0, first));
    actions := Then(Fresh<V>(), actions, OpReturns(1, second));
    actions := Then(Fresh<V>(), actions, Put(0));
    actions := Then(Fresh<V>(), actions, Put(1));
    actions := Then(Fresh<V>(), actions, Reread(1));
  }

  /** Across an expiry two callers may return different bytes. */
  lemma ExpiryBreaksAgreement<V>(first: V, second: V) returns (actions: seq<Action<V>>)
    ensures Ran(Fresh<V>(), actions).callers == [Returned(first, false, 1), Returned(second, false, 2)]
  {
    actions := [];
    actions := Then(Fresh<V>(), actions, Enter);
    actions := Then(Fresh<V>(), actions, Get(0));
    actions := Then(Fresh<V>(), actions, OpReturns(0, first));
    actions := Then(Fresh<V>(), actions, Put(0));
    actions := Then(Fresh<V>(), actions, Expire);
    actions := Then(Fresh<V>(), actions, Enter);
    actions := Then(Fresh<V>(), actions, Get(1));
    actions := Then(Fresh<V>(), actions, OpReturns(1, second));
    actions := Then(Fresh<V>(), actions, Put(1));
  }
}
