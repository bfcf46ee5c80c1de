/** The budget meter: reserve a slot, then settle or cancel it exactly once (src/services/budget.py). */
module Budget {
  import opened Schemas
  import opened Money
  import opened BudgetOps
  import opened StateStore

  /** A held reservation against one session's counter. */
  class Reservation<S, F, V> {
    const store: InMemoryStateStore<S, F, V>
    const key: string
    const estimate: Usd
    var closed: bool

    constructor (store: InMemoryStateStore<S, F, V>, key: string, estimate: Usd)
      ensures this.store == store && this.key == key && this.estimate == estimate && !closed
    {
      this.store, this.key, this.estimate, this.closed := store, key, estimate, false;
    }

    /** Applies the signed delta to the billed cost; without one the held estimate stays. A second close
        raises (`None`) and changes nothing. */
    method Settle(billed: Option<Usd>) returns (cost: Option<Usd>)
      modifies `closed, store`budget
      ensures closed
      ensures old(closed) ==> cost.None? && store.budget == old(store.budget)
      ensures !old(closed) ==>
        && cost == Some(SettledCost(estimate, billed))
        && store.Used(key) == SettledCounter(old(store.Used(key)), estimate, billed)
        && forall k | k != key :: store.Used(k) == old(store.Used(k))
    {
      if closed {
        return None;
      }
      closed := true;
      if billed.None? {
        return Some(estimate);
      }
      var delta := ToMicro(billed.value) - ToMicro(estimate);
      if delta != 0 {
        var _ := store.BudgetAdjust(key, delta);
      }
      cost := billed;
    }

    /** Refunds the whole estimate; on a closed reservation it raises (`false`) and changes nothing. */
    method Cancel() returns (ok: bool)
      modifies `closed, store`budget
      ensures closed
      ensures ok <==> !old(closed)
      ensures !ok ==> store.budget == old(store.budget)
      ensures ok ==>
        && store.Used(key) == CancelledCounter(old(store.Used(key)), estimate)
        && forall k | k != key :: store.Used(k) == old(store.Used(k))
    {
      if closed {
        return false;
      }
      closed := true;
      var _ := store.BudgetAdjust(key, -ToMicro(estimate));
      ok := true;
    }
  }

  /** Prices a reservation for one session and reserves it, or refuses. */
  class Meter<S, F, V> {
    const store: InMemoryStateStore<S, F, V>
    const key: string
    const limitMicro: int
    const flatEstimates: map<PaidCallKind, Usd>

    constructor (store: InMemoryStateStore<S, F, V>, key: string, limit: Usd, flatEstimates: map<PaidCallKind, Usd>)
      ensures this.store == store && this.key == key && this.limitMicro == ToMicro(limit)
      ensures this.flatEstimates == flatEstimates
    {
      this.store, this.key, this.limitMicro, this.flatEstimates := store, key, ToMicro(limit), flatEstimates;
    }

    /** The given estimate, else the flat one of the kind. */
    function Amount(kind: PaidCallKind, estimate: Option<Usd>): Usd
      requires estimate.Some? || kind in flatEstimates
    {
      if estimate.Some? then estimate.value else flatEstimates[kind]
    }

    method Reserve(kind: PaidCallKind, estimate: Option<Usd>) returns (held: Reservation?<S, F, V>)
      requires estimate.Some? || kind in flatEstimates
      modifies store`budget
      ensures held != null <==> Admits(old(store.Used(key)), ToMicro(Amount(kind, estimate)), limitMicro)
      ensures held == null ==> store.budget == old(store.budget)
      ensures held != null ==>
        && fresh(held) && held.store == store && held.key == key && !held.closed
        && held.estimate == Amount(kind, estimate)
        && store.budget == old(store.budget)[key := old(store.Used(key)) + ToMicro(held.estimate)]
    {
      var amount := Amount(kind, estimate);
      var granted := store.BudgetReserve(key, ToMicro(amount), limitMicro);
      if !granted {
        return null;
      }
      held := new Reservation(store, key, amount);
    }
  }
}
