/** The in-memory budget repository, updated in place, against the functions of BudgetLedger. */
module BudgetRepository {
  import opened Results
  import opened BudgetLedger
  import Ledger = BudgetLedger

  lemma Grows(history: seq<Call>, c: Call)
    ensures Run(history + [c]) == Step(Run(history), c).0
  {
    assert (history + [c])[..|history + [c]| - 1] == history;
  }

  class InMemoryMppBudgetRepository {
    var counters: map<CounterKey, Counter>
    var reservations: map<string, Reservation>
    var nextId: nat
    ghost var history: seq<Call>

    function Contents(): Budget
      reads this
    {
      Budget(counters, reservations, nextId)
    }

    /** The ledger is in the state its calls so far lead to. */
    ghost predicate Reached()
      reads this
    {
      Contents() == Run(history)
    }

    constructor ()
      ensures Reached() && history == []
    {
      counters, reservations, nextId, history := map[], map[], 0, [];
    }

    method SetDefault(k: CounterKey, limit: int)
      modifies this`counters
      ensures counters == old(counters)[k := Lookup(old(counters), k, limit)]
    {
      if k !in counters {
        counters := counters[k := Counter(limit, 0, 0, 1)];
      }
    }

    /** The counters of the Task and of the day, created where missing, with the profile's limits. */
    method PrepareCounters(p: Limits, tk: CounterKey, dk: CounterKey)
      requires tk != dk
      modifies this`counters
      ensures counters == old(counters)[tk := Lookup(old(counters), tk, p.perTask).(limit := p.perTask)]
                                       [dk := Lookup(old(counters), dk, p.daily).(limit := p.daily)]
    {
      SetDefault(tk, p.perTask);
      SetDefault(dk, p.daily);
      counters := counters[tk := counters[tk].(limit := p.perTask)];
      counters := counters[dk := counters[dk].(limit := p.daily)];
    }

    /** Holds the amount in both counters under a new reservation. */
    method HoldAmount(p: Limits, o: Order, tk: CounterKey, dk: CounterKey) returns (r: Reservation)
      requires tk in counters && dk in counters && tk != dk
      modifies this`counters, this`reservations, this`nextId
      ensures r == NewReservation(old(Contents()), p, o)
      ensures counters
        == old(counters)[tk := Hold(old(counters)[tk], o.amount)][dk := Hold(old(counters)[dk], o.amount)]
      ensures reservations == old(reservations)[o.idempotencyKey := r] && nextId == old(nextId) + 1
    {
      counters := counters[tk := Hold(counters[tk], o.amount)];
      counters := counters[dk := Hold(counters[dk], o.amount)];
      r := NewReservation(Contents(), p, o);
      nextId := nextId + 1;
      reservations := reservations[o.idempotencyKey := r];
    }

    method ReserveFresh(p: Limits, o: Order) returns (reply: Reply)
      requires o.amount > 0 && o.idempotencyKey !in reservations
      modifies this`counters, this`reservations, this`nextId
      ensures (Contents(), reply) == Ledger.Reserve(old(Contents()), p, o)
    {
      var tk := TaskKey(p.profileId, o.taskId);
      var dk := DailyKey(p.profileId, o.agentId, Day(o.now));
      PrepareCounters(p, tk, dk);
      if o.amount > p.perPayment {
        return Failure(OverPaymentLimit);
      }
      if Available(counters[tk]) < o.amount {
        return Failure(TaskExhausted);
      }
      if Available(counters[dk]) < o.amount {
        return Failure(DailyExhausted);
      }
      ghost var task, daily := counters[tk], counters[dk];
      var r := HoldAmount(p, o, tk, dk);
      assert counters == old(counters)[tk := Hold(task, o.amount)][dk := Hold(daily, o.amount)];
      return Success((r, false));
    }

    method Reserve(p: Limits, o: Order) returns (reply: Reply)
      requires Reached()
      modifies this
      ensures Reached() && history == old(history) + [ReserveCall(p, o)]
      ensures (Contents(), reply) == Ledger.Reserve(old(Contents()), p, o)
    {
      Grows(history, ReserveCall(p, o));
      history := history + [ReserveCall(p, o)];
      if o.amount <= 0 {
        return Failure(AmountNotPositive);
      }
      if o.idempotencyKey in reservations {
        var existing := reservations[o.idempotencyKey];
        return if SamePayment(existing, p, o) then Success((existing, true)) else Failure(BoundToAnotherPayment);
      }
      reply := ReserveFresh(p, o);
    }

    /** Scans the reservations for an identifier. */
    method Find(id: nat) returns (key: Option<string>)
      ensures key.Some? ==> key.value in reservations && reservations[key.value].id == id
      ensures key.None? ==> forall k :: k in reservations ==> reservations[k].id != id
    {
      var left := reservations.Keys;
      while left != {}
        invariant left <= reservations.Keys
        invariant forall k :: k in reservations && k !in left ==> reservations[k].id != id
        decreases left
      {
        var k :| k in left;
        if reservations[k].id == id {
          return Some(k);
        }
        left := left - {k};
      }
      return None;
    }

    method MoveTo(key: string, target: ReservationStatus) returns (reply: Reply)
      requires key in reservations
      modifies this`counters, this`reservations
      ensures (Contents(), reply) == Move(old(Contents()), key, target)
    {
      var r := reservations[key];
      if !r.status.Reserved? {
        return Failure(NotReserved(r.status));
      }
      var tk, dk := TaskKeyOf(r), DailyKeyOf(r);
      if tk !in counters || dk !in counters {
        return Failure(CounterMissing);
      }
      counters := counters[tk := Settle(counters[tk], r.amount, target)];
      counters := counters[dk := Settle(counters[dk], r.amount, target)];
      var moved := r.(status := target);
      reservations := reservations[key := moved];
      return Success((moved, false));
    }

    method Consume(id: nat) returns (reply: Reply)
      requires Reached()
      modifies this
      ensures Reached()
      ensures forall k :: k in old(reservations) && old(reservations)[k].id == id ==>
        (Contents(), reply) == Step(old(Contents()), ConsumeCall(k)) && history == old(history) + [ConsumeCall(k)]
      ensures (forall k :: k in old(reservations) ==> old(reservations)[k].id != id) ==>
        Contents() == old(Contents()) && history == old(history) && reply == Failure(NotRegistered)
    {
      EveryRunBalanced(history);
      var key := Find(id);
      if key.None? {
        return Failure(NotRegistered);
      }
      Grows(history, ConsumeCall(key.value));
      history := history + [ConsumeCall(key.value)];
      if reservations[key.value].status.Consumed? {
        return Success((reservations[key.value], true));
      }
      reply := MoveTo(key.value, Consumed);
    }

    method Release(id: nat, cancelled: bool) returns (reply: Reply)
      requires Reached()
      modifies this
      ensures Reached()
      ensures forall k :: k in old(reservations) && old(reservations)[k].id == id ==>
        (Contents(), reply) == Step(old(Contents()), ReleaseCall(k, cancelled))
          && history == old(history) + [ReleaseCall(k, cancelled)]
      ensures (forall k :: k in old(reservations) ==> old(reservations)[k].id != id) ==>
        Contents() == old(Contents()) && history == old(history) && reply == Failure(NotRegistered)
    {
      EveryRunBalanced(history);
      var key := Find(id);
      if key.None? {
        return Failure(NotRegistered);
      }
      Grows(history, ReleaseCall(key.value, cancelled));
      history := history + [ReleaseCall(key.value, cancelled)];
      var r := reservations[key.value];
      if r.status.Released? || r.status.Cancelled? {
        return Success((r, true));
      }
      reply := MoveTo(key.value, if cancelled then Cancelled else Released);
    }
  }
}
