/** The database budget repository statement by statement: a refused statement rolls the whole transaction back. */
module BudgetTransactions {
  import opened Results
  import opened BudgetLedger
  import opened BudgetSql

  /** What reserving under a new key answers, from the counter rows as they were read. */
  ghost function Charge(b: Budget, p: Limits, o: Order, task: Counter, daily: Counter): Reply {
    if !RowAllowed(task.(limit := p.perTask)) || !RowAllowed(daily.(limit := p.daily)) then Failure(ConstraintViolated)
    else if task.reserved + task.consumed + o.amount > p.perTask then Failure(TaskExhausted)
    else if daily.reserved + daily.consumed + o.amount > p.daily then Failure(DailyExhausted)
    else if !PaymentUnused(b, o.paymentId) then Failure(ConstraintViolated)
    else Success((NewReservation(b, p, o), false))
  }

  lemma Grows(history: seq<Call>, c: Call)
    ensures SqlRun(history + [c]) == SqlStep(SqlRun(history), c).0
  {
    assert (history + [c])[..|history + [c]| - 1] == history;
  }

  class MppPolicyRepository {
    var committed: Budget
    var counters: map<CounterKey, Counter>
    var reservations: map<string, Reservation>
    var nextId: nat
    ghost var history: seq<Call>

    function Working(): Budget
      reads this
    {
      Budget(counters, reservations, nextId)
    }

    ghost predicate Idle()
      reads this
    {
      Working() == committed
    }

    /** No transaction is open, and the rows are those that the calls so far lead to. */
    ghost predicate Reached()
      reads this
    {
      Idle() && committed == SqlRun(history)
    }

    constructor ()
      ensures Reached() && history == [] && committed == EMPTY
    {
      history := [];
      committed, counters, reservations, nextId := EMPTY, map[], map[], 0;
    }

    method Commit()
      modifies this`committed
      ensures Idle()
    {
      committed := Working();
    }

    method Rollback()
      modifies this`counters, this`reservations, this`nextId
      ensures Idle()
    {
      counters, reservations, nextId := committed.counters, committed.reservations, committed.nextId;
    }

    /** INSERT ... ON CONFLICT DO NOTHING; a row the constraints forbid is refused even where one exists. */
    method InsertCounter(k: CounterKey, limit: int) returns (ok: bool)
      modifies this`counters
      ensures ok == (limit > 0)
      ensures counters == if ok then old(counters)[k := Lookup(old(counters), k, limit)] else old(counters)
    {
      if limit <= 0 {
        return false;
      }
      if k !in counters {
        counters := counters[k := Counter(limit, 0, 0, 1)];
      }
      return true;
    }

    /** UPDATE of one row to a value the constraints may refuse. */
    method UpdateCounter(k: CounterKey, c: Counter) returns (ok: bool)
      modifies this`counters
      ensures ok == RowAllowed(c)
      ensures counters == if ok then old(counters)[k := c] else old(counters)
    {
      ok := RowAllowed(c);
      if ok {
        counters := counters[k := c];
      }
    }

    method InsertReservation(r: Reservation) returns (ok: bool)
      modifies this`reservations
      ensures ok <==> PaymentUnused(old(Working()), r.paymentId)
      ensures reservations == if ok then old(reservations)[r.idempotencyKey := r] else old(reservations)
    {
      var left := reservations.Keys;
      while left != {}
        invariant left <= reservations.Keys && reservations == old(reservations)
        invariant forall k :: k in reservations && k !in left ==> reservations[k].paymentId != r.paymentId
        decreases left
      {
        var k :| k in left;
        if reservations[k].paymentId == r.paymentId {
          return false;
        }
        left := left - {k};
      }
      reservations := reservations[r.idempotencyKey := r];
      return true;
    }

    /** Creates the day and Task counters unless they exist. */
    method InsertCounters(p: Limits, tk: CounterKey, dk: CounterKey) returns (ok: bool)
      requires tk != dk
      modifies this`counters
      ensures ok == (p.daily > 0 && p.perTask > 0)
      ensures ok ==>
        counters == old(counters)[dk := Lookup(old(counters), dk, p.daily)][tk := Lookup(old(counters), tk, p.perTask)]
    {
      ok := InsertCounter(dk, p.daily);
      if ok {
        ok := InsertCounter(tk, p.perTask);
      }
    }

    /** One UPDATE of both counters; a row the constraints refuse fails it. */
    method UpdateBoth(tk: CounterKey, task: Counter, dk: CounterKey, daily: Counter) returns (ok: bool)
      modifies this`counters
      ensures ok == (RowAllowed(daily) && RowAllowed(task))
      ensures ok ==> counters == old(counters)[dk := daily][tk := task]
    {
      ok := UpdateCounter(dk, daily);
      if ok {
        ok := UpdateCounter(tk, task);
      }
    }

    /** The statements after the key was found to be new, on the counter rows read before. */
    method HoldStatements(p: Limits, o: Order, tk: CounterKey, task: Counter, dk: CounterKey, daily: Counter)
      returns (reply: Reply)
      requires tk != dk && o.amount > 0
      modifies this`counters, this`reservations, this`nextId
      ensures reply == Charge(old(Working()), p, o, task, daily)
      ensures reply.Success? ==>
        && counters == old(counters)
             [dk := Hold(daily.(limit := p.daily), o.amount)][tk := Hold(task.(limit := p.perTask), o.amount)]
        && reservations == old(reservations)[o.idempotencyKey := reply.value.0] && nextId == old(nextId) + 1
    {
      var limitedTask, limitedDaily := task.(limit := p.perTask), daily.(limit := p.daily);
      var ok := UpdateBoth(tk, limitedTask, dk, limitedDaily);
      if !ok {
        return Failure(ConstraintViolated);
      }
      if task.reserved + task.consumed + o.amount > p.perTask {
        return Failure(TaskExhausted);
      }
      if daily.reserved + daily.consumed + o.amount > p.daily {
        return Failure(DailyExhausted);
      }
      ok := UpdateBoth(tk, Hold(limitedTask, o.amount), dk, Hold(limitedDaily, o.amount));
      var r := NewReservation(Working(), p, o);
      if ok {
        ok := InsertReservation(r);
      }
      if !ok {
        return Failure(ConstraintViolated);
      }
      nextId := nextId + 1;
      return Success((r, false));
    }

    /** The statements of a reservation, up to the first one that fails. */
    method ReserveStatements(p: Limits, o: Order) returns (reply: Reply)
      requires Idle()
      modifies this`counters, this`reservations, this`nextId
      ensures reply == SqlReserve(committed, p, o).1
      ensures reply.Success? ==> Working() == SqlReserve(committed, p, o).0
    {
      if o.amount <= 0 {
        return Failure(AmountNotPositive);
      }
      if o.amount > p.perPayment {
        return Failure(OverPaymentLimit);
      }
      var tk, dk := TaskKey(p.profileId, o.taskId), DailyKey(p.profileId, o.agentId, Day(o.now));
      var ok := InsertCounters(p, tk, dk);
      if !ok {
        return Failure(ConstraintViolated);
      }
      if o.idempotencyKey in reservations {
        var existing := reservations[o.idempotencyKey];
        return if SamePayment(existing, p, o) then Success((existing, true)) else Failure(BoundToAnotherPayment);
      }
      reply := HoldStatements(p, o, tk, counters[tk], dk, counters[dk]);
      if reply.Success? {
        ghost var task, daily := Lookup(committed.counters, tk, p.perTask), Lookup(committed.counters, dk, p.daily);
        assert counters == committed.counters
          [dk := Hold(daily.(limit := p.daily), o.amount)][tk := Hold(task.(limit := p.perTask), o.amount)];
      }
    }

    /** One transaction: afterwards the committed rows are those of the specification, whatever happened on the way. */
    method ReserveBudget(p: Limits, o: Order) returns (reply: Reply)
      requires Reached()
      modifies this
      ensures Reached() && history == old(history) + [ReserveCall(p, o)]
      ensures (committed, reply) == SqlReserve(old(committed), p, o)
    {
      Grows(history, ReserveCall(p, o));
      history := history + [ReserveCall(p, o)];
      reply := ReserveStatements(p, o);
      if reply.Success? {
        Commit();
      } else {
        Rollback();
      }
    }

    method SettleCounter(k: CounterKey, amount: int, target: ReservationStatus) returns (ok: bool)
      modifies this`counters
      ensures ok <==> (k in old(counters) ==> RowAllowed(Settle(old(counters)[k], amount, target)))
      ensures ok ==> counters == UpdateRow(old(counters), k, amount, target)
    {
      if k !in counters {
        return true;
      }
      ok := UpdateCounter(k, Settle(counters[k], amount, target));
    }

    /** The statements of a settlement, up to the first one that fails. */
    method MoveStatements(key: string, target: ReservationStatus) returns (reply: Reply)
      requires Idle() && key in reservations
      modifies this`counters, this`reservations
      ensures reply == SqlMove(committed, key, target).1
      ensures reply.Success? ==> Working() == SqlMove(committed, key, target).0
    {
      var r := reservations[key];
      if r.status == target {
        return Success((r, true));
      }
      if !r.status.Reserved? {
        return Failure(NotReserved(r.status));
      }
      assert TaskKeyOf(r) != DailyKeyOf(r);
      var ok := SettleCounter(TaskKeyOf(r), r.amount, target);
      if ok {
        ok := SettleCounter(DailyKeyOf(r), r.amount, target);
      }
      if !ok {
        return Failure(ConstraintViolated);
      }
      var moved := r.(status := target);
      reservations := reservations[key := moved];
      return Success((moved, false));
    }

    method MoveReservation(key: string, target: ReservationStatus) returns (reply: Reply)
      requires Idle() && key in reservations
      modifies this`committed, this`counters, this`reservations, this`nextId
      ensures Idle() && (committed, reply) == SqlMove(old(committed), key, target)
    {
      reply := MoveStatements(key, target);
      if reply.Success? {
        Commit();
      } else {
        Rollback();
      }
    }

    method ConsumeReservation(key: string) returns (reply: Reply)
      requires Reached()
      modifies this
      ensures Reached() && history == old(history) + [ConsumeCall(key)]
      ensures (committed, reply) == SqlStep(old(committed), ConsumeCall(key))
    {
      Grows(history, ConsumeCall(key));
      history := history + [ConsumeCall(key)];
      if key !in reservations {
        return Failure(NotRegistered);
      }
      reply := MoveReservation(key, Consumed);
    }

    method ReleaseReservation(key: string, cancelled: bool) returns (reply: Reply)
      requires Reached()
      modifies this
      ensures Reached() && history == old(history) + [ReleaseCall(key, cancelled)]
      ensures (committed, reply) == SqlStep(old(committed), ReleaseCall(key, cancelled))
    {
      Grows(history, ReleaseCall(key, cancelled));
      history := history + [ReleaseCall(key, cancelled)];
      if key !in reservations {
        return Failure(NotRegistered);
      }
      reply := MoveReservation(key, if cancelled then Cancelled else Released);
    }
  }
}
