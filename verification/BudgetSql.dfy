/**
 * The same budget ledger as database rows: each operation is one transaction that a raised error rolls back, and the
 * counter table enforces reserved + consumed <= limit. It is related to the in-memory ledger by a simulation.
 */
module BudgetSql {
  import opened Results
  import opened BudgetLedger

  /** The row constraints of the counter table. */
  predicate RowAllowed(c: Counter) {
    c.limit > 0 && c.reserved >= 0 && c.consumed >= 0 && c.reserved + c.consumed <= c.limit
  }

  ghost predicate PaymentUnused(b: Budget, paymentId: string) {
    forall key :: key in b.reservations ==> b.reservations[key].paymentId != paymentId
  }

  ghost function SqlReserve(s: Budget, p: Limits, o: Order): (Budget, Reply) {
    if o.amount <= 0 then (s, Failure(AmountNotPositive))
    else if o.amount > p.perPayment then (s, Failure(OverPaymentLimit))
    else if p.daily <= 0 || p.perTask <= 0 then (s, Failure(ConstraintViolated))
    else
      var tk, dk := TaskKey(p.profileId, o.taskId), DailyKey(p.profileId, o.agentId, Day(o.now));
      var task, daily := Lookup(s.counters, tk, p.perTask), Lookup(s.counters, dk, p.daily);
      if o.idempotencyKey in s.reservations then
        var existing := s.reservations[o.idempotencyKey];
        if SamePayment(existing, p, o) then
          (s.(counters := s.counters[dk := daily][tk := task]), Success((existing, true)))
        else (s, Failure(BoundToAnotherPayment))
      else if !RowAllowed(task.(limit := p.perTask)) || !RowAllowed(daily.(limit := p.daily)) then
        (s, Failure(ConstraintViolated))
      else if task.reserved + task.consumed + o.amount > p.perTask then (s, Failure(TaskExhausted))
      else if daily.reserved + daily.consumed + o.amount > p.daily then (s, Failure(DailyExhausted))
      else if !PaymentUnused(s, o.paymentId) then (s, Failure(ConstraintViolated))
      else
        var r := NewReservation(s, p, o);
        var held := s.counters
          [dk := Hold(daily.(limit := p.daily), o.amount)][tk := Hold(task.(limit := p.perTask), o.amount)];
        (Budget(held, s.reservations[o.idempotencyKey := r], s.nextId + 1),
         Success((r, false)))
  }

  /** An UPDATE touches only rows that exist. */
  function UpdateRow(counters: map<CounterKey, Counter>, k: CounterKey, amount: int, target: ReservationStatus)
    : map<CounterKey, Counter>
  {
    if k in counters then counters[k := Settle(counters[k], amount, target)] else counters
  }

  function SqlMove(s: Budget, key: string, target: ReservationStatus): (Budget, Reply)
    requires key in s.reservations
  {
    var r := s.reservations[key];
    if r.status == target then (s, Success((r, true)))
    else if !r.status.Reserved? then (s, Failure(NotReserved(r.status)))
    else
      var counters := UpdateRow(UpdateRow(s.counters, TaskKeyOf(r), r.amount, target), DailyKeyOf(r), r.amount, target);
      if (TaskKeyOf(r) in counters && !RowAllowed(counters[TaskKeyOf(r)]))
        || (DailyKeyOf(r) in counters && !RowAllowed(counters[DailyKeyOf(r)]))
      then (s, Failure(ConstraintViolated))
      else
        var moved := r.(status := target);
        (s.(counters := counters, reservations := s.reservations[key := moved]), Success((moved, false)))
  }

  ghost function SqlStep(s: Budget, c: Call): (Budget, Reply) {
    match c
    case ReserveCall(p, o) => SqlReserve(s, p, o)
    case ConsumeCall(k) => if k in s.reservations then SqlMove(s, k, Consumed) else (s, Failure(NotRegistered))
    case ReleaseCall(k, cancelled) =>
      if k in s.reservations then SqlMove(s, k, if cancelled then Cancelled else Released)
      else (s, Failure(NotRegistered))
  }

  ghost function SqlRun(calls: seq<Call>): Budget {
    if calls == [] then EMPTY else SqlStep(SqlRun(calls[..|calls| - 1]), calls[|calls| - 1]).0
  }

  // ----- The simulation

  /** A counter row as far as the simulation compares it. */
  function Row(b: Budget, k: CounterKey): Counter {
    Lookup(b.counters, k, 1).(limit := 1)
  }

  /** Equal up to limits and to counters nothing was ever spent on. */
  ghost predicate SameAmounts(m: Budget, s: Budget) {
    forall k :: Row(m, k) == Row(s, k)
  }

  ghost predicate RowsAllowed(s: Budget) {
    forall k :: k in s.counters ==> RowAllowed(s.counters[k])
  }

  ghost predicate Related(m: Budget, s: Budget) {
    && m.reservations == s.reservations && m.nextId == s.nextId
    && SameAmounts(m, s)
    && Inv(m) && WellFormed(s) && RowsAllowed(s)
  }

  predicate PositiveLimits(c: Call) {
    c.ReserveCall? ==> c.limits.perTask > 0 && c.limits.daily > 0
  }

  /** The amount is positive and fits the payment limit and, on top of what is spent, the Task and day limits. */
  predicate Affordable(b: Budget, p: Limits, o: Order) {
    var (task, daily) := CurrentSpend(b, p.profileId, o.taskId, o.agentId, o.now);
    && 0 < o.amount <= p.perPayment
    && task + o.amount <= p.perTask
    && daily + o.amount <= p.daily
  }

  /** Under a fresh key the in-memory ledger accepts exactly what is affordable. */
  lemma ReservesAffordable(b: Budget, p: Limits, o: Order)
    requires o.idempotencyKey !in b.reservations
    ensures Reserve(b, p, o).1.Success? <==> Affordable(b, p, o)
  {
  }

  /** Where the two ledgers take different decisions, by what the caller asks and what is already reserved. */
  ghost predicate Diverges(m: Budget, c: Call) {
    match c
    case ReserveCall(p, o) =>
      if o.idempotencyKey in m.reservations then
        o.amount > p.perPayment && SamePayment(m.reservations[o.idempotencyKey], p, o)
      else !PaymentUnused(m, o.paymentId) && Affordable(m, p, o)
    case ConsumeCall(k) => false
    case ReleaseCall(k, cancelled) =>
      k in m.reservations && m.reservations[k].status == if cancelled then Released else Cancelled
  }

  /**
   * The one call after which the ledgers differ for good: a used payment identifier under a fresh key, affordable once
   * more.
   */
  ghost predicate ReservesAgain(m: Budget, c: Call) {
    && c.ReserveCall? && c.order.idempotencyKey !in m.reservations
    && !PaymentUnused(m, c.order.paymentId) && Affordable(m, c.limits, c.order)
  }

  lemma SameRow(m: Budget, s: Budget, k: CounterKey, limit: int)
    requires SameAmounts(m, s)
    ensures Lookup(m.counters, k, limit).(limit := 1) == Lookup(s.counters, k, limit).(limit := 1)
    ensures k in m.counters && k in s.counters ==> m.counters[k].(limit := 1) == s.counters[k].(limit := 1)
  {
    assert Row(m, k) == Row(s, k);
  }

  lemma ReserveDecides(m: Budget, s: Budget, p: Limits, o: Order)
    requires Related(m, s) && p.perTask > 0 && p.daily > 0
    ensures SqlReserve(s, p, o).1.Success? <==> Reserve(m, p, o).1.Success? && !Diverges(m, ReserveCall(p, o))
    ensures SqlReserve(s, p, o).1.Success? ==> SqlReserve(s, p, o).1 == Reserve(m, p, o).1
  {
    var tk, dk := TaskKey(p.profileId, o.taskId), DailyKey(p.profileId, o.agentId, Day(o.now));
    SameRow(m, s, tk, p.perTask);
    SameRow(m, s, dk, p.daily);
    NonNegativeLookup(m, tk);
    NonNegativeLookup(m, dk);
  }

  lemma NonNegativeLookup(m: Budget, k: CounterKey)
    requires Inv(m)
    ensures forall l :: Lookup(m.counters, k, l).reserved >= 0 && Lookup(m.counters, k, l).consumed >= 0
  {
    if k in m.counters {
      CountersNonNegative(m, k);
    }
  }

  lemma SqlReserveWellFormed(s: Budget, p: Limits, o: Order)
    requires WellFormed(s)
    ensures WellFormed(SqlReserve(s, p, o).0)
  {
  }

  lemma SqlReserveRows(s: Budget, p: Limits, o: Order)
    requires WellFormed(s) && RowsAllowed(s)
    ensures WellFormed(SqlReserve(s, p, o).0) && RowsAllowed(SqlReserve(s, p, o).0)
  {
    SqlReserveWellFormed(s, p, o);
    SqlStepRows(s, ReserveCall(p, o));
  }

  predicate Touches(p: Limits, o: Order, k: CounterKey) {
    k == TaskKey(p.profileId, o.taskId) || k == DailyKey(p.profileId, o.agentId, Day(o.now))
  }

  function Charged(c: Counter, p: Limits, o: Order, k: CounterKey, reply: Reply): Counter {
    if reply.Success? && !reply.value.1 && Touches(p, o, k) then Hold(c, o.amount) else c
  }

  lemma ReserveAfter(b: Budget, p: Limits, o: Order, k: CounterKey)
    ensures Row(Reserve(b, p, o).0, k) == Charged(Row(b, k), p, o, k, Reserve(b, p, o).1)
  {
  }

  lemma SqlReserveAfter(b: Budget, p: Limits, o: Order, k: CounterKey)
    ensures Row(SqlReserve(b, p, o).0, k) == Charged(Row(b, k), p, o, k, SqlReserve(b, p, o).1)
  {
  }

  predicate IsCharge(reply: Reply) {
    reply.Success? && !reply.value.1
  }

  lemma ReserveSameAmounts(m: Budget, s: Budget, p: Limits, o: Order)
    requires SameAmounts(m, s) && IsCharge(Reserve(m, p, o).1) == IsCharge(SqlReserve(s, p, o).1)
    ensures SameAmounts(Reserve(m, p, o).0, SqlReserve(s, p, o).0)
  {
    forall k
      ensures Row(Reserve(m, p, o).0, k) == Row(SqlReserve(s, p, o).0, k)
    {
      ReserveAfter(m, p, o, k);
      SqlReserveAfter(s, p, o, k);
    }
  }

  /** What either ledger adds to its reservations depends on whether it charges. */
  lemma ReserveRecords(b: Budget, p: Limits, o: Order)
    ensures var t, charge := Reserve(b, p, o).0, IsCharge(Reserve(b, p, o).1);
      && t.reservations
         == (if charge then b.reservations[o.idempotencyKey := NewReservation(b, p, o)] else b.reservations)
      && t.nextId == if charge then b.nextId + 1 else b.nextId
  {
  }

  lemma SqlReserveRecords(b: Budget, p: Limits, o: Order)
    ensures var t, charge := SqlReserve(b, p, o).0, IsCharge(SqlReserve(b, p, o).1);
      && t.reservations
         == (if charge then b.reservations[o.idempotencyKey := NewReservation(b, p, o)] else b.reservations)
      && t.nextId == if charge then b.nextId + 1 else b.nextId
  {
  }

  lemma ReserveSameRecords(m: Budget, s: Budget, p: Limits, o: Order)
    requires m.reservations == s.reservations && m.nextId == s.nextId
    requires IsCharge(Reserve(m, p, o).1) == IsCharge(SqlReserve(s, p, o).1)
    ensures Reserve(m, p, o).0.reservations == SqlReserve(s, p, o).0.reservations
    ensures Reserve(m, p, o).0.nextId == SqlReserve(s, p, o).0.nextId
  {
    ReserveRecords(m, p, o);
    SqlReserveRecords(s, p, o);
  }

  lemma ReserveSimulates(m: Budget, s: Budget, p: Limits, o: Order)
    requires Related(m, s) && p.perTask > 0 && p.daily > 0 && !Diverges(m, ReserveCall(p, o))
    ensures Related(Reserve(m, p, o).0, SqlReserve(s, p, o).0)
  {
    ReserveDecides(m, s, p, o);
    ReserveKeeps(m, p, o);
    SqlReserveRows(s, p, o);
    ReserveSameAmounts(m, s, p, o);
    ReserveSameRecords(m, s, p, o);
  }

  /** A reservation's own counters hold at least its amount. */
  lemma HeldAmount(b: Budget, key: string)
    requires Inv(b) && key in b.reservations && b.reservations[key].status.Reserved?
    ensures b.counters[TaskKeyOf(b.reservations[key])].reserved >= b.reservations[key].amount
    ensures b.counters[DailyKeyOf(b.reservations[key])].reserved >= b.reservations[key].amount
  {
    var r := b.reservations[key];
    forall k | k == TaskKeyOf(r) || k == DailyKeyOf(r)
      ensures b.counters[k].reserved >= r.amount
    {
      assert Lookup(b.counters, k, 1).reserved == Total(b.reservations, k, Reserved);
      TotalWithout(b.reservations, k, Reserved, key);
      TotalNonNegative(b.reservations - {key}, k, Reserved);
    }
  }

  predicate Backs(r: Reservation, k: CounterKey) {
    k == TaskKeyOf(r) || k == DailyKeyOf(r)
  }

  lemma MoveAfter(b: Budget, key: string, target: ReservationStatus, k: CounterKey)
    requires key in b.reservations && b.reservations[key].status.Reserved?
    requires TaskKeyOf(b.reservations[key]) in b.counters && DailyKeyOf(b.reservations[key]) in b.counters
    ensures var r := b.reservations[key];
      Row(Move(b, key, target).0, k) == if Backs(r, k) then Settle(Row(b, k), r.amount, target) else Row(b, k)
  {
  }

  lemma SqlMoveAfter(s: Budget, key: string, target: ReservationStatus, k: CounterKey)
    requires key in s.reservations && s.reservations[key].status.Reserved? && !target.Reserved?
    requires SqlMove(s, key, target).1.Success?
    requires TaskKeyOf(s.reservations[key]) in s.counters && DailyKeyOf(s.reservations[key]) in s.counters
    ensures var r := s.reservations[key];
      Row(SqlMove(s, key, target).0, k) == if Backs(r, k) then Settle(Row(s, k), r.amount, target) else Row(s, k)
  {
  }

  /** The database never refuses to settle or release a reservation that is still held. */
  lemma SqlMoveAccepts(m: Budget, s: Budget, key: string, target: ReservationStatus)
    requires Related(m, s) && key in s.reservations && s.reservations[key].status.Reserved? && !target.Reserved?
    ensures SqlMove(s, key, target).1 == Success((s.reservations[key].(status := target), false))
  {
    var r := s.reservations[key];
    HeldAmount(m, key);
    SameRow(m, s, TaskKeyOf(r), 1);
    SameRow(m, s, DailyKeyOf(r), 1);
    assert RowAllowed(Settle(s.counters[TaskKeyOf(r)], r.amount, target));
    assert RowAllowed(Settle(s.counters[DailyKeyOf(r)], r.amount, target));
  }

  lemma SqlMoveRows(s: Budget, key: string, target: ReservationStatus)
    requires WellFormed(s) && RowsAllowed(s) && key in s.reservations
    ensures WellFormed(SqlMove(s, key, target).0) && RowsAllowed(SqlMove(s, key, target).0)
  {
  }

  lemma MoveSimulates(m: Budget, s: Budget, key: string, target: ReservationStatus)
    requires Related(m, s) && key in m.reservations && m.reservations[key].status.Reserved? && !target.Reserved?
    ensures SqlMove(s, key, target).1 == Move(m, key, target).1
    ensures Move(m, key, target).1.Success?
    ensures Related(Move(m, key, target).0, SqlMove(s, key, target).0)
  {
    SqlMoveAccepts(m, s, key, target);
    SqlMoveRows(s, key, target);
    MoveKeeps(m, key, target);
    assert SameAmounts(Move(m, key, target).0, SqlMove(s, key, target).0) by {
      forall k
        ensures Row(Move(m, key, target).0, k) == Row(SqlMove(s, key, target).0, k)
      {
        MoveAfter(m, key, target, k);
        SqlMoveAfter(s, key, target, k);
      }
    }
  }

  /**
   * A call that reserves again adds a reservation in memory only; any other one that diverges changes neither ledger.
   */
  lemma DivergingRelates(m: Budget, s: Budget, c: Call)
    requires Related(m, s) && PositiveLimits(c) && Diverges(m, c)
    ensures Related(Step(m, c).0, SqlStep(s, c).0) <==> !ReservesAgain(m, c)
  {
    if c.ReserveCall? {
      ReserveDecides(m, s, c.limits, c.order);
      if ReservesAgain(m, c) {
        ReservesAffordable(m, c.limits, c.order);
        ReserveRecords(m, c.limits, c.order);
        SqlReserveRecords(s, c.limits, c.order);
        assert IsCharge(Reserve(m, c.limits, c.order).1);
      }
    }
  }

  /**
   * One call: both ledgers take the same decision, with the same reply, exactly when it does not diverge; where it
   * diverges, exactly one of them accepts. They stay related exactly when it does not reserve a payment again.
   */
  lemma StepSimulates(m: Budget, s: Budget, c: Call)
    requires Related(m, s) && PositiveLimits(c)
    ensures (Step(m, c).1.Success? <==> SqlStep(s, c).1.Success?) <==> !Diverges(m, c)
    ensures Related(Step(m, c).0, SqlStep(s, c).0) <==> !ReservesAgain(m, c)
    ensures !Diverges(m, c) && Step(m, c).1.Success? ==> Step(m, c).1 == SqlStep(s, c).1
  {
    if Diverges(m, c) {
      DivergingRelates(m, s, c);
    }
    match c
    case ReserveCall(p, o) =>
      ReserveDecides(m, s, p, o);
      if !Diverges(m, c) {
        ReserveSimulates(m, s, p, o);
      }
      if o.idempotencyKey in m.reservations {
        assert m.reservations[o.idempotencyKey].amount > 0;
      }
    case ConsumeCall(k) =>
      if k in m.reservations && m.reservations[k].status.Reserved? {
        MoveSimulates(m, s, k, Consumed);
      }
    case ReleaseCall(k, cancelled) =>
      if k in m.reservations && m.reservations[k].status.Reserved? {
        MoveSimulates(m, s, k, if cancelled then Cancelled else Released);
      }
  }

  ghost predicate SameDecision(calls: seq<Call>, n: nat)
    requires n < |calls|
  {
    var reply, sqlReply := Step(Run(calls[..n]), calls[n]).1, SqlStep(SqlRun(calls[..n]), calls[n]).1;
    if reply.Success? then sqlReply == reply else sqlReply.Failure?
  }

  /** The first `n` calls never reserve a payment again. */
  ghost predicate NoneAgain(calls: seq<Call>, n: nat)
    requires n <= |calls|
  {
    forall i :: 0 <= i < n ==> PositiveLimits(calls[i]) && !ReservesAgain(Run(calls[..i]), calls[i])
  }

  lemma {:induction false} StayRelated(calls: seq<Call>, n: nat)
    requires n <= |calls| && NoneAgain(calls, n)
    ensures Related(Run(calls[..n]), SqlRun(calls[..n]))
  {
    if n == 0 {
      EmptyInv();
    } else {
      StayRelated(calls, n - 1);
      assert calls[..n][..n - 1] == calls[..n - 1] && calls[..n][n - 1] == calls[n - 1];
      StepSimulates(Run(calls[..n - 1]), SqlRun(calls[..n - 1]), calls[n - 1]);
    }
  }

  /**
   * Over any run in which no payment is reserved again the ledgers stay related, and part only in the replies that
   * diverge.
   */
  lemma EveryRunSimulates(calls: seq<Call>)
    requires NoneAgain(calls, |calls|)
    ensures Related(Run(calls), SqlRun(calls))
    ensures forall n :: 0 <= n < |calls| ==> (SameDecision(calls, n) <==> !Diverges(Run(calls[..n]), calls[n]))
  {
    assert calls[..|calls|] == calls;
    StayRelated(calls, |calls|);
    forall n | 0 <= n < |calls|
      ensures SameDecision(calls, n) <==> !Diverges(Run(calls[..n]), calls[n])
    {
      StayRelated(calls, n);
      StepSimulates(Run(calls[..n]), SqlRun(calls[..n]), calls[n]);
    }
  }

  /** The ledgers are related all the way through a run exactly when it never reserves a payment again. */
  lemma RelatedThroughoutExactly(calls: seq<Call>)
    requires forall n :: 0 <= n < |calls| ==> PositiveLimits(calls[n])
    ensures (forall n :: 0 <= n <= |calls| ==> Related(Run(calls[..n]), SqlRun(calls[..n])))
      <==> NoneAgain(calls, |calls|)
  {
    if NoneAgain(calls, |calls|) {
      forall n | 0 <= n <= |calls|
        ensures Related(Run(calls[..n]), SqlRun(calls[..n]))
      {
        StayRelated(calls, n);
      }
    } else {
      var n :| 0 <= n < |calls| && ReservesAgain(Run(calls[..n]), calls[n]);
      AgainParts(calls, n);
    }
  }

  lemma AgainParts(calls: seq<Call>, n: nat)
    requires n < |calls| && PositiveLimits(calls[n]) && ReservesAgain(Run(calls[..n]), calls[n])
    ensures !Related(Run(calls[..n]), SqlRun(calls[..n])) || !Related(Run(calls[..n + 1]), SqlRun(calls[..n + 1]))
  {
    assert calls[..n + 1][..n] == calls[..n];
    if Related(Run(calls[..n]), SqlRun(calls[..n])) {
      StepSimulates(Run(calls[..n]), SqlRun(calls[..n]), calls[n]);
    }
  }

  // ----- What the constraint adds

  /** In the database, whatever limits the calls bring, reserved plus consumed never exceeds any limit. */
  lemma {:induction false} SqlRunWithinLimits(calls: seq<Call>)
    ensures RowsAllowed(SqlRun(calls)) && WithinLimits(SqlRun(calls))
    decreases |calls|
  {
    if calls != [] {
      SqlRunWithinLimits(calls[..|calls| - 1]);
      SqlStepRows(SqlRun(calls[..|calls| - 1]), calls[|calls| - 1]);
    }
  }

  lemma SqlStepRows(s: Budget, c: Call)
    requires RowsAllowed(s)
    ensures RowsAllowed(SqlStep(s, c).0)
  {
  }

  // ----- The database ledger on its own

  /** What is conserved in memory is conserved in the database. */
  lemma RelatedConserves(m: Budget, s: Budget)
    requires Related(m, s)
    ensures Inv(s)
  {
    forall k: CounterKey
      ensures Lookup(s.counters, k, 1).reserved == Total(s.reservations, k, Reserved)
      ensures Lookup(s.counters, k, 1).consumed == Total(s.reservations, k, Consumed)
    {
      SameRow(m, s, k, 1);
      assert Lookup(m.counters, k, 1).reserved == Total(m.reservations, k, Reserved);
    }
  }

  lemma SelfRelated(s: Budget)
    requires Inv(s) && RowsAllowed(s)
    ensures Related(s, s)
  {
  }

  /** In the database, too, every counter stays the sum of its reservations. */
  lemma SqlReserveConserves(s: Budget, p: Limits, o: Order)
    requires Inv(s) && RowsAllowed(s)
    ensures Inv(SqlReserve(s, p, o).0) && RowsAllowed(SqlReserve(s, p, o).0)
  {
    SqlReserveRows(s, p, o);
    if SqlReserve(s, p, o).1.Success? {
      SelfRelated(s);
      ReserveDecides(s, s, p, o);
      ReserveSimulates(s, s, p, o);
      RelatedConserves(Reserve(s, p, o).0, SqlReserve(s, p, o).0);
    }
  }

  /** A held reservation can always be given back or settled, and that conserves the sums. */
  lemma SqlMoveConserves(s: Budget, key: string, target: ReservationStatus)
    requires Inv(s) && RowsAllowed(s) && key in s.reservations && !target.Reserved?
    requires s.reservations[key].status in {Reserved, target}
    ensures var (t, reply) := SqlMove(s, key, target);
      && reply.Success? && Inv(t) && RowsAllowed(t)
      && t.reservations == s.reservations[key := s.reservations[key].(status := target)]
  {
    if s.reservations[key].status.Reserved? {
      SelfRelated(s);
      MoveSimulates(s, s, key, target);
      RelatedConserves(Move(s, key, target).0, SqlMove(s, key, target).0);
    }
  }
}
