/**
 * The budget in calendar terms: what counts against a Task and against a UTC date, and what a reserve may still take.
 */
module BudgetDates {
  import opened Results
  import opened BudgetLedger
  import Sql = BudgetSql

  /** The instant lies on the UTC date that begins `d` days of 24 hours after the epoch. */
  predicate OnDate(now: int, d: int) {
    86400 * d <= now < 86400 * (d + 1)
  }

  lemma DayIsDate(now: int, d: int)
    ensures Day(now) == d <==> OnDate(now, d)
  {
  }

  /** Money that is still held or was paid. */
  predicate Counts(r: Reservation) {
    r.status.Reserved? || r.status.Consumed?
  }

  /** A Task of a profile, or an Agent's day under it. */
  datatype Pool = TaskPool(profileId: string, taskId: string) | DatePool(profileId: string, agentId: string, date: int)

  predicate Draws(r: Reservation, pool: Pool) {
    match pool
    case TaskPool(profileId, taskId) => r.profileId == profileId && r.taskId == taskId
    case DatePool(profileId, agentId, date) => r.profileId == profileId && r.agentId == agentId && r.day == date
  }

  function Part(r: Reservation, pool: Pool): int {
    if Draws(r, pool) && Counts(r) then r.amount else 0
  }

  /** The sum over all reservations that draw on the pool and count. */
  ghost function Drawn(rs: map<string, Reservation>, pool: Pool): int
    decreases |rs|
  {
    if rs == map[] then 0
    else
      var key :| key in rs;
      Part(rs[key], pool) + Drawn(rs - {key}, pool)
  }

  lemma {:induction false} DrawnWithout(rs: map<string, Reservation>, pool: Pool, key: string)
    requires key in rs
    ensures Drawn(rs, pool) == Part(rs[key], pool) + Drawn(rs - {key}, pool)
    decreases |rs|
  {
    var first :| first in rs && Drawn(rs, pool) == Part(rs[first], pool) + Drawn(rs - {first}, pool);
    if first != key {
      DrawnWithout(rs - {first}, pool, key);
      DrawnWithout(rs - {key}, pool, first);
      assert rs - {first} - {key} == rs - {key} - {first};
    }
  }

  lemma DrawnUpdate(rs: map<string, Reservation>, pool: Pool, key: string, r: Reservation)
    ensures Drawn(rs[key := r], pool) == Drawn(rs, pool)
      + Part(r, pool) - (if key in rs then Part(rs[key], pool) else 0)
  {
    DrawnWithout(rs[key := r], pool, key);
    if key in rs {
      assert rs[key := r] - {key} == rs - {key};
      DrawnWithout(rs, pool, key);
    } else {
      assert rs[key := r] - {key} == rs;
    }
  }

  // ----- The counters hold these sums

  function KeyOf(pool: Pool): CounterKey {
    match pool
    case TaskPool(profileId, taskId) => TaskKey(profileId, taskId)
    case DatePool(profileId, agentId, date) => DailyKey(profileId, agentId, date)
  }

  lemma PartIsShare(r: Reservation, pool: Pool)
    ensures Part(r, pool) == Share(r, KeyOf(pool), Reserved) + Share(r, KeyOf(pool), Consumed)
  {
  }

  lemma {:induction false} DrawnIsTotal(rs: map<string, Reservation>, pool: Pool)
    ensures Drawn(rs, pool) == Total(rs, KeyOf(pool), Reserved) + Total(rs, KeyOf(pool), Consumed)
    decreases |rs|
  {
    if rs != map[] {
      var key :| key in rs;
      DrawnWithout(rs, pool, key);
      TotalWithout(rs, KeyOf(pool), Reserved, key);
      TotalWithout(rs, KeyOf(pool), Consumed, key);
      PartIsShare(rs[key], pool);
      DrawnIsTotal(rs - {key}, pool);
    } else {
      TotalOfNone(KeyOf(pool), Reserved);
      TotalOfNone(KeyOf(pool), Consumed);
    }
  }

  lemma SpentIsDrawn(b: Budget, pool: Pool)
    requires Inv(b)
    ensures Spent(b, KeyOf(pool)) == Drawn(b.reservations, pool)
  {
    DrawnIsTotal(b.reservations, pool);
    var c := Lookup(b.counters, KeyOf(pool), 1);
    assert c.reserved == Total(b.reservations, KeyOf(pool), Reserved);
    assert c.consumed == Total(b.reservations, KeyOf(pool), Consumed);
  }

  // ----- What a reserve may still take

  /** A positive amount within the payment limit that its Task and its Agent's UTC date still have room for. */
  ghost predicate HasRoom(b: Budget, p: Limits, o: Order, d: int) {
    && 0 < o.amount <= p.perPayment
    && Drawn(b.reservations, TaskPool(p.profileId, o.taskId)) + o.amount <= p.perTask
    && Drawn(b.reservations, DatePool(p.profileId, o.agentId, d)) + o.amount <= p.daily
  }

  lemma RoomIsAffordable(b: Budget, p: Limits, o: Order, d: int)
    requires Inv(b) && OnDate(o.now, d)
    ensures HasRoom(b, p, o, d) <==> Sql.Affordable(b, p, o)
  {
    DayIsDate(o.now, d);
    SpentIsDrawn(b, TaskPool(p.profileId, o.taskId));
    SpentIsDrawn(b, DatePool(p.profileId, o.agentId, d));
  }

  /**
   * After any calls a reserve under a fresh key is accepted exactly when there is room; other Tasks and dates do not
   * count.
   */
  lemma ReservesExactly(calls: seq<Call>, p: Limits, o: Order, d: int)
    requires OnDate(o.now, d) && o.idempotencyKey !in Run(calls).reservations
    ensures Reserve(Run(calls), p, o).1.Success? <==> HasRoom(Run(calls), p, o, d)
  {
    EveryRunBalanced(calls);
    RoomIsAffordable(Run(calls), p, o, d);
    Sql.ReservesAffordable(Run(calls), p, o);
  }

  lemma {:induction false} EverySqlRunBalanced(calls: seq<Call>)
    ensures Inv(Sql.SqlRun(calls)) && Sql.RowsAllowed(Sql.SqlRun(calls))
    decreases |calls|
  {
    if calls == [] {
      EmptyInv();
    } else {
      EverySqlRunBalanced(calls[..|calls| - 1]);
      SqlStepBalanced(Sql.SqlRun(calls[..|calls| - 1]), calls[|calls| - 1]);
    }
  }

  lemma SqlStepBalanced(s: Budget, c: Call)
    requires Inv(s) && Sql.RowsAllowed(s)
    ensures Inv(Sql.SqlStep(s, c).0) && Sql.RowsAllowed(Sql.SqlStep(s, c).0)
  {
    match c
    case ReserveCall(p, o) => Sql.SqlReserveConserves(s, p, o);
    case ConsumeCall(k) => SettleBalanced(s, k, Consumed);
    case ReleaseCall(k, cancelled) => SettleBalanced(s, k, if cancelled then Cancelled else Released);
  }

  lemma SettleBalanced(s: Budget, key: string, target: ReservationStatus)
    requires Inv(s) && Sql.RowsAllowed(s) && !target.Reserved?
    ensures key in s.reservations ==>
      Inv(Sql.SqlMove(s, key, target).0) && Sql.RowsAllowed(Sql.SqlMove(s, key, target).0)
  {
    if key in s.reservations && s.reservations[key].status in {Reserved, target} {
      Sql.SqlMoveConserves(s, key, target);
    }
  }

  /** The database accepts exactly the same, except for a payment identifier that was used before. */
  lemma SqlReservesExactly(calls: seq<Call>, p: Limits, o: Order, d: int)
    requires OnDate(o.now, d) && o.idempotencyKey !in Sql.SqlRun(calls).reservations
    ensures Sql.SqlReserve(Sql.SqlRun(calls), p, o).1.Success? <==>
      && HasRoom(Sql.SqlRun(calls), p, o, d)
      && forall key :: key in Sql.SqlRun(calls).reservations ==>
         Sql.SqlRun(calls).reservations[key].paymentId != o.paymentId
  {
    var s := Sql.SqlRun(calls);
    EverySqlRunBalanced(calls);
    RoomIsAffordable(s, p, o, d);
    DrawnNonNegative(s, TaskPool(p.profileId, o.taskId));
    DrawnNonNegative(s, DatePool(p.profileId, o.agentId, d));
    if p.perTask > 0 && p.daily > 0 {
      Sql.SelfRelated(s);
      Sql.ReserveDecides(s, s, p, o);
      Sql.ReservesAffordable(s, p, o);
    }
  }

  lemma DrawnNonNegative(b: Budget, pool: Pool)
    requires Inv(b)
    ensures Drawn(b.reservations, pool) >= 0
  {
    DrawnIsTotal(b.reservations, pool);
    TotalNonNegative(b.reservations, KeyOf(pool), Reserved);
    TotalNonNegative(b.reservations, KeyOf(pool), Consumed);
  }

  /** Why a fresh reserve is refused, in the order of the checks. */
  lemma RefusesExactly(b: Budget, p: Limits, o: Order, d: int)
    requires Inv(b) && OnDate(o.now, d) && o.idempotencyKey !in b.reservations
    ensures var task, date := Drawn(b.reservations, TaskPool(p.profileId, o.taskId)),
                              Drawn(b.reservations, DatePool(p.profileId, o.agentId, d));
      Reserve(b, p, o).1.Failure? ==>
        Reserve(b, p, o).1.error ==
          if o.amount <= 0 then AmountNotPositive
          else if o.amount > p.perPayment then OverPaymentLimit
          else if task + o.amount > p.perTask then TaskExhausted
          else DailyExhausted
  {
    DayIsDate(o.now, d);
    SpentIsDrawn(b, TaskPool(p.profileId, o.taskId));
    SpentIsDrawn(b, DatePool(p.profileId, o.agentId, d));
  }

  /**
   * The database also refuses, as a violated constraint, limits that are not positive or that the spend already
   * exceeds.
   */
  lemma SqlRefusesExactly(s: Budget, p: Limits, o: Order, d: int)
    requires Inv(s) && Sql.RowsAllowed(s) && OnDate(o.now, d) && o.idempotencyKey !in s.reservations
    ensures var task, date := Drawn(s.reservations, TaskPool(p.profileId, o.taskId)),
                              Drawn(s.reservations, DatePool(p.profileId, o.agentId, d));
      Sql.SqlReserve(s, p, o).1.Failure? ==>
        Sql.SqlReserve(s, p, o).1.error ==
          if o.amount <= 0 then AmountNotPositive
          else if o.amount > p.perPayment then OverPaymentLimit
          else if p.perTask <= 0 || p.daily <= 0 || task > p.perTask || date > p.daily then ConstraintViolated
          else if task + o.amount > p.perTask then TaskExhausted
          else if date + o.amount > p.daily then DailyExhausted
          else ConstraintViolated
  {
    DayIsDate(o.now, d);
    SpentIsDrawn(s, TaskPool(p.profileId, o.taskId));
    SpentIsDrawn(s, DatePool(p.profileId, o.agentId, d));
    Sql.NonNegativeLookup(s, TaskKey(p.profileId, o.taskId));
    Sql.NonNegativeLookup(s, DailyKey(p.profileId, o.agentId, Day(o.now)));
  }

  // ----- What is recorded

  /** The reservation is the one the call asked for, dated by the instant of the call. */
  predicate RecordedFor(r: Reservation, c: Call) {
    && c.ReserveCall?
    && var (p, o) := (c.limits, c.order);
      && r.idempotencyKey == o.idempotencyKey && r.paymentId == o.paymentId && r.agentId == o.agentId
      && r.taskId == o.taskId && r.profileId == p.profileId && r.profileVersion == p.version && r.amount == o.amount
      && OnDate(o.now, r.day)
  }

  lemma StepRecords(b: Budget, c: Call, key: string)
    requires key in Step(b, c).0.reservations
    ensures if key in b.reservations then RecordedSame(b.reservations[key], Step(b, c).0.reservations[key])
            else RecordedFor(Step(b, c).0.reservations[key], c) && Step(b, c).0.reservations[key].status.Reserved?
  {
    if c.ReserveCall? {
      DayIsDate(c.order.now, Day(c.order.now));
    }
  }

  predicate RecordedSame(r: Reservation, r': Reservation) {
    r'.(status := r.status) == r
  }

  /** After any run every reservation was asked for by one of its calls and lies on the UTC date of that call. */
  lemma {:induction false} EveryReservationDated(calls: seq<Call>, key: string)
    requires key in Run(calls).reservations
    ensures exists n :: 0 <= n < |calls| && RecordedFor(Run(calls).reservations[key], calls[n])
    decreases |calls|
  {
    var before, c := calls[..|calls| - 1], calls[|calls| - 1];
    StepRecords(Run(before), c, key);
    if key in Run(before).reservations {
      EveryReservationDated(before, key);
      var n :| 0 <= n < |before| && RecordedFor(Run(before).reservations[key], before[n]);
      assert RecordedFor(Run(calls).reservations[key], calls[n]);
    } else {
      assert RecordedFor(Run(calls).reservations[key], calls[|calls| - 1]);
    }
  }

  // ----- A date's total over a run

  /** Every reserve under the profile brings the same two limits. */
  predicate SteadyLimits(calls: seq<Call>, profileId: string, perTask: int, daily: int) {
    && 0 <= perTask && 0 <= daily
    && forall n :: 0 <= n < |calls| && calls[n].ReserveCall? && calls[n].limits.profileId == profileId ==>
         calls[n].limits.perTask == perTask && calls[n].limits.daily == daily
  }

  function LimitOf(pool: Pool, perTask: int, daily: int): int {
    if pool.TaskPool? then perTask else daily
  }

  lemma MovesDrawLess(b: Budget, c: Call, pool: Pool)
    requires !c.ReserveCall? && Inv(b)
    ensures Drawn(Step(b, c).0.reservations, pool) <= Drawn(b.reservations, pool)
  {
    if c.key in b.reservations {
      DrawnUpdate(b.reservations, pool, c.key, Step(b, c).0.reservations[c.key]);
      assert Step(b, c).0.reservations == b.reservations[c.key := Step(b, c).0.reservations[c.key]];
    }
  }

  lemma ReserveDraws(b: Budget, p: Limits, o: Order, pool: Pool, d: int)
    requires Inv(b) && OnDate(o.now, d)
    ensures var b' := Reserve(b, p, o).0;
      || Drawn(b'.reservations, pool) == Drawn(b.reservations, pool)
      || (pool in {TaskPool(p.profileId, o.taskId), DatePool(p.profileId, o.agentId, d)} && HasRoom(b, p, o, d)
          && Drawn(b'.reservations, pool) == Drawn(b.reservations, pool) + o.amount)
  {
    if Reserve(b, p, o).1.Success? && o.idempotencyKey !in b.reservations {
      DayIsDate(o.now, d);
      RoomIsAffordable(b, p, o, d);
      Sql.ReservesAffordable(b, p, o);
      Sql.ReserveRecords(b, p, o);
      DrawnUpdate(b.reservations, pool, o.idempotencyKey, NewReservation(b, p, o));
    }
  }

  /** Over any run whose limits stay the same no Task ever draws more than its limit, and no Agent on any UTC date. */
  lemma {:induction false} EveryRunWithinPools(calls: seq<Call>, pool: Pool, perTask: int, daily: int)
    requires SteadyLimits(calls, pool.profileId, perTask, daily)
    ensures Drawn(Run(calls).reservations, pool) <= LimitOf(pool, perTask, daily)
    decreases |calls|
  {
    if calls != [] {
      var before, c := calls[..|calls| - 1], calls[|calls| - 1];
      assert c == calls[|calls| - 1];
      EveryRunWithinPools(before, pool, perTask, daily);
      EveryRunBalanced(before);
      if c.ReserveCall? {
        DayIsDate(c.order.now, Day(c.order.now));
        ReserveDraws(Run(before), c.limits, c.order, pool, Day(c.order.now));
      } else {
        MovesDrawLess(Run(before), c, pool);
      }
    }
  }

  // ----- Repeats and settlements

  /**
   * A used key is answered from its reservation when payment, Task, Agent, profile and amount are the same, and refused
   * otherwise.
   */
  lemma RepeatsExactly(b: Budget, p: Limits, o: Order)
    requires o.amount > 0 && o.idempotencyKey in b.reservations
    ensures var r := b.reservations[o.idempotencyKey];
      var same := (r.paymentId, r.taskId, r.agentId, r.profileId, r.amount)
                  == (o.paymentId, o.taskId, o.agentId, p.profileId, o.amount);
      Reserve(b, p, o) == (b, if same then Success((r, true)) else Failure(BoundToAnotherPayment))
  {
  }

  /**
   * After any calls a registered reservation can be consumed unless it was given back, and given back unless it was
   * consumed; it then has the status that was asked for, unless it already was given back in the other way.
   */
  lemma SettlesExactly(calls: seq<Call>, key: string, cancelled: bool)
    requires key in Run(calls).reservations
    ensures var b := Run(calls);
      var r := b.reservations[key];
      var (consumed, released) := (Step(b, ConsumeCall(key)), Step(b, ReleaseCall(key, cancelled)));
      && (consumed.1.Success? <==> r.status.Reserved? || r.status.Consumed?)
      && (consumed.1.Success? ==> consumed.0.reservations == b.reservations[key := r.(status := Consumed)])
      && (released.1.Success? <==> !r.status.Consumed?)
      && (released.1.Success? ==> released.0.reservations == b.reservations[key :=
            if r.status.Reserved? then r.(status := if cancelled then Cancelled else Released) else r])
      && (consumed.1.Failure? ==> consumed.0 == b) && (released.1.Failure? ==> released.0 == b)
  {
    EveryRunBalanced(calls);
  }

  // ----- The counters of one call

  /** The two counters a fresh reserve charges afterwards: the profile's limits, the amount held, one version on. */
  predicate Holds(b: Budget, b': Budget, p: Limits, o: Order, d: int) {
    var tk := CounterKey(p.profileId, TaskScope, o.taskId, Always);
    var dk := CounterKey(p.profileId, DailyScope, o.agentId, Date(d));
    && b'.counters.Keys == b.counters.Keys + {tk, dk}
    && Charges(b, b', tk, p.perTask, o.amount) && Charges(b, b', dk, p.daily, o.amount)
    && forall k :: k in b.counters && k != tk && k != dk ==> b'.counters[k] == b.counters[k]
  }

  predicate Charges(b: Budget, b': Budget, k: CounterKey, limit: int, amount: int) {
    && k in b'.counters && b'.counters[k].limit == limit
    && (if k in b.counters then
          && b'.counters[k].reserved == b.counters[k].reserved + amount
          && b'.counters[k].consumed == b.counters[k].consumed && b'.counters[k].version == b.counters[k].version + 1
        else (b'.counters[k].reserved, b'.counters[k].consumed, b'.counters[k].version) == (amount, 0, 2))
  }

  /** In memory and in the database alike. */
  lemma ReserveHolds(b: Budget, p: Limits, o: Order, d: int)
    requires OnDate(o.now, d) && o.idempotencyKey !in b.reservations
    ensures Reserve(b, p, o).1.Success? ==> Holds(b, Reserve(b, p, o).0, p, o, d)
    ensures Sql.SqlReserve(b, p, o).1.Success? ==> Holds(b, Sql.SqlReserve(b, p, o).0, p, o, d)
  {
    DayIsDate(o.now, d);
  }

  /** A settlement moves the amount out of what is held, into what was paid if it was consumed, one version on. */
  lemma MoveSettles(b: Budget, key: string, target: ReservationStatus, k: CounterKey)
    requires key in b.reservations && b.reservations[key].status.Reserved? && Inv(b) && !target.Reserved?
    ensures var b', r := Move(b, key, target).0, b.reservations[key];
      var touched := k == KeyOf(TaskPool(r.profileId, r.taskId)) || k == KeyOf(DatePool(r.profileId, r.agentId, r.day));
      && b'.counters.Keys == b.counters.Keys
      && (k in b.counters ==>
            if touched then
              && b'.counters[k].reserved == b.counters[k].reserved - r.amount
              && b'.counters[k].consumed == b.counters[k].consumed + (if target == Consumed then r.amount else 0)
              && b'.counters[k].version == b.counters[k].version + 1 && b'.counters[k].limit == b.counters[k].limit
            else b'.counters[k] == b.counters[k])
  {
  }
}
