/** The MPP budget ledger: per-Task and per-day counters that cache sums over the reservations. */
module BudgetLedger {
  import opened Results

  datatype Scope = TaskScope | DailyScope
  /** TASK counters all use the period key "UTC"; DAILY counters use the UTC date. */
  datatype Period = Always | Date(day: int)
  datatype CounterKey = CounterKey(profileId: string, scope: Scope, scopeId: string, period: Period)
  datatype Counter = Counter(limit: int, reserved: int, consumed: int, version: int)

  datatype ReservationStatus = Reserved | Consumed | Released | Cancelled
  datatype Reservation = Reservation(
    id: nat, idempotencyKey: string, paymentId: string, agentId: string, taskId: string, profileId: string,
    profileVersion: int, amount: int, day: int, status: ReservationStatus)

  datatype Budget = Budget(counters: map<CounterKey, Counter>, reservations: map<string, Reservation>, nextId: nat)

  datatype Limits = Limits(profileId: string, version: int, perPayment: int, perTask: int, daily: int)
  datatype Order = Order(
    paymentId: string, idempotencyKey: string, taskId: string, agentId: string, amount: int, now: int)

  datatype BudgetError =
    | AmountNotPositive | OverPaymentLimit | TaskExhausted | DailyExhausted | BoundToAnotherPayment
    | NotReserved(status: ReservationStatus) | NotRegistered | CounterMissing | ConstraintViolated

  type Reply = Result<(Reservation, bool), BudgetError>

  const EMPTY := Budget(map[], map[], 0)
  const SECONDS_PER_DAY := 86400

  function Day(now: int): int {
    now / SECONDS_PER_DAY
  }

  function TaskKey(profileId: string, taskId: string): CounterKey {
    CounterKey(profileId, TaskScope, taskId, Always)
  }

  function DailyKey(profileId: string, agentId: string, day: int): CounterKey {
    CounterKey(profileId, DailyScope, agentId, Date(day))
  }

  function TaskKeyOf(r: Reservation): CounterKey {
    TaskKey(r.profileId, r.taskId)
  }

  function DailyKeyOf(r: Reservation): CounterKey {
    DailyKey(r.profileId, r.agentId, r.day)
  }

  function Available(c: Counter): int {
    c.limit - c.reserved - c.consumed
  }

  /** A counter that was never created reads as an empty one. */
  function Lookup(counters: map<CounterKey, Counter>, k: CounterKey, limit: int): Counter {
    if k in counters then counters[k] else Counter(limit, 0, 0, 1)
  }

  function Spent(b: Budget, k: CounterKey): int {
    if k in b.counters then b.counters[k].reserved + b.counters[k].consumed else 0
  }

  function CurrentSpend(b: Budget, profileId: string, taskId: string, agentId: string, now: int): (int, int) {
    (Spent(b, TaskKey(profileId, taskId)), Spent(b, DailyKey(profileId, agentId, Day(now))))
  }

  // ----- Specifications of the in-memory operations

  predicate SamePayment(r: Reservation, p: Limits, o: Order) {
    && r.paymentId == o.paymentId && r.taskId == o.taskId && r.agentId == o.agentId
    && r.amount == o.amount && r.profileId == p.profileId
  }

  function NewReservation(b: Budget, p: Limits, o: Order): Reservation {
    Reservation(b.nextId, o.idempotencyKey, o.paymentId, o.agentId, o.taskId, p.profileId, p.version, o.amount,
                Day(o.now), Reserved)
  }

  function Hold(c: Counter, amount: int): Counter {
    c.(reserved := c.reserved + amount, version := c.version + 1)
  }

  function Settle(c: Counter, amount: int, target: ReservationStatus): Counter {
    c.(reserved := c.reserved - amount,
       consumed := if target.Consumed? then c.consumed + amount else c.consumed,
       version := c.version + 1)
  }

  function Reserve(b: Budget, p: Limits, o: Order): (Budget, Reply) {
    if o.amount <= 0 then (b, Failure(AmountNotPositive))
    else if o.idempotencyKey in b.reservations then
      var existing := b.reservations[o.idempotencyKey];
      (b, if SamePayment(existing, p, o) then Success((existing, true)) else Failure(BoundToAnotherPayment))
    else
      var tk, dk := TaskKey(p.profileId, o.taskId), DailyKey(p.profileId, o.agentId, Day(o.now));
      var task := Lookup(b.counters, tk, p.perTask).(limit := p.perTask);
      var daily := Lookup(b.counters, dk, p.daily).(limit := p.daily);
      var limited := b.(counters := b.counters[tk := task][dk := daily]);
      if o.amount > p.perPayment then (limited, Failure(OverPaymentLimit))
      else if Available(task) < o.amount then (limited, Failure(TaskExhausted))
      else if Available(daily) < o.amount then (limited, Failure(DailyExhausted))
      else
        var r := NewReservation(b, p, o);
        (Budget(b.counters[tk := Hold(task, o.amount)][dk := Hold(daily, o.amount)],
                b.reservations[o.idempotencyKey := r], b.nextId + 1),
         Success((r, false)))
  }

  function Move(b: Budget, key: string, target: ReservationStatus): (Budget, Reply)
    requires key in b.reservations
  {
    var r := b.reservations[key];
    var tk, dk := TaskKeyOf(r), DailyKeyOf(r);
    if !r.status.Reserved? then (b, Failure(NotReserved(r.status)))
    else if tk !in b.counters || dk !in b.counters then (b, Failure(CounterMissing))
    else
      var moved := r.(status := target);
      var settled := b.counters[tk := Settle(b.counters[tk], r.amount, target)];
      (b.(counters := settled[dk := Settle(b.counters[dk], r.amount, target)],
          reservations := b.reservations[key := moved]),
       Success((moved, false)))
  }

  function Consume(b: Budget, key: string): (Budget, Reply)
    requires key in b.reservations
  {
    if b.reservations[key].status.Consumed? then (b, Success((b.reservations[key], true))) else Move(b, key, Consumed)
  }

  function Release(b: Budget, key: string, cancelled: bool): (Budget, Reply)
    requires key in b.reservations
  {
    var r := b.reservations[key];
    if r.status.Released? || r.status.Cancelled? then (b, Success((r, true)))
    else Move(b, key, if cancelled then Cancelled else Released)
  }

  datatype Call =
    | ReserveCall(limits: Limits, order: Order) | ConsumeCall(key: string) | ReleaseCall(key: string, cancelled: bool)

  function Step(b: Budget, c: Call): (Budget, Reply) {
    match c
    case ReserveCall(p, o) => Reserve(b, p, o)
    case ConsumeCall(k) => if k in b.reservations then Consume(b, k) else (b, Failure(NotRegistered))
    case ReleaseCall(k, cancelled) =>
      if k in b.reservations then Release(b, k, cancelled) else (b, Failure(NotRegistered))
  }

  function Run(calls: seq<Call>): Budget {
    if calls == [] then EMPTY else Step(Run(calls[..|calls| - 1]), calls[|calls| - 1]).0
  }

  // ----- Totals over reservations

  function Share(r: Reservation, k: CounterKey, status: ReservationStatus): int {
    if r.status == status && (k == TaskKeyOf(r) || k == DailyKeyOf(r)) then r.amount else 0
  }

  ghost function Total(rs: map<string, Reservation>, k: CounterKey, status: ReservationStatus): int
    decreases |rs|
  {
    if rs == map[] then 0
    else
      var key :| key in rs;
      Share(rs[key], k, status) + Total(rs - {key}, k, status)
  }

  lemma {:induction false} TotalWithout(rs: map<string, Reservation>, k: CounterKey, status: ReservationStatus,
                                        key: string)
    requires key in rs
    ensures Total(rs, k, status) == Share(rs[key], k, status) + Total(rs - {key}, k, status)
    decreases |rs|
  {
    var first :| first in rs && Total(rs, k, status) == Share(rs[first], k, status) + Total(rs - {first}, k, status);
    if first != key {
      TotalWithout(rs - {first}, k, status, key);
      TotalWithout(rs - {key}, k, status, first);
      assert rs - {first} - {key} == rs - {key} - {first};
    }
  }

  lemma TotalUpdate(rs: map<string, Reservation>, k: CounterKey, status: ReservationStatus, key: string, r: Reservation)
    ensures Total(rs[key := r], k, status)
         == Total(rs, k, status) + Share(r, k, status) - (if key in rs then Share(rs[key], k, status) else 0)
  {
    TotalWithout(rs[key := r], k, status, key);
    if key in rs {
      assert rs[key := r] - {key} == rs - {key};
      TotalWithout(rs, k, status, key);
    } else {
      assert rs[key := r] - {key} == rs;
    }
  }

  lemma {:induction false} TotalNonNegative(rs: map<string, Reservation>, k: CounterKey, status: ReservationStatus)
    requires forall key :: key in rs ==> rs[key].amount > 0
    ensures Total(rs, k, status) >= 0
    decreases |rs|
  {
    if rs != map[] {
      var key :| key in rs && Total(rs, k, status) == Share(rs[key], k, status) + Total(rs - {key}, k, status);
      TotalNonNegative(rs - {key}, k, status);
      assert Share(rs[key], k, status) >= 0;
    } else {
      TotalOfNone(k, status);
    }
  }

  // ----- Conservation

  /** Each counter's cached amounts are the sums of its reservations; a missing counter has none. */
  ghost predicate Balanced(b: Budget) {
    forall k: CounterKey ::
      && Lookup(b.counters, k, 1).reserved == Total(b.reservations, k, Reserved)
      && Lookup(b.counters, k, 1).consumed == Total(b.reservations, k, Consumed)
  }

  ghost predicate WellFormed(b: Budget) {
    && (forall key :: key in b.reservations ==>
          var r := b.reservations[key];
          && r.idempotencyKey == key && r.amount > 0 && r.id < b.nextId
          && TaskKeyOf(r) in b.counters && DailyKeyOf(r) in b.counters)
    && (forall key, other :: key in b.reservations && other in b.reservations && key != other ==>
          b.reservations[key].id != b.reservations[other].id)
  }

  ghost predicate Inv(b: Budget) {
    Balanced(b) && WellFormed(b)
  }

  lemma TotalOfNone(k: CounterKey, status: ReservationStatus)
    ensures Total(map[], k, status) == 0
  {
  }

  lemma EmptyInv()
    ensures Inv(EMPTY)
  {
    forall k: CounterKey
      ensures Lookup(EMPTY.counters, k, 1).reserved == Total(EMPTY.reservations, k, Reserved)
      ensures Lookup(EMPTY.counters, k, 1).consumed == Total(EMPTY.reservations, k, Consumed)
    {
      TotalOfNone(k, Reserved);
      TotalOfNone(k, Consumed);
    }
  }

  lemma ReserveBalanced(b: Budget, p: Limits, o: Order, k: CounterKey)
    requires Inv(b)
    ensures var b' := Reserve(b, p, o).0;
      && Lookup(b'.counters, k, 1).reserved == Total(b'.reservations, k, Reserved)
      && Lookup(b'.counters, k, 1).consumed == Total(b'.reservations, k, Consumed)
  {
    assert Lookup(b.counters, k, 1).reserved == Total(b.reservations, k, Reserved);
    if Reserve(b, p, o).1.Success? && o.idempotencyKey !in b.reservations {
      var r := NewReservation(b, p, o);
      TotalUpdate(b.reservations, k, Reserved, o.idempotencyKey, r);
      TotalUpdate(b.reservations, k, Consumed, o.idempotencyKey, r);
      ReserveCounters(b, p, o, k);
    } else {
      RefusalSpendsNothing(b, ReserveCall(p, o));
    }
  }

  lemma ReserveCounters(b: Budget, p: Limits, o: Order, k: CounterKey)
    requires Reserve(b, p, o).1.Success? && o.idempotencyKey !in b.reservations
    ensures Reserve(b, p, o).0.reservations == b.reservations[o.idempotencyKey := NewReservation(b, p, o)]
    ensures Lookup(Reserve(b, p, o).0.counters, k, 1).reserved
         == Lookup(b.counters, k, 1).reserved + Share(NewReservation(b, p, o), k, Reserved)
    ensures Lookup(Reserve(b, p, o).0.counters, k, 1).consumed == Lookup(b.counters, k, 1).consumed
  {
  }

  lemma ReserveKeeps(b: Budget, p: Limits, o: Order)
    requires Inv(b)
    ensures Inv(Reserve(b, p, o).0)
  {
    assert Balanced(Reserve(b, p, o).0) by {
      forall k: CounterKey
        ensures var b' := Reserve(b, p, o).0;
          && Lookup(b'.counters, k, 1).reserved == Total(b'.reservations, k, Reserved)
          && Lookup(b'.counters, k, 1).consumed == Total(b'.reservations, k, Consumed)
      {
        ReserveBalanced(b, p, o, k);
      }
    }
    ReserveWellFormed(b, p, o);
  }

  lemma ReserveWellFormed(b: Budget, p: Limits, o: Order)
    requires WellFormed(b)
    ensures WellFormed(Reserve(b, p, o).0)
  {
  }

  lemma MoveKeeps(b: Budget, key: string, target: ReservationStatus)
    requires Inv(b) && key in b.reservations && !target.Reserved?
    ensures Inv(Move(b, key, target).0)
  {
    var b' := Move(b, key, target).0;
    var r := b.reservations[key];
    forall k: CounterKey
      ensures Lookup(b'.counters, k, 1).reserved == Total(b'.reservations, k, Reserved)
      ensures Lookup(b'.counters, k, 1).consumed == Total(b'.reservations, k, Consumed)
    {
      assert Lookup(b.counters, k, 1).reserved == Total(b.reservations, k, Reserved);
      if b'.reservations != b.reservations {
        TotalUpdate(b.reservations, k, Reserved, key, r.(status := target));
        TotalUpdate(b.reservations, k, Consumed, key, r.(status := target));
      }
    }
  }

  lemma StepKeeps(b: Budget, c: Call)
    requires Inv(b)
    ensures Inv(Step(b, c).0)
  {
    match c
    case ReserveCall(p, o) => ReserveKeeps(b, p, o);
    case ConsumeCall(k) => if k in b.reservations { MoveKeeps(b, k, Consumed); }
    case ReleaseCall(k, cancelled) =>
      if k in b.reservations { MoveKeeps(b, k, Cancelled); MoveKeeps(b, k, Released); }
  }

  /** In every reachable state every counter is the sum of its reservations. */
  lemma {:induction false} EveryRunBalanced(calls: seq<Call>)
    ensures Inv(Run(calls))
    decreases |calls|
  {
    if calls == [] {
      EmptyInv();
    } else {
      EveryRunBalanced(calls[..|calls| - 1]);
      StepKeeps(Run(calls[..|calls| - 1]), calls[|calls| - 1]);
    }
  }

  /** So no cached amount is ever negative. */
  lemma CountersNonNegative(b: Budget, k: CounterKey)
    requires Inv(b) && k in b.counters
    ensures b.counters[k].reserved >= 0 && b.counters[k].consumed >= 0
  {
    TotalNonNegative(b.reservations, k, Reserved);
    TotalNonNegative(b.reservations, k, Consumed);
  }

  /** A refused or replayed call changes no spend and no reservation. */
  lemma RefusalSpendsNothing(b: Budget, c: Call)
    requires Step(b, c).1.Failure? || Step(b, c).1.value.1
    ensures Step(b, c).0.reservations == b.reservations
    ensures forall k :: Lookup(Step(b, c).0.counters, k, 1).(limit := 1) == Lookup(b.counters, k, 1).(limit := 1)
  {
  }

  /** A reservation is decided once: it never returns to RESERVED and a decided one never changes. */
  lemma DecidedStays(b: Budget, c: Call, key: string)
    requires key in b.reservations
    ensures key in Step(b, c).0.reservations
    ensures var r, r' := b.reservations[key], Step(b, c).0.reservations[key];
      r'.(status := r.status) == r && (!r.status.Reserved? ==> r' == r)
  {
  }

  // ----- Limits

  predicate Within(c: Counter) {
    c.reserved + c.consumed <= c.limit
  }

  ghost predicate WithinLimits(b: Budget) {
    forall k :: k in b.counters ==> Within(b.counters[k])
  }

  /**
   * A reserve with a fresh key keeps every counter within its limit exactly when the new limits cover what is already
   * spent, whether or not the reserve succeeds.
   */
  lemma ReserveWithinLimits(b: Budget, p: Limits, o: Order)
    requires WithinLimits(b) && o.amount > 0 && o.idempotencyKey !in b.reservations && p.perTask >= 0 && p.daily >= 0
    ensures WithinLimits(Reserve(b, p, o).0) <==>
      var (task, daily) := CurrentSpend(b, p.profileId, o.taskId, o.agentId, o.now);
      task <= p.perTask && daily <= p.daily
  {
    var b' := Reserve(b, p, o).0;
    var tk, dk := TaskKey(p.profileId, o.taskId), DailyKey(p.profileId, o.agentId, Day(o.now));
    if WithinLimits(b') {
      assert Within(b'.counters[tk]) && Within(b'.counters[dk]);
    }
  }

  lemma MoveWithinLimits(b: Budget, key: string, target: ReservationStatus)
    requires Inv(b) && WithinLimits(b) && key in b.reservations && !target.Reserved?
    ensures WithinLimits(Move(b, key, target).0)
  {
  }

  /** The limits a call brings never fall below those of the counters it touches. */
  predicate LimitsDoNotDrop(b: Budget, c: Call) {
    c.ReserveCall? ==>
      var p, o := c.limits, c.order;
      var tk, dk := TaskKey(p.profileId, o.taskId), DailyKey(p.profileId, o.agentId, Day(o.now));
      && 0 <= p.perTask && 0 <= p.daily
      && (tk in b.counters ==> b.counters[tk].limit <= p.perTask)
      && (dk in b.counters ==> b.counters[dk].limit <= p.daily)
  }

  /** While limits never drop, reserved plus consumed never exceeds any limit. */
  lemma {:induction false} EveryRunWithinLimits(calls: seq<Call>)
    requires forall n :: 0 <= n < |calls| ==> LimitsDoNotDrop(Run(calls[..n]), calls[n])
    ensures WithinLimits(Run(calls))
    decreases |calls|
  {
    if calls != [] {
      var before, c := calls[..|calls| - 1], calls[|calls| - 1];
      forall n | 0 <= n < |before|
        ensures LimitsDoNotDrop(Run(before[..n]), before[n])
      {
        assert before[..n] == calls[..n];
      }
      EveryRunWithinLimits(before);
      EveryRunBalanced(before);
      var b := Run(before);
      match c
      case ReserveCall(p, o) =>
        if o.amount > 0 && o.idempotencyKey !in b.reservations { ReserveWithinLimits(b, p, o); }
      case ConsumeCall(k) => if k in b.reservations { MoveWithinLimits(b, k, Consumed); }
      case ReleaseCall(k, cancelled) =>
        if k in b.reservations { MoveWithinLimits(b, k, Cancelled); MoveWithinLimits(b, k, Released); }
    }
  }

  /** A dropped limit breaks it: five units stay reserved against a limit of three. */
  lemma DroppedLimitIsExceeded()
    ensures !WithinLimits(Run([ReserveCall(Limits("p", 1, 9, 10, 10), Order("a", "k1", "t", "g", 5, 0)),
                               ReserveCall(Limits("p", 2, 3, 3, 3), Order("b", "k2", "t", "g", 1, 0))]))
  {
    var first := ReserveCall(Limits("p", 1, 9, 10, 10), Order("a", "k1", "t", "g", 5, 0));
    var second := ReserveCall(Limits("p", 2, 3, 3, 3), Order("b", "k2", "t", "g", 1, 0));
    assert [first, second][..1] == [first] && [first][..0] == [];
    var tk := TaskKey("p", "t");
    var b1 := Run([first]);
    assert Run([first]) == Step(Run([first][..0]), first).0;
    assert Run([]) == EMPTY;
    assert b1 == Step(EMPTY, first).0;
    assert b1.counters[tk].reserved == 5;
    var b2 := Run([first, second]);
    assert b2 == Step(b1, second).0;
    assert !Within(b2.counters[tk]);
  }
}
