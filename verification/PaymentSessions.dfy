/** Capped payment sessions: funded up to a ceiling, charged once per voucher, frozen once they leave OPEN. */
module PaymentSessions {
  import opened Results

  datatype SessionStatus = Open | Closed | Revoked | ExpiredSession

  datatype Scope = Scope(taskId: string, serviceId: string, token: string)
  datatype Terms = Terms(scope: Scope, ceiling: int, expiresAt: int)
  datatype Voucher = Voucher(id: string, amount: int, scope: Scope)

  datatype Session = Session(
    funded: int, spent: int, status: SessionStatus, settled: map<string, int>, revokedReason: Option<string>)

  datatype Snapshot = Snapshot(
    ceiling: int, funded: int, spent: int, status: SessionStatus, revokedReason: Option<string>) {
    function Remaining(): int {
      var room := (if ceiling < funded then ceiling else funded) - spent;
      if room < 0 then 0 else room
    }
  }

  datatype SessionError =
    | AmountNotPositive | NotOpen(status: SessionStatus) | ExceedsCeiling | ScopeMismatch | AnotherAmount
    | ExceedsRemaining
    | ReasonMissing

  type Outcome = Result<Snapshot, SessionError>

  /** The clock as one call reads it: when it checks the session, when it reads the balance, when it answers. */
  datatype Clock = Clock(checked: int, read: int, answered: int)

  const FRESH := Session(0, 0, Open, map[], None)

  function Refresh(g: Terms, s: Session, now: int): Session {
    if s.status.Open? && now >= g.expiresAt then s.(status := ExpiredSession) else s
  }

  function SnapshotOf(g: Terms, s: Session): Snapshot {
    Snapshot(g.ceiling, s.funded, s.spent, s.status, s.revokedReason)
  }

  /** Every call answers with a snapshot, which may itself expire the session. */
  function Answer(g: Terms, s: Session, now: int): (Session, Outcome) {
    var t := Refresh(g, s, now);
    (t, Success(SnapshotOf(g, t)))
  }

  function TopUp(g: Terms, s: Session, amount: int, clock: Clock): (Session, Outcome) {
    if amount <= 0 then (s, Failure(AmountNotPositive))
    else
      var t := Refresh(g, s, clock.checked);
      if !t.status.Open? then (t, Failure(NotOpen(t.status)))
      else if t.funded + amount > g.ceiling then (t, Failure(ExceedsCeiling))
      else Answer(g, t.(funded := t.funded + amount), clock.answered)
  }

  function Settle(g: Terms, s: Session, v: Voucher, clock: Clock): (Session, Outcome)
    requires v.amount > 0
  {
    var t := Refresh(g, s, clock.checked);
    if !t.status.Open? then (t, Failure(NotOpen(t.status)))
    else if v.scope != g.scope then (t, Failure(ScopeMismatch))
    else if v.id in t.settled then
      if t.settled[v.id] != v.amount then (t, Failure(AnotherAmount)) else Answer(g, t, clock.answered)
    else
      var u := Refresh(g, t, clock.read);
      if v.amount > SnapshotOf(g, u).Remaining() then (u, Failure(ExceedsRemaining))
      else Answer(g, u.(spent := u.spent + v.amount, settled := u.settled[v.id := v.amount]), clock.answered)
  }

  function Close(g: Terms, s: Session, clock: Clock): (Session, Outcome) {
    var t := Refresh(g, s, clock.checked);
    if !t.status.Open? then (t, Failure(NotOpen(t.status)))
    else Answer(g, t.(status := Closed), clock.answered)
  }

  /**
   * Revocation does not look at the clock first: a session past its expiry that nobody touched can still be revoked.
   */
  function Revoke(g: Terms, s: Session, reason: string, blank: bool, clock: Clock): (Session, Outcome) {
    if blank then (s, Failure(ReasonMissing))
    else if !s.status.Open? then (s, Failure(NotOpen(s.status)))
    else Answer(g, s.(status := Revoked, revokedReason := Some(reason)), clock.answered)
  }

  datatype Call =
    | TopUpCall(amount: int, clock: Clock)
    | SettleCall(voucher: Voucher, clock: Clock)
    | CloseCall(clock: Clock)
    | RevokeCall(reason: string, blank: bool, clock: Clock)
    | SnapshotCall(clock: Clock)

  /** A voucher of no value cannot be built. */
  predicate Possible(c: Call) {
    c.SettleCall? ==> c.voucher.amount > 0
  }

  function Step(g: Terms, s: Session, c: Call): (Session, Outcome)
    requires Possible(c)
  {
    match c
    case TopUpCall(amount, clock) => TopUp(g, s, amount, clock)
    case SettleCall(v, clock) => Settle(g, s, v, clock)
    case CloseCall(clock) => Close(g, s, clock)
    case RevokeCall(reason, blank, clock) => Revoke(g, s, reason, blank, clock)
    case SnapshotCall(clock) => Answer(g, s, clock.answered)
  }

  function RunFrom(g: Terms, s: Session, calls: seq<Call>): Session
    requires forall n :: 0 <= n < |calls| ==> Possible(calls[n])
  {
    if calls == [] then s else Step(g, RunFrom(g, s, calls[..|calls| - 1]), calls[|calls| - 1]).0
  }

  // ----- What every run keeps

  ghost function Sum(m: map<string, int>): int
    decreases |m|
  {
    if m == map[] then 0
    else
      var k :| k in m;
      assert |m - {k}| < |m| by {
        assert m.Keys == (m - {k}).Keys + {k};
      }
      m[k] + Sum(m - {k})
  }

  lemma {:induction false} SumWithout(m: map<string, int>, key: string)
    requires key in m
    ensures Sum(m) == m[key] + Sum(m - {key})
    decreases |m|
  {
    var first :| first in m && Sum(m) == m[first] + Sum(m - {first});
    if first != key {
      assert |m - {first}| < |m| by {
        assert m.Keys == (m - {first}).Keys + {first};
      }
      assert |m - {key}| < |m| by {
        assert m.Keys == (m - {key}).Keys + {key};
      }
      SumWithout(m - {first}, key);
      SumWithout(m - {key}, first);
      assert m - {first} - {key} == m - {key} - {first};
    }
  }

  lemma SumAdd(m: map<string, int>, key: string, amount: int)
    requires key !in m
    ensures Sum(m[key := amount]) == Sum(m) + amount
  {
    SumWithout(m[key := amount], key);
    assert m[key := amount] - {key} == m;
  }

  ghost predicate Inv(g: Terms, s: Session) {
    && s.spent == Sum(s.settled)
    && 0 <= s.spent <= s.funded <= g.ceiling
    && (forall id :: id in s.settled ==> 0 < s.settled[id])
  }

  lemma StepKeeps(g: Terms, s: Session, c: Call)
    requires Possible(c) && Inv(g, s)
    ensures Inv(g, Step(g, s, c).0)
    ensures Step(g, s, c).1.Success? ==>
      Step(g, s, c).1.value.Remaining() == Step(g, s, c).0.funded - Step(g, s, c).0.spent
  {
    if c.SettleCall? && c.voucher.id !in s.settled {
      SumAdd(s.settled, c.voucher.id, c.voucher.amount);
    }
  }

  /**
   * After any run: spent is the sum over the settled vouchers, each counted once, and 0 <= spent <= funded <= ceiling.
   */
  lemma {:induction false} EveryRunWithinCeiling(g: Terms, calls: seq<Call>)
    requires g.ceiling > 0 && forall n :: 0 <= n < |calls| ==> Possible(calls[n])
    ensures Inv(g, RunFrom(g, FRESH, calls))
    decreases |calls|
  {
    if calls == [] {
      assert Sum(FRESH.settled) == 0;
    } else {
      EveryRunWithinCeiling(g, calls[..|calls| - 1]);
      StepKeeps(g, RunFrom(g, FRESH, calls[..|calls| - 1]), calls[|calls| - 1]);
    }
  }

  /** Once a session has left OPEN no run changes anything in it. */
  lemma {:induction false} LeftOpenStays(g: Terms, s: Session, calls: seq<Call>)
    requires !s.status.Open? && forall n :: 0 <= n < |calls| ==> Possible(calls[n])
    ensures RunFrom(g, s, calls) == s
    decreases |calls|
  {
    if calls != [] {
      LeftOpenStays(g, s, calls[..|calls| - 1]);
    }
  }

  lemma {:induction false} SettledStays(g: Terms, s: Session, calls: seq<Call>, id: string)
    requires id in s.settled && forall n :: 0 <= n < |calls| ==> Possible(calls[n])
    ensures id in RunFrom(g, s, calls).settled && RunFrom(g, s, calls).settled[id] == s.settled[id]
    decreases |calls|
  {
    if calls != [] {
      SettledStays(g, s, calls[..|calls| - 1], id);
    }
  }

  /**
   * A voucher id charges once: sent again it changes no amount, and it is accepted exactly when the session is still
   * open and its amount and scope are the same.
   */
  lemma VoucherChargesOnce(g: Terms, s: Session, v: Voucher, clock: Clock, between: seq<Call>, again: Voucher,
                           clock': Clock)
    requires v.amount > 0 && again.amount > 0 && again.id == v.id && Settle(g, s, v, clock).1.Success?
    requires forall n :: 0 <= n < |between| ==> Possible(between[n])
    ensures var t := RunFrom(g, Settle(g, s, v, clock).0, between);
      var (t', reply) := Settle(g, t, again, clock');
      && t'.spent == t.spent && t'.funded == t.funded && t'.settled == t.settled
      && (reply.Success? <==> t.status.Open? && clock'.checked < g.expiresAt && again == v)
  {
    SettledStays(g, Settle(g, s, v, clock).0, between, v.id);
  }

  /**
   * A new voucher is charged exactly when the session is open and unexpired at the check, the scope fits and the
   * balance covers it.
   */
  lemma ChargesExactly(g: Terms, s: Session, v: Voucher, clock: Clock)
    requires Inv(g, s) && v.amount > 0 && v.id !in s.settled
    ensures Settle(g, s, v, clock).0.spent == s.spent + v.amount <==>
      s.status.Open? && clock.checked < g.expiresAt && v.scope == g.scope && v.amount <= s.funded - s.spent
    ensures Settle(g, s, v, clock).0.spent != s.spent + v.amount ==> Settle(g, s, v, clock).0.settled == s.settled
  {
  }

  /** A clock that passes the expiry between the check and the balance leaves an expired session charged. */
  lemma ChargedWhileExpiring(g: Terms, s: Session, v: Voucher, clock: Clock)
    requires Inv(g, s) && s.status.Open? && v.id !in s.settled && v.scope == g.scope
      && 0 < v.amount <= s.funded - s.spent
    requires clock.checked < g.expiresAt
    ensures Settle(g, s, v, clock).0.spent == s.spent + v.amount
    ensures Settle(g, s, v, clock).0.status.ExpiredSession?
      <==> clock.read >= g.expiresAt || clock.answered >= g.expiresAt
  {
  }
}
