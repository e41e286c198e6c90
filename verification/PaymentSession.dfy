/** A payment session updated in place. */
module PaymentSession {
  import opened Results
  import opened PaymentSessions
  import Spec = PaymentSessions

  lemma Grows(g: Terms, history: seq<Call>, c: Call)
    requires Possible(c) && forall n :: 0 <= n < |history| ==> Possible(history[n])
    ensures forall n :: 0 <= n < |history + [c]| ==> Possible((history + [c])[n])
    ensures RunFrom(g, FRESH, history + [c]) == Step(g, RunFrom(g, FRESH, history), c).0
  {
    assert (history + [c])[..|history + [c]| - 1] == history;
  }

  class MppPaymentSession {
    const terms: Terms
    var fundedUnits: int
    var spentUnits: int
    var status: SessionStatus
    var settled: map<string, int>
    var revokedReason: Option<string>
    ghost var history: seq<Call>

    function Contents(): Session
      reads this
    {
      Session(fundedUnits, spentUnits, status, settled, revokedReason)
    }

    /** The session is in the state its commands so far lead to. */
    ghost predicate Reached()
      reads this
    {
      (forall n :: 0 <= n < |history| ==> Possible(history[n])) && Contents() == RunFrom(terms, FRESH, history)
    }

    constructor (terms: Terms)
      requires terms.ceiling > 0
      ensures this.terms == terms && Reached() && history == []
    {
      this.terms := terms;
      fundedUnits, spentUnits, status, settled, revokedReason := 0, 0, Open, map[], None;
      history := [];
    }

    method RefreshExpiry(now: int)
      modifies this`status
      ensures Contents() == Refresh(terms, old(Contents()), now)
    {
      if status.Open? && now >= terms.expiresAt {
        status := ExpiredSession;
      }
    }

    method TakeSnapshot(now: int) returns (snapshot: Snapshot)
      modifies this`status
      ensures (Contents(), Success(snapshot)) == Answer(terms, old(Contents()), now)
    {
      RefreshExpiry(now);
      return SnapshotOf(terms, Contents());
    }

    method TopUp(amount: int, clock: Clock) returns (reply: Outcome)
      requires Reached()
      modifies this`status, this`fundedUnits, this`history
      ensures Reached() && history == old(history) + [TopUpCall(amount, clock)]
      ensures (Contents(), reply) == Spec.TopUp(terms, old(Contents()), amount, clock)
    {
      Grows(terms, history, TopUpCall(amount, clock));
      history := history + [TopUpCall(amount, clock)];
      if amount <= 0 {
        return Failure(AmountNotPositive);
      }
      RefreshExpiry(clock.checked);
      if !status.Open? {
        return Failure(NotOpen(status));
      }
      if fundedUnits + amount > terms.ceiling {
        return Failure(ExceedsCeiling);
      }
      fundedUnits := fundedUnits + amount;
      var snapshot := TakeSnapshot(clock.answered);
      return Success(snapshot);
    }

    method Settle(v: Voucher, clock: Clock) returns (reply: Outcome)
      requires Reached() && v.amount > 0
      modifies this`status, this`spentUnits, this`settled, this`history
      ensures Reached() && history == old(history) + [SettleCall(v, clock)]
      ensures (Contents(), reply) == Spec.Settle(terms, old(Contents()), v, clock)
    {
      Grows(terms, history, SettleCall(v, clock));
      history := history + [SettleCall(v, clock)];
      RefreshExpiry(clock.checked);
      if !status.Open? {
        return Failure(NotOpen(status));
      }
      if v.scope != terms.scope {
        return Failure(ScopeMismatch);
      }
      if v.id in settled && settled[v.id] != v.amount {
        return Failure(AnotherAmount);
      }
      if v.id !in settled {
        var balance := TakeSnapshot(clock.read);
        if v.amount > balance.Remaining() {
          return Failure(ExceedsRemaining);
        }
        spentUnits := spentUnits + v.amount;
        settled := settled[v.id := v.amount];
      }
      var snapshot := TakeSnapshot(clock.answered);
      return Success(snapshot);
    }

    method Close(clock: Clock) returns (reply: Outcome)
      requires Reached()
      modifies this`status, this`history
      ensures Reached() && history == old(history) + [CloseCall(clock)]
      ensures (Contents(), reply) == Spec.Close(terms, old(Contents()), clock)
    {
      Grows(terms, history, CloseCall(clock));
      history := history + [CloseCall(clock)];
      RefreshExpiry(clock.checked);
      if !status.Open? {
        return Failure(NotOpen(status));
      }
      status := Closed;
      var snapshot := TakeSnapshot(clock.answered);
      return Success(snapshot);
    }

    method Revoke(reason: string, blank: bool, clock: Clock) returns (reply: Outcome)
      requires Reached()
      modifies this`status, this`revokedReason, this`history
      ensures Reached() && history == old(history) + [RevokeCall(reason, blank, clock)]
      ensures (Contents(), reply) == Spec.Revoke(terms, old(Contents()), reason, blank, clock)
    {
      Grows(terms, history, RevokeCall(reason, blank, clock));
      history := history + [RevokeCall(reason, blank, clock)];
      if blank {
        return Failure(ReasonMissing);
      }
      if !status.Open? {
        return Failure(NotOpen(status));
      }
      status := Revoked;
      revokedReason := Some(reason);
      var snapshot := TakeSnapshot(clock.answered);
      return Success(snapshot);
    }
  }
}
