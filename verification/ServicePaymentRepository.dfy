/** The Service Payment transactions step by step, over the budget rows of MppPolicyRepository. */
module ServicePaymentRepository {
  import opened Results
  import opened PaymentProfile
  import opened MppPolicy
  import opened ServicePayments
  import opened ServicePaymentSafety
  import Spec = ServicePayments
  import Ledger = BudgetLedger
  import BudgetTransactions

  lemma Grows(history: seq<Call>, c: Call)
    ensures Run(history + [c]) == Step(Run(history), c)
  {
    assert (history + [c])[..|history + [c]| - 1] == history;
  }

  class ServicePaymentRepository {
    const policy: BudgetTransactions.MppPolicyRepository
    var payments: map<string, Payment>
    var decisions: map<string, (string, Decision)>
    var approvals: map<string, Option<Answer>>
    var authorized: set<string>
    var cancelled: set<string>
    ghost var history: seq<Call>

    function Contents(): Tables
      reads this, policy
    {
      Tables(payments, decisions, approvals, authorized, cancelled, policy.committed)
    }

    /** No transaction is open, and the rows are those that the calls so far lead to. */
    ghost predicate Reached()
      reads this, policy
    {
      policy.Idle() && Contents() == Run(history)
    }

    constructor ()
      ensures fresh(policy) && Reached() && history == []
    {
      policy := new BudgetTransactions.MppPolicyRepository();
      payments, decisions, approvals, authorized, cancelled := map[], map[], map[], {}, {};
      history := [];
    }

    method FindByChallengeOrNonce(a: Ask) returns (found: Option<string>)
      ensures found.Some? ==> SharesChallengeOrNonce(Contents(), a, found.value)
      ensures found.None? ==> forall key :: !SharesChallengeOrNonce(Contents(), a, key)
    {
      var left := payments.Keys;
      while left != {}
        invariant left <= payments.Keys
        invariant forall key :: SharesChallengeOrNonce(Contents(), a, key) ==> key in left
        decreases left
      {
        var key :| key in left;
        if payments[key].ask.challengeId == a.challengeId || payments[key].ask.nonce == a.nonce {
          return Some(key);
        }
        left := left - {key};
      }
      return None;
    }

    method Record(a: Ask, d: Decision) returns (ok: bool)
      modifies this`decisions
      ensures ok == RecordDecision(old(Contents()), a, d).Success?
      ensures decisions == if ok then old(decisions)[a.paymentId := (a.idempotencyKey, d)] else old(decisions)
    {
      if a.paymentId in decisions && decisions[a.paymentId] != (a.idempotencyKey, d) {
        return false;
      }
      decisions := decisions[a.paymentId := (a.idempotencyKey, d)];
      return true;
    }

    method EnqueueOwnerApproval(key: string)
      modifies this`approvals
      ensures approvals == Enqueued(old(approvals), key)
    {
      if key !in approvals {
        approvals := approvals[key := None];
      }
    }

    /** Reserves budget when the amount fits, and leaves the transaction open. */
    method ReserveWithinLimits(c: Context, p: Profile, now: int) returns (reply: Result<Option<nat>, ProposalError>)
      requires policy.Idle()
      modifies policy`counters, policy`reservations, policy`nextId
      ensures var expected := ReserveIfFits(policy.committed, c, p, now);
        && (reply.Failure? ==> expected == Failure(reply.error))
        && (reply.Success? ==> expected == Success((policy.Working(), reply.value)))
    {
      if !FitsLimits(c, p) {
        return Success(None);
      }
      var reserved := policy.ReserveStatements(LimitsOf(p), OrderOf(c, now));
      return if reserved.Failure? then Failure(BudgetRefused(reserved.error)) else Success(Some(reserved.value.0.id));
    }

    /** From the policy evaluation to the committed rows. */
    method Evaluate(a: Ask, e: Env, p: Profile) returns (reply: Outcome)
      requires policy.Idle()
      modifies this`payments, this`decisions, this`approvals, policy
      ensures policy.Idle()
      ensures (Contents(), reply) == Decide(old(Contents()), a, e, p)
    {
      var c := Spec.ContextOf(Contents(), a, e, p);
      var d := EvaluateContext(c, e.stops, e.now);
      if d.Deny? {
        if !e.recordDenied {
          return Failure(PolicyDenied);
        }
        var recorded := Record(a, Deny);
        return if recorded then Success(DeniedAndRecorded(a)) else Failure(DecisionConflict);
      }
      var reserved := ReserveWithinLimits(c, p, e.now);
      if reserved.Failure? {
        policy.Rollback();
        return Failure(reserved.error);
      }
      var recorded := Record(a, d);
      if !recorded {
        policy.Rollback();
        return Failure(DecisionConflict);
      }
      var payment := Payment(a, d, if d.Allow? then Proposed else AwaitingApproval, reserved.value);
      payments := payments[a.idempotencyKey := payment];
      if d.RequireOwnerApproval? {
        EnqueueOwnerApproval(a.idempotencyKey);
      }
      policy.Commit();
      return Success(Recorded(payment, false));
    }

    method Propose(a: Ask, e: Env) returns (reply: Outcome)
      requires Reached()
      modifies this, policy
      ensures Reached() && history == old(history) + [ProposeCall(a, e)]
      ensures (Contents(), reply) == Spec.Propose(old(Contents()), a, e)
    {
      EveryRunBacked(history);
      Grows(history, ProposeCall(a, e));
      history := history + [ProposeCall(a, e)];
      if !e.actorAllowed {
        return Failure(ActorRefused);
      }
      if a.idempotencyKey in payments {
        return SameRequest(payments[a.idempotencyKey], a);
      }
      var found := FindByChallengeOrNonce(a);
      if found.Some? {
        assert forall key :: SharesChallengeOrNonce(Contents(), a, key) ==> Backed(Contents(), key);
        return SameRequest(payments[found.value], a);
      }
      if !e.inTaskScope {
        return Failure(OutOfTaskScope);
      }
      if a.profileId.None? || a.profileVersion.None? {
        return Failure(ProfileSnapshotMissing);
      }
      if a.profileId.value !in e.profiles {
        return Failure(ProfileNotFound);
      }
      var p := e.profiles[a.profileId.value];
      if p.agentId != a.agentId || p.version != a.profileVersion.value {
        return Failure(ProfileMismatch);
      }
      reply := Evaluate(a, e, p);
    }

    /** Releases what the payment reserved; a refused release rolls back. */
    method ReleaseReservation(key: string) returns (error: Option<LifecycleError>)
      requires policy.Idle() && key in payments
      modifies policy`counters, policy`reservations, policy`nextId
      ensures var (t, reply) := Spec.CancelReservation(Contents(), key);
        && (error.Some? <==> reply.Failure?) && (error.Some? ==> reply == Failure(error.value) && policy.Idle())
        && (error.None? ==> policy.Working() == t.budget)
    {
      if payments[key].reservationId.None? {
        return None;
      }
      if key !in policy.reservations {
        return Some(ReservationRefused(Ledger.NotRegistered));
      }
      var moved := policy.MoveStatements(key, Ledger.Cancelled);
      if moved.Failure? {
        policy.Rollback();
        return Some(ReservationRefused(moved.error));
      }
      return None;
    }

    method SetStatus(key: string, status: PaymentStatus)
      requires key in payments
      modifies this`payments
      ensures payments == old(payments)[key := old(payments)[key].(status := status)]
    {
      payments := payments[key := payments[key].(status := status)];
    }

    method Cancel(key: string, byOwner: bool, reasonGiven: bool) returns (reply: Reply)
      requires Reached()
      modifies this`payments, this`history, this`cancelled, policy
      ensures Reached() && history == old(history) + [CancelCall(key, byOwner, reasonGiven)]
      ensures (Contents(), reply) == Spec.Cancel(old(Contents()), key, byOwner, reasonGiven)
    {
      Grows(history, CancelCall(key, byOwner, reasonGiven));
      history := history + [CancelCall(key, byOwner, reasonGiven)];
      if !byOwner {
        return Failure(LifecycleError.NotOwner);
      }
      if !reasonGiven {
        return Failure(LifecycleError.ReasonRequired);
      }
      if key !in payments {
        return Failure(PaymentUnknown);
      }
      var error := ReleaseReservation(key);
      if error.Some? {
        return Failure(error.value);
      }
      if key in cancelled {
        policy.Rollback();
        return Failure(DuplicateEvent);
      }
      SetStatus(key, CancelledPayment);
      cancelled := cancelled + {key};
      policy.Commit();
      return Success(CancelledPayment);
    }

    /** Enacts and records the Owner's answer to an open request. */
    method Enact(key: string, answer: Answer) returns (reply: Reply)
      requires policy.Idle() && key in payments && key in approvals && approvals[key].None?
      modifies this`payments, this`approvals, policy
      ensures policy.Idle()
      ensures (Contents(), reply) == Spec.DecideApproval(old(Contents()), key, true, answer)
    {
      var status := payments[key].status;
      if answer.Approve? {
        status := ApprovedPayment;
      } else if !answer.Hold? {
        status := CancelledPayment;
        var error := ReleaseReservation(key);
        if error.Some? {
          return Failure(error.value);
        }
      }
      approvals := approvals[key := Some(answer)];
      if status != payments[key].status {
        SetStatus(key, status);
      }
      assert payments == old(payments)[key := old(payments)[key].(status := status)];
      policy.Commit();
      return Success(status);
    }

    method DecideOwnerApproval(key: string, byOwner: bool, answer: Answer) returns (reply: Reply)
      requires Reached()
      modifies this`payments, this`history, this`approvals, policy
      ensures Reached() && history == old(history) + [ApprovalCall(key, byOwner, answer)]
      ensures (Contents(), reply) == Spec.DecideApproval(old(Contents()), key, byOwner, answer)
    {
      Grows(history, ApprovalCall(key, byOwner, answer));
      history := history + [ApprovalCall(key, byOwner, answer)];
      if !byOwner {
        return Failure(LifecycleError.NotOwner);
      }
      if key !in approvals {
        return Failure(ApprovalUnknown);
      }
      if approvals[key].Some? {
        return Failure(AlreadyAnswered);
      }
      if key !in payments {
        return Failure(PaymentUnknown);
      }
      reply := Enact(key, answer);
    }

    method IssueSignerAuthorization(key: string, usable: bool) returns (reply: Reply)
      requires Reached()
      modifies this`payments, this`history, this`authorized
      ensures Reached() && history == old(history) + [AuthorizeCall(key, usable)]
      ensures (Contents(), reply) == Spec.Authorize(old(Contents()), key, usable)
    {
      Grows(history, AuthorizeCall(key, usable));
      history := history + [AuthorizeCall(key, usable)];
      if key !in payments {
        return Failure(PaymentUnknown);
      }
      if !usable {
        return Failure(AuthorizationRefused);
      }
      var p := payments[key];
      if p.decision.RequireOwnerApproval? {
        if !p.status.ApprovedPayment? || key !in approvals || approvals[key] != Some(Approve) {
          return Failure(OwnerApprovalRequired);
        }
      }
      if key in authorized {
        return Failure(DuplicateEvent);
      }
      authorized := authorized + {key};
      var status := if p.status.Proposed? || p.status.ApprovedPayment? then SignerRequested else p.status;
      SetStatus(key, status);
      return Success(status);
    }
  }
}
