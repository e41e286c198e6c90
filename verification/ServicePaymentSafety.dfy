/** What holds of the payment tables over every run, and what stands behind an issued Signer authorization. */
module ServicePaymentSafety {
  import opened Results
  import opened Texts
  import opened Networks
  import opened PaymentProfile
  import opened MppPolicy
  import opened ServicePayments
  import Ledger = BudgetLedger
  import Sql = BudgetSql

  // ----- The invariant

  /** What the tables hold for one key beside its payment. */
  datatype View = View(
    reservation: Option<Ledger.Reservation>, approval: Option<Option<Answer>>, authorized: bool, cancelled: bool)

  const NOTHING := View(None, None, false, false)

  function ReservationAt(b: Ledger.Budget, key: string): Option<Ledger.Reservation> {
    if key in b.reservations then Some(b.reservations[key]) else None
  }

  function ViewOf(t: Tables, key: string): View {
    View(ReservationAt(t.budget, key), if key in t.approvals then Some(t.approvals[key]) else None,
         key in t.authorized, key in t.cancelled)
  }

  predicate Holds(r: Ledger.Reservation, id: nat, paymentId: string, amount: int, taskId: string, agentId: string) {
    r.id == id && r.paymentId == paymentId && r.amount == amount && r.taskId == taskId && r.agentId == agentId
  }

  /** The payment's reservation, when it names one, is its own: for its amount, Task and Agent. */
  predicate Owns(p: Payment, r: Option<Ledger.Reservation>) {
    && (p.reservationId.Some? <==> r.Some?)
    && (r.Some? ==> Holds(r.value, p.reservationId.value, p.ask.paymentId, p.ask.amount, p.ask.taskId, p.ask.agentId))
  }

  function StatusIn(r: Option<Ledger.Reservation>): Option<Ledger.ReservationStatus> {
    if r.Some? then Some(r.value.status) else None
  }

  predicate Refused(approval: Option<Option<Answer>>) {
    approval == Some(Some(Reject)) || approval == Some(Some(RequestChanges))
  }

  /** What was reserved is still RESERVED until the Owner cancels the payment or refuses it. */
  predicate HeldUntil(r: Option<Ledger.ReservationStatus>, approval: Option<Option<Answer>>, cancelled: bool) {
    r.Some? ==> r.value == if cancelled || Refused(approval) then Ledger.Cancelled else Ledger.Reserved
  }

  /** An allowed payment reserved its amount and asked nobody; any other one asked the Owner. */
  predicate StatusOk(d: Decision, status: PaymentStatus, v: View) {
    && !d.Deny?
    && (d.Allow? ==> v.reservation.Some? && v.approval.None? && !status.AwaitingApproval? && !status.ApprovedPayment?)
    && (d.RequireOwnerApproval? ==> v.approval.Some? && !status.Proposed?)
    && (status.ApprovedPayment? || (v.authorized && !d.Allow?) ==> v.approval == Some(Some(Approve)))
    && (status.Proposed? || status.AwaitingApproval? ==> !v.cancelled && !Refused(v.approval))
    && (status.CancelledPayment? ==> v.cancelled || Refused(v.approval))
    && (status.SignerRequested? ==> v.authorized)
  }

  predicate PaymentOk(key: string, p: Payment, v: View) {
    && p.ask.idempotencyKey == key && Owns(p, v.reservation)
    && HeldUntil(StatusIn(v.reservation), v.approval, v.cancelled)
    && StatusOk(p.decision, p.status, v)
  }

  predicate Decided(t: Tables, key: string, p: Payment) {
    p.ask.paymentId in t.decisions && t.decisions[p.ask.paymentId] == (key, p.decision)
  }

  predicate Backed(t: Tables, key: string)
    requires key in t.payments
  {
    PaymentOk(key, t.payments[key], ViewOf(t, key)) && Decided(t, key, t.payments[key])
  }

  predicate Apart(a: Ask, b: Ask) {
    a.challengeId != b.challengeId && a.nonce != b.nonce && a.paymentId != b.paymentId
  }

  ghost predicate Unique(payments: map<string, Payment>) {
    forall j, k :: j in payments && k in payments && j != k ==> Apart(payments[j].ask, payments[k].ask)
  }

  ghost predicate PaymentsOk(t: Tables) {
    && (forall key :: key in t.payments ==> Backed(t, key))
    && (forall key :: key !in t.payments ==> ViewOf(t, key) == NOTHING)
    && Unique(t.payments)
  }

  ghost predicate BudgetOk(b: Ledger.Budget) {
    Ledger.Inv(b) && Sql.RowsAllowed(b)
  }

  ghost predicate Inv(t: Tables) {
    PaymentsOk(t) && BudgetOk(t.budget)
  }

  // ----- One payment stored or changed

  /** Everything kept under another key is as it was. */
  ghost predicate OthersSame(t: Tables, t': Tables, key: string) {
    forall k :: k != key ==> ViewOf(t', k) == ViewOf(t, k)
  }

  lemma PutKeeps(t: Tables, t': Tables, key: string, payment: Payment)
    requires PaymentsOk(t) && OthersSame(t, t', key) && t'.payments == t.payments[key := payment]
    requires forall k :: k in t.payments && k != key ==> Apart(t.payments[k].ask, payment.ask)
    requires forall k :: k in t.payments && k != key ==> Decided(t', k, t.payments[k])
    requires PaymentOk(key, payment, ViewOf(t', key)) && Decided(t', key, payment)
    ensures PaymentsOk(t')
  {
    forall k | k in t'.payments
      ensures Backed(t', k)
    {
      assert k != key ==> Backed(t, k) && ViewOf(t', k) == ViewOf(t, k);
    }
  }

  /** A known payment with another status. */
  lemma ChangeKeeps(t: Tables, t': Tables, key: string, status: PaymentStatus)
    requires PaymentsOk(t) && key in t.payments && t'.decisions == t.decisions && OthersSame(t, t', key)
    requires t'.payments == t.payments[key := t.payments[key].(status := status)]
    requires PaymentOk(key, t.payments[key].(status := status), ViewOf(t', key))
    ensures PaymentsOk(t')
  {
    forall k | k in t.payments
      ensures Decided(t', k, t.payments[k])
    {
      assert Backed(t, k);
    }
    PutKeeps(t, t', key, t.payments[key].(status := status));
  }

  // ----- Proposals

  lemma DecideBudget(t: Tables, a: Ask, e: Env, p: Profile)
    requires BudgetOk(t.budget)
    ensures BudgetOk(Decide(t, a, e, p).0.budget)
  {
    var c := ContextOf(t, a, e, p);
    Sql.SqlReserveConserves(t.budget, LimitsOf(p), OrderOf(c, e.now));
  }

  lemma ReserveEffect(b: Ledger.Budget, c: Context, p: Profile, now: int)
    requires c.idempotencyKey !in b.reservations && ReserveIfFits(b, c, p, now).Success?
    ensures var (b', id) := ReserveIfFits(b, c, p, now).value;
      && (id.Some? <==> FitsLimits(c, p))
      && (id.None? ==> b' == b)
      && (id.Some? ==>
            && b'.reservations
               == b.reservations[c.idempotencyKey := Ledger.NewReservation(b, LimitsOf(p), OrderOf(c, now))]
            && id.value == b.nextId)
  {
  }

  /** An allowed payment fits its limits. */
  lemma AllowFits(t: Tables, a: Ask, e: Env, p: Profile)
    requires EvaluateContext(ContextOf(t, a, e, p), e.stops, e.now).Allow?
    ensures FitsLimits(ContextOf(t, a, e, p), p) && a.amount > 0
  {
    AllowExactly(ContextOf(t, a, e, p), e.stops, e.now);
  }

  /** What a recorded proposal adds to the tables. */
  predicate Adds(t: Tables, t': Tables, a: Ask, payment: Payment, r: Option<Ledger.Reservation>) {
    && payment.ask == a && !payment.decision.Deny?
    && payment.status == (if payment.decision.Allow? then Proposed else AwaitingApproval)
    && (payment.decision.Allow? ==> r.Some?)
    && Owns(payment, r) && (r.Some? ==> r.value.status.Reserved?)
    && t'.payments == t.payments[a.idempotencyKey := payment]
    && t'.authorized == t.authorized && t'.cancelled == t.cancelled
    && t'.approvals == (if payment.decision.Allow? then t.approvals else Enqueued(t.approvals, a.idempotencyKey))
    && t'.budget.reservations
       == (if r.None? then t.budget.reservations else t.budget.reservations[a.idempotencyKey := r.value])
    && Notes(t, t', a, payment.decision)
  }

  /** A decision on a payment that has no other one. */
  predicate Notes(t: Tables, t': Tables, a: Ask, d: Decision) {
    && t'.decisions == t.decisions[a.paymentId := (a.idempotencyKey, d)]
    && (a.paymentId in t.decisions ==> t.decisions[a.paymentId] == (a.idempotencyKey, d))
  }

  lemma DecideAdds(t: Tables, a: Ask, e: Env, p: Profile) returns (payment: Payment, r: Option<Ledger.Reservation>)
    requires a.idempotencyKey !in t.budget.reservations
    ensures var t' := Decide(t, a, e, p).0;
      || t' == t
      || (t' == t.(decisions := t'.decisions) && Notes(t, t', a, Deny))
      || Adds(t, t', a, payment, r)
  {
    var c := ContextOf(t, a, e, p);
    var d := EvaluateContext(c, e.stops, e.now);
    r := None;
    payment := Payment(a, d, if d.Allow? then Proposed else AwaitingApproval, None);
    if !d.Deny? && ReserveIfFits(t.budget, c, p, e.now).Success? {
      ReserveEffect(t.budget, c, p, e.now);
      if d.Allow? {
        AllowFits(t, a, e, p);
      }
      payment := payment.(reservationId := ReserveIfFits(t.budget, c, p, e.now).value.1);
      if payment.reservationId.Some? {
        r := Some(Ledger.NewReservation(t.budget, LimitsOf(p), OrderOf(c, e.now)));
      }
    }
  }

  ghost predicate FreshAsk(t: Tables, a: Ask) {
    a.idempotencyKey !in t.payments && forall key :: !SharesChallengeOrNonce(t, a, key)
  }

  /** A decision noted for a fresh request is on a payment of no other key. */
  lemma NotesApart(t: Tables, t': Tables, a: Ask, d: Decision, k: string)
    requires FreshAsk(t, a) && k in t.payments && Decided(t, k, t.payments[k]) && Notes(t, t', a, d)
    ensures Apart(t.payments[k].ask, a) && Decided(t', k, t.payments[k])
  {
    assert !SharesChallengeOrNonce(t, a, k);
  }

  lemma AddsKeeps(t: Tables, t': Tables, a: Ask, payment: Payment, r: Option<Ledger.Reservation>)
    requires PaymentsOk(t) && FreshAsk(t, a) && Adds(t, t', a, payment, r)
    ensures PaymentsOk(t')
  {
    var key := a.idempotencyKey;
    assert ViewOf(t, key) == NOTHING;
    assert ViewOf(t', key) == View(r, if payment.decision.Allow? then None else Some(None), false, false);
    forall k | k in t.payments
      ensures Apart(t.payments[k].ask, a) && Decided(t', k, t.payments[k])
    {
      assert Backed(t, k);
      NotesApart(t, t', a, payment.decision, k);
    }
    PutKeeps(t, t', key, payment);
  }

  lemma NotesKeeps(t: Tables, t': Tables, a: Ask)
    requires PaymentsOk(t) && FreshAsk(t, a) && t' == t.(decisions := t'.decisions) && Notes(t, t', a, Deny)
    ensures PaymentsOk(t')
  {
    forall k
      ensures ViewOf(t', k) == ViewOf(t, k)
      ensures k in t.payments ==> Backed(t', k)
    {
      if k in t.payments {
        assert Backed(t, k);
        NotesApart(t, t', a, Deny, k);
      }
    }
  }

  lemma ProposeKeeps(t: Tables, a: Ask, e: Env)
    requires Inv(t)
    ensures Inv(Propose(t, a, e).0)
  {
    var t' := Propose(t, a, e).0;
    if t' != t {
      var p := e.profiles[a.profileId.value];
      assert ViewOf(t, a.idempotencyKey) == NOTHING;
      var payment, r := DecideAdds(t, a, e, p);
      if Adds(t, t', a, payment, r) {
        AddsKeeps(t, t', a, payment, r);
      } else {
        NotesKeeps(t, t', a);
      }
      DecideBudget(t, a, e, p);
    }
  }

  // ----- After the proposal

  /** Giving the reservation of a payment back, or finding it given back. */
  predicate GivesBack(b: Ledger.Budget, b': Ledger.Budget, key: string) {
    b'.reservations ==
      if key in b.reservations then b.reservations[key := b.reservations[key].(status := Ledger.Cancelled)]
        else b.reservations
  }

  /** The database never refuses to cancel the reservation of a payment. */
  lemma CancelEffect(t: Tables, key: string)
    requires BudgetOk(t.budget) && key in t.payments && Owns(t.payments[key], ReservationAt(t.budget, key))
    requires StatusIn(ReservationAt(t.budget, key)) in {None, Some(Ledger.Reserved), Some(Ledger.Cancelled)}
    ensures var (t', reply) := CancelReservation(t, key);
      && reply == Success(CancelledPayment)
      && t' == t.(budget := t'.budget, payments := t.payments[key := t.payments[key].(status := CancelledPayment)])
      && BudgetOk(t'.budget) && GivesBack(t.budget, t'.budget, key)
  {
    if key in t.budget.reservations {
      Sql.SqlMoveConserves(t.budget, key, Ledger.Cancelled);
    }
  }

  /** Tables in which the reservation was given back because the Owner cancelled or refused. */
  ghost predicate Withdraws(t: Tables, t': Tables, key: string) {
    && key in t.payments
    && t' == t.(budget := t'.budget, payments := t.payments[key := t.payments[key].(status := CancelledPayment)],
                approvals := t'.approvals, cancelled := t'.cancelled)
    && OthersSame(t, t', key) && GivesBack(t.budget, t'.budget, key)
    && var v, v' := ViewOf(t, key), ViewOf(t', key);
      || (v'.cancelled && v'.approval == v.approval)
      || (v'.cancelled == v.cancelled && v.approval == Some(None) && Refused(v'.approval))
  }

  lemma WithdrawsKeeps(t: Tables, t': Tables, key: string)
    requires PaymentsOk(t) && Withdraws(t, t', key)
    ensures PaymentsOk(t')
  {
    assert Backed(t, key);
    ChangeKeeps(t, t', key, CancelledPayment);
  }

  lemma CancelWithdraws(t: Tables, key: string, byOwner: bool, reasonGiven: bool)
    requires BudgetOk(t.budget) && key in t.payments && Backed(t, key)
    requires Cancel(t, key, byOwner, reasonGiven).0 != t
    ensures Withdraws(t, Cancel(t, key, byOwner, reasonGiven).0, key)
    ensures BudgetOk(Cancel(t, key, byOwner, reasonGiven).0.budget)
  {
    CancelEffect(t, key);
  }

  lemma CancelKeeps(t: Tables, key: string, byOwner: bool, reasonGiven: bool)
    requires Inv(t)
    ensures Inv(Cancel(t, key, byOwner, reasonGiven).0)
  {
    var t' := Cancel(t, key, byOwner, reasonGiven).0;
    if t' != t {
      assert Backed(t, key);
      CancelWithdraws(t, key, byOwner, reasonGiven);
      WithdrawsKeeps(t, t', key);
    }
  }

  lemma RefusalWithdraws(t: Tables, key: string, answer: Answer)
    requires BudgetOk(t.budget) && key in t.payments && Backed(t, key) && key in t.approvals && t.approvals[key].None?
    requires answer.Reject? || answer.RequestChanges?
    ensures var t' := DecideApproval(t, key, true, answer).0;
      Withdraws(t, t', key) && BudgetOk(t'.budget)
  {
    var s := t.(approvals := t.approvals[key := Some(answer)]);
    CancelEffect(s, key);
    assert DecideApproval(t, key, true, answer).0 == CancelReservation(s, key).0;
  }

  lemma RefusalKeeps(t: Tables, key: string, answer: Answer)
    requires Inv(t) && key in t.payments && key in t.approvals && t.approvals[key].None?
    requires answer.Reject? || answer.RequestChanges?
    ensures Inv(DecideApproval(t, key, true, answer).0)
  {
    assert Backed(t, key);
    RefusalWithdraws(t, key, answer);
    WithdrawsKeeps(t, DecideApproval(t, key, true, answer).0, key);
  }

  lemma ApprovalKeeps(t: Tables, key: string, byOwner: bool, answer: Answer)
    requires Inv(t)
    ensures Inv(DecideApproval(t, key, byOwner, answer).0)
  {
    var t' := DecideApproval(t, key, byOwner, answer).0;
    if t' != t {
      if answer.Reject? || answer.RequestChanges? {
        RefusalKeeps(t, key, answer);
      } else {
        assert Backed(t, key);
        assert t'.payments[key] == t.payments[key].(status := t'.payments[key].status);
        ChangeKeeps(t, t', key, t'.payments[key].status);
      }
    }
  }

  lemma AuthorizeEffect(t: Tables, key: string, usable: bool)
    requires key in t.payments && Backed(t, key) && Authorize(t, key, usable).0 != t
    ensures var t' := Authorize(t, key, usable).0;
      && key in t'.payments && t'.payments == t.payments[key := t.payments[key].(status := t'.payments[key].status)]
      && t'.decisions == t.decisions && t'.budget == t.budget && OthersSame(t, t', key)
      && PaymentOk(key, t'.payments[key], ViewOf(t', key))
  {
  }

  lemma AuthorizeKeeps(t: Tables, key: string, usable: bool)
    requires Inv(t)
    ensures Inv(Authorize(t, key, usable).0)
  {
    var t' := Authorize(t, key, usable).0;
    if t' != t {
      assert Backed(t, key);
      AuthorizeEffect(t, key, usable);
      ChangeKeeps(t, t', key, t'.payments[key].status);
    }
  }

  lemma StepKeeps(t: Tables, c: Call)
    requires Inv(t)
    ensures Inv(Step(t, c))
  {
    match c
    case ProposeCall(a, e) => ProposeKeeps(t, a, e);
    case CancelCall(key, byOwner, reasonGiven) => CancelKeeps(t, key, byOwner, reasonGiven);
    case ApprovalCall(key, byOwner, answer) => ApprovalKeeps(t, key, byOwner, answer);
    case AuthorizeCall(key, usable) => AuthorizeKeeps(t, key, usable);
  }

  /**
   * In every reachable state an allowed payment has a reservation of its own amount, what a payment reserved is still
   * RESERVED exactly until the Owner cancels or refuses it, and keys, challenges, nonces and payments pair off.
   */
  lemma {:induction false} EveryRunBacked(calls: seq<Call>)
    ensures Inv(Run(calls))
    decreases |calls|
  {
    if calls != [] {
      EveryRunBacked(calls[..|calls| - 1]);
      StepKeeps(Run(calls[..|calls| - 1]), calls[|calls| - 1]);
    }
  }

  // ----- What stands behind an authorization

  /**
   * Behind an issued authorization the budget is held exactly while the Owner has not cancelled the payment; only an
   * approved payment over its limits is authorized with no reservation at all.
   */
  lemma AuthorizedIsHeldExactly(calls: seq<Call>, key: string)
    requires key in Run(calls).authorized
    ensures var t := Run(calls);
      && key in t.payments
      && (t.payments[key].reservationId.None? ==> key in t.approvals && t.approvals[key] == Some(Approve))
      && (t.payments[key].reservationId.Some? ==>
            && key in t.budget.reservations
            && (t.budget.reservations[key].status.Reserved? <==> key !in t.cancelled))
  {
    EveryRunBacked(calls);
    assert ViewOf(Run(calls), key) != NOTHING;
    assert Backed(Run(calls), key);
  }

  /** What a cancellation leaves of a payment that was never cancelled. */
  lemma CancelLeaves(t: Tables, key: string)
    requires BudgetOk(t.budget) && key in t.payments && Backed(t, key) && key !in t.cancelled
    ensures var t', p := Cancel(t, key, true, true).0, t.payments[key];
      && t' == t.(budget := t'.budget, payments := t.payments[key := p.(status := CancelledPayment)],
                  cancelled := t.cancelled + {key})
      && (key in t'.budget.reservations ==> t'.budget.reservations[key].status.Cancelled?)
  {
    CancelEffect(t, key);
  }

  /**
   * A cancelled payment can still reach the Signer: an allowed one at once, one that was asked for after a late
   * APPROVE.
   */
  lemma CancelledIsAuthorized(calls: seq<Call>, key: string)
    requires key in Run(calls).payments && key !in Run(calls).authorized && key !in Run(calls).cancelled
    requires Run(calls).payments[key].decision.Allow? || Run(calls).payments[key].status.AwaitingApproval?
    requires key in Run(calls).approvals ==> Run(calls).approvals[key].None?
    ensures var t := Cancel(Run(calls), key, true, true).0;
      var u := if t.payments[key].decision.Allow? then t else DecideApproval(t, key, true, Approve).0;
      var v := Authorize(u, key, true).0;
      && key in t.payments && t.payments[key].status.CancelledPayment?
      && key in v.authorized
      && (key in v.budget.reservations ==> v.budget.reservations[key].status.Cancelled?)
  {
    EveryRunBacked(calls);
    assert Backed(Run(calls), key);
    CancelLeaves(Run(calls), key);
  }

  // ----- What HOLD means

  lemma AnswerStays(t: Tables, c: Call, key: string)
    requires key in t.approvals && t.approvals[key].Some?
    ensures key in Step(t, c).approvals && Step(t, c).approvals[key] == t.approvals[key]
  {
  }

  lemma {:induction false} AnswerStaysOver(calls: seq<Call>, more: seq<Call>, key: string)
    requires key in Run(calls).approvals && Run(calls).approvals[key].Some?
    ensures key in Run(calls + more).approvals && Run(calls + more).approvals[key] == Run(calls).approvals[key]
    decreases |more|
  {
    if more == [] {
      assert calls + more == calls;
    } else {
      var before := more[..|more| - 1];
      assert (calls + more)[..|calls + more| - 1] == calls + before;
      AnswerStaysOver(calls, before, key);
      AnswerStays(Run(calls + before), more[|more| - 1], key);
    }
  }

  lemma HeldState(t: Tables, key: string)
    requires Inv(t) && key in t.approvals && t.approvals[key] == Some(Hold)
    ensures key in t.payments && key !in t.authorized && Backed(t, key)
    ensures t.payments[key].status == if key in t.cancelled then CancelledPayment else AwaitingApproval
    ensures key in t.budget.reservations ==> (t.budget.reservations[key].status.Reserved? <==> key !in t.cancelled)
  {
    assert ViewOf(t, key) != NOTHING;
    assert Backed(t, key);
  }

  /**
   * A request answered HOLD is never answered again, so its payment never reaches the Signer: whatever is called
   * afterwards, it waits with its budget reserved until the Owner cancels it, and that is always possible once.
   */
  lemma HoldIsFinal(calls: seq<Call>, more: seq<Call>, key: string, answer: Answer, usable: bool)
    requires key in Run(calls).approvals && Run(calls).approvals[key] == Some(Hold)
    ensures var t := Run(calls + more);
      && DecideApproval(t, key, true, answer) == (t, Failure(AlreadyAnswered))
      && Authorize(t, key, usable).1.Failure? && key !in t.authorized
      && key in t.payments
      && t.payments[key].status == (if key in t.cancelled then CancelledPayment else AwaitingApproval)
      && (key in t.budget.reservations ==> (t.budget.reservations[key].status.Reserved? <==> key !in t.cancelled))
      && (Cancel(t, key, true, true).1.Success? <==> key !in t.cancelled)
  {
    var t := Run(calls + more);
    AnswerStaysOver(calls, more, key);
    EveryRunBacked(calls + more);
    HeldState(t, key);
    CancelEffect(t, key);
  }

  function SampleAsk(payment: string, key: string, challenge: string, nonce: string): Ask {
    Ask(payment, key, challenge, nonce, "task", "run", "trace", "corr", "agent", "svc", Some("prog"), Some("p"),
        Some(1), "shop", Local, "LOCAL_TEST_T", 5, 30)
  }

  function SampleEnv(): Env {
    Env(true, true, map["p" := SampleProfile()], Devnet, false, true, true, false, "ACTIVE", None, false, {}, 0, false)
  }

  lemma SampleIsAllowed(payment: string, key: string, challenge: string, nonce: string)
    ensures Valid(SampleProfile())
    ensures EvaluateContext(ContextOf(EMPTY, SampleAsk(payment, key, challenge, nonce), SampleEnv(), SampleProfile()),
                            {}, 0).Allow?
  {
    var c := ContextOf(EMPTY, SampleAsk(payment, key, challenge, nonce), SampleEnv(), SampleProfile());
    assert Upper("ACTIVE") == "ACTIVE";
    assert Folded("shop")[0] == 's';
    assert !InternalRecipient("shop");
    assert Boundary(c, {}, 0).None?;
    assert ProfileVerdict(c, SampleProfile(), 0).decision.Allow?;
  }

  lemma ProposeLeaves(t: Tables, a: Ask, e: Env)
    ensures Propose(t, a, e).0.authorized == t.authorized && Propose(t, a, e).0.cancelled == t.cancelled
  {
  }

  lemma SampleIsRecorded(a: Ask)
    requires a == SampleAsk(a.paymentId, a.idempotencyKey, a.challengeId, a.nonce)
    ensures var t := Run([ProposeCall(a, SampleEnv())]);
      && a.idempotencyKey in t.payments && t.payments[a.idempotencyKey].status.Proposed?
      && t.payments[a.idempotencyKey].reservationId.Some?
      && t.authorized == {} && t.cancelled == {}
  {
    SampleIsAllowed(a.paymentId, a.idempotencyKey, a.challengeId, a.nonce);
    assert Run([]) == EMPTY;
    AllowedProposalIsRecorded([], a, SampleEnv());
    ProposeLeaves(EMPTY, a, SampleEnv());
    assert [ProposeCall(a, SampleEnv())][..0] == [];
  }

  /**
   * So it happens: proposed and allowed, cancelled by the Owner, and authorized all the same with its budget given
   * back.
   */
  lemma CancelledReachesSigner(a: Ask)
    requires a == SampleAsk(a.paymentId, a.idempotencyKey, a.challengeId, a.nonce)
    ensures var key := a.idempotencyKey;
      var t := Run([ProposeCall(a, SampleEnv()), CancelCall(key, true, true), AuthorizeCall(key, true)]);
      key in t.authorized && key in t.budget.reservations && t.budget.reservations[key].status.Cancelled?
  {
    var key := a.idempotencyKey;
    var one, two := [ProposeCall(a, SampleEnv())], [ProposeCall(a, SampleEnv()), CancelCall(key, true, true)];
    var calls := two + [AuthorizeCall(key, true)];
    assert calls == [ProposeCall(a, SampleEnv()), CancelCall(key, true, true), AuthorizeCall(key, true)];
    assert two[..1] == one && calls[..2] == two;
    SampleIsRecorded(a);
    EveryRunBacked(one);
    ProposedEnds(Run(one), key);
    assert Run(two) == Cancel(Run(one), key, true, true).0;
    assert Run(calls) == Authorize(Run(two), key, true).0;
  }

  /** What becomes of a PROPOSED payment that is cancelled and then authorized. */
  lemma ProposedEnds(t: Tables, key: string)
    requires Inv(t) && key in t.payments && t.payments[key].status.Proposed? && key !in t.authorized
    ensures var u := Authorize(Cancel(t, key, true, true).0, key, true).0;
      key in u.authorized && key in u.budget.reservations && u.budget.reservations[key].status.Cancelled?
  {
    assert Backed(t, key);
    CancelEffect(t, key);
  }

  // ----- What a caller gets

  predicate ReachesPolicy(t: Tables, a: Ask, e: Env) {
    && e.actorAllowed && e.inTaskScope
    && a.idempotencyKey !in t.payments
    && a.profileId.Some? && a.profileVersion.Some? && a.profileId.value in e.profiles
    && e.profiles[a.profileId.value].agentId == a.agentId
    && e.profiles[a.profileId.value].version == a.profileVersion.value
  }

  /**
   * The ledger never refuses what the policy allows: a fresh ALLOWed request is recorded, with a reservation, unless
   * its payment was decided before.
   */
  lemma AllowedProposalIsRecorded(calls: seq<Call>, a: Ask, e: Env)
    requires ReachesPolicy(Run(calls), a, e) && forall key :: !SharesChallengeOrNonce(Run(calls), a, key)
    requires Valid(e.profiles[a.profileId.value])
    requires EvaluateContext(ContextOf(Run(calls), a, e, e.profiles[a.profileId.value]), e.stops, e.now).Allow?
    requires a.paymentId !in Run(calls).decisions
    ensures var (t, o) := Propose(Run(calls), a, e);
      && o.Success? && o.value.Recorded? && !o.value.replayed
      && o.value.payment.status.Proposed? && o.value.payment.reservationId.Some?
      && t.payments[a.idempotencyKey] == o.value.payment
  {
    var t, p := Run(calls), e.profiles[a.profileId.value];
    EveryRunBacked(calls);
    AllowFits(t, a, e, p);
    forall k | k in t.budget.reservations
      ensures t.budget.reservations[k].paymentId != a.paymentId
    {
      assert ViewOf(t, k) != NOTHING;
      assert Backed(t, k);
    }
    assert ViewOf(t, a.idempotencyKey) == NOTHING;
    AllowedIsReservedInDatabase(ContextOf(t, a, e, p), e.stops, e.now, t.budget);
  }

  /**
   * A repeated request returns the stored payment and changes nothing; any other request for a used key, challenge or
   * nonce conflicts.
   */
  lemma RepeatOrConflict(calls: seq<Call>, a: Ask, e: Env)
    requires e.actorAllowed
    requires a.idempotencyKey in Run(calls).payments || exists key :: SharesChallengeOrNonce(Run(calls), a, key)
    ensures var t := Run(calls);
      Propose(t, a, e) == (t,
        if a.idempotencyKey in t.payments && t.payments[a.idempotencyKey].ask == a
        then Success(Recorded(t.payments[a.idempotencyKey], true))
        else Failure(RequestConflict))
  {
    EveryRunBacked(calls);
    var t := Run(calls);
    forall key | SharesChallengeOrNonce(t, a, key)
      ensures t.payments[key].ask.idempotencyKey == key
    {
      assert Backed(t, key);
    }
  }
}
