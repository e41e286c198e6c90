/** What a recorded proposal says about the request, the profile, the budget and the stop controls. */
module ProposedPayments {
  import opened Results
  import opened Networks
  import opened Texts
  import opened PaymentProfile
  import opened MppPolicy
  import opened AllowedPayments
  import opened ServicePayments
  import opened ServicePaymentSafety
  import Ledger = BudgetLedger
  import Sql = BudgetSql
  import opened BudgetDates

  /** The stop controls that concern a request. */
  function StopsOf(a: Ask, e: Env): set<(string, string)> {
    {("MPP", "*"), ("SIGNER", "*"), ("PAYMENT", a.paymentId), ("AGENT", a.agentId), ("RUN", a.runId),
     ("PROVIDER", if e.providerId.None? || e.providerId.value == "" then "*" else e.providerId.value)}
  }

  /** The request is traced, to a third party, in a devnet phase, unexpired and not stopped anywhere. */
  predicate OpenAsk(a: Ask, e: Env, p: Profile) {
    && a.correlationId != "" && a.traceId != "" && a.recipient != a.agentId
    && (forall prefix :: prefix in INTERNAL ==> !(prefix <= Folded(a.recipient)))
    && e.phase in {Devnet, Testnet} && e.now < a.expiresAt
    && Upper(e.agentStatus) == "ACTIVE" && !e.providerStopped && !e.stopped && e.stops !! StopsOf(a, e)
    && e.serviceRegistered && e.profileAllows && p.status.Active? && p.rotation.Current?
  }

  /** The request lies within the profile's lists and times. */
  predicate Listed(a: Ask, p: Profile, now: int) {
    && now < p.expiresAt && a.agentId == p.agentId && a.serviceId == p.serviceId && a.serviceId in p.services
    && a.recipient == p.recipient && a.recipient in p.recipients && a.network == p.network && a.token in p.tokens
    && "SERVICE_PAYMENT" in p.purposes
    && (if p.programs == [] then a.programId.None? else a.programId.Some? && a.programId.value in p.programs)
    && a.expiresAt <= now + p.maxExpirySeconds
  }

  /** With what its Task and its Agent's date have drawn so far the amount stays within the three limits. */
  ghost predicate Affords(b: Ledger.Budget, a: Ask, p: Profile, d: int) {
    && a.amount <= p.perPayment
    && Drawn(b.reservations, TaskPool(p.id, a.taskId)) + a.amount <= p.perTask
    && Drawn(b.reservations, DatePool(p.id, a.agentId, d)) + a.amount <= p.daily
  }

  /** What makes a request payable without the Owner. */
  ghost predicate Automatic(b: Ledger.Budget, a: Ask, e: Env, p: Profile, d: int) {
    && OpenAsk(a, e, p) && Listed(a, p, e.now) && Affords(b, a, p, d) && a.amount > 0
    && !e.ownerApprovalRequired && p.mode.AutoAllow? && a.amount <= p.autoLimit && p.risk in {Low, Medium}
  }

  lemma SpendIsDrawn(t: Tables, a: Ask, e: Env, p: Profile, d: int)
    requires Ledger.Inv(t.budget) && OnDate(e.now, d)
    ensures var c := ContextOf(t, a, e, p);
      && c.taskSpent == Drawn(t.budget.reservations, TaskPool(p.id, a.taskId)) >= 0
      && c.dailySpent == Drawn(t.budget.reservations, DatePool(p.id, a.agentId, d)) >= 0
  {
    DayIsDate(e.now, d);
    SpentIsDrawn(t.budget, TaskPool(p.id, a.taskId));
    SpentIsDrawn(t.budget, DatePool(p.id, a.agentId, d));
    DrawnNonNegative(t.budget, TaskPool(p.id, a.taskId));
    DrawnNonNegative(t.budget, DatePool(p.id, a.agentId, d));
  }

  lemma StopsAgree(t: Tables, a: Ask, e: Env, p: Profile)
    ensures ControlsOf(ContextOf(t, a, e, p)) == StopsOf(a, e)
  {
  }

  lemma OpenIsUnhindered(t: Tables, a: Ask, e: Env, p: Profile)
    ensures Unhindered(ContextOf(t, a, e, p), e.stops, e.now) <==> OpenAsk(a, e, p)
  {
    StopsAgree(t, a, e, p);
    assert Upper("ACTIVE") == "ACTIVE";
    assert Upper("STOPPED")[0] == 'S';
  }

  lemma ListedIsWithin(t: Tables, a: Ask, e: Env, p: Profile, d: int)
    requires Ledger.Inv(t.budget) && OnDate(e.now, d) && e.now < a.expiresAt
    ensures WithinProfile(ContextOf(t, a, e, p), p, e.now) <==>
      Listed(a, p, e.now) && Affords(t.budget, a, p, d) && a.amount > 0
    ensures FitsLimits(ContextOf(t, a, e, p), p) <==> Affords(t.budget, a, p, d)
  {
    SpendIsDrawn(t, a, e, p, d);
  }

  /** The engine allows a request, on the tables' own figures, exactly when it is automatic. */
  lemma AllowsAutomatic(t: Tables, a: Ask, e: Env, p: Profile, d: int)
    requires Ledger.Inv(t.budget) && OnDate(e.now, d)
    ensures EvaluateContext(ContextOf(t, a, e, p), e.stops, e.now).Allow? <==> Automatic(t.budget, a, e, p, d)
  {
    OpenIsUnhindered(t, a, e, p);
    AllowedExactly(ContextOf(t, a, e, p), e.stops, e.now);
    if e.now < a.expiresAt {
      ListedIsWithin(t, a, e, p, d);
    }
  }

  /** The caller may act, in its Task, and names the current version of its own profile. */
  predicate Admitted(a: Ask, e: Env) {
    && e.actorAllowed && e.inTaskScope && a.profileId.Some? && a.profileVersion.Some?
    && a.profileId.value in e.profiles
    && e.profiles[a.profileId.value].agentId == a.agentId
    && e.profiles[a.profileId.value].version == a.profileVersion.value
  }

  /** No other decision is on record for the payment. */
  predicate Undecided(t: Tables, a: Ask, d: Decision) {
    a.paymentId in t.decisions ==> t.decisions[a.paymentId] == (a.idempotencyKey, d)
  }

  predicate IsAllowed(o: Outcome) {
    o.Success? && o.value.Recorded? && o.value.payment.decision.Allow?
  }

  /** What a recorded payment is, and the rows that were written with it. */
  ghost predicate Writes(t: Tables, t': Tables, a: Ask, p: Profile, payment: Payment, d: int) {
    && payment.ask == a && t'.payments == t.payments[a.idempotencyKey := payment]
    && t'.decisions == t.decisions[a.paymentId := (a.idempotencyKey, payment.decision)]
    && payment.status == (if payment.decision.Allow? then Proposed else AwaitingApproval)
    && (a.idempotencyKey in t'.approvals <==> !payment.decision.Allow?)
    && (payment.reservationId.Some? <==> Affords(t.budget, a, p, d))
    && (payment.reservationId.Some? ==>
          && a.idempotencyKey in t'.budget.reservations
          && t'.budget.reservations
             == t.budget.reservations[a.idempotencyKey := t'.budget.reservations[a.idempotencyKey]]
          && IsFor(t'.budget.reservations[a.idempotencyKey], a, p, payment.reservationId.value, d))
    && (payment.reservationId.None? ==> t'.budget == t.budget)
  }

  predicate IsFor(r: Ledger.Reservation, a: Ask, p: Profile, id: nat, d: int) {
    && r.id == id && r.paymentId == a.paymentId && r.agentId == a.agentId && r.taskId == a.taskId
    && r.profileId == p.id && r.amount == a.amount && r.day == d && r.status.Reserved?
  }

  lemma DecideWrites(t: Tables, a: Ask, e: Env, p: Profile, d: int)
    requires Ledger.Inv(t.budget) && OnDate(e.now, d)
    requires a.idempotencyKey !in t.approvals && a.idempotencyKey !in t.budget.reservations
    ensures var (t', o) := Decide(t, a, e, p);
      && (o.Failure? ==> t' == t)
      && (o.Success? && o.value.Recorded? ==> !o.value.replayed && Writes(t, t', a, p, o.value.payment, d))
      && (o.Success? && o.value.Recorded? ==>
            o.value.payment.decision == EvaluateContext(ContextOf(t, a, e, p), e.stops, e.now)
              && !o.value.payment.decision.Deny?)
      && (o.Success? && o.value.DeniedAndRecorded? ==>
            t' == t.(decisions := t.decisions[a.paymentId := (a.idempotencyKey, Deny)]))
  {
    var c := ContextOf(t, a, e, p);
    SpendIsDrawn(t, a, e, p, d);
    DayIsDate(e.now, d);
    if ReserveIfFits(t.budget, c, p, e.now).Success? {
      ReserveEffect(t.budget, c, p, e.now);
    }
  }

  lemma AllowedReserves(calls: seq<Call>, a: Ask, e: Env, p: Profile)
    requires FreshAsk(Run(calls), a) && Valid(p) && p.agentId == a.agentId
    requires EvaluateContext(ContextOf(Run(calls), a, e, p), e.stops, e.now).Allow? && Undecided(Run(calls), a, Allow)
    ensures ReserveIfFits(Run(calls).budget, ContextOf(Run(calls), a, e, p), p, e.now).Success?
  {
    var t := Run(calls);
    EveryRunBacked(calls);
    AllowFits(t, a, e, p);
    forall k | k in t.budget.reservations
      ensures t.budget.reservations[k].paymentId != a.paymentId
    {
      assert ViewOf(t, k) != NOTHING;
      assert Backed(t, k);
    }
    assert ViewOf(t, a.idempotencyKey) == NOTHING;
    AllowedIsReservedInDatabase(ContextOf(t, a, e, p), e.stops, e.now, t.budget);
  }

  /** With its reservation made and no other decision in the way, what is allowed is recorded. */
  lemma AllowedIsWritten(t: Tables, a: Ask, e: Env, p: Profile)
    requires EvaluateContext(ContextOf(t, a, e, p), e.stops, e.now).Allow?
    ensures IsAllowed(Decide(t, a, e, p).1) <==>
      ReserveIfFits(t.budget, ContextOf(t, a, e, p), p, e.now).Success? && Undecided(t, a, Allow)
  {
  }

  lemma OthersAreNotAllowed(t: Tables, a: Ask, e: Env, p: Profile)
    requires !EvaluateContext(ContextOf(t, a, e, p), e.stops, e.now).Allow?
    ensures !IsAllowed(Decide(t, a, e, p).1)
  {
  }

  /** Key, challenge and nonce of the request are all new. */
  predicate IsNew(t: Tables, a: Ask) {
    && a.idempotencyKey !in t.payments
    && forall key :: key in t.payments ==>
         t.payments[key].ask.challengeId != a.challengeId && t.payments[key].ask.nonce != a.nonce
  }

  lemma NewIsFresh(t: Tables, a: Ask)
    ensures IsNew(t, a) <==> FreshAsk(t, a)
  {
    if FreshAsk(t, a) {
      forall key | key in t.payments
        ensures t.payments[key].ask.challengeId != a.challengeId && t.payments[key].ask.nonce != a.nonce
      {
        assert !SharesChallengeOrNonce(t, a, key);
      }
    }
  }

  lemma NewRequests(t: Tables, a: Ask, e: Env)
    requires FreshAsk(t, a)
    ensures if Admitted(a, e) then Propose(t, a, e) == Decide(t, a, e, e.profiles[a.profileId.value])
            else Propose(t, a, e).0 == t && Propose(t, a, e).1.Failure?
  {
  }

  /**
   * After any run a new request is recorded as allowed exactly when the caller is admitted, the request is automatic
   * and its payment carries no other decision; what is recorded in any case is the request, with a reservation of its
   * amount on this date exactly when it is affordable, and an approval request exactly when it is not allowed.
   */
  lemma ProposesExactly(calls: seq<Call>, a: Ask, e: Env, d: int)
    requires IsNew(Run(calls), a) && OnDate(e.now, d)
    requires Admitted(a, e) ==> Valid(e.profiles[a.profileId.value])
    ensures var t, (t', o) := Run(calls), Propose(Run(calls), a, e);
      && (IsAllowed(o) <==>
            && Admitted(a, e) && Automatic(t.budget, a, e, e.profiles[a.profileId.value], d) && Undecided(t, a, Allow))
      && (o.Success? ==> Admitted(a, e))
      && (o.Success? && o.value.Recorded? ==>
            !o.value.replayed && Writes(t, t', a, e.profiles[a.profileId.value], o.value.payment, d))
      && (o.Failure? ==> t' == t)
  {
    var t := Run(calls);
    NewIsFresh(t, a);
    NewRequests(t, a, e);
    if Admitted(a, e) {
      AdmittedExactly(calls, a, e, e.profiles[a.profileId.value], d);
    }
  }

  /** Any other request is answered with the stored payment exactly when it is the very same, and changes nothing. */
  lemma RepeatsExactly(calls: seq<Call>, a: Ask, e: Env)
    requires e.actorAllowed && !IsNew(Run(calls), a)
    ensures var t, (t', o) := Run(calls), Propose(Run(calls), a, e);
      && t' == t
      && (o.Success? <==> a.idempotencyKey in t.payments && t.payments[a.idempotencyKey].ask == a)
      && (o.Success? ==> o.value == Recorded(t.payments[a.idempotencyKey], true))
  {
    NewIsFresh(Run(calls), a);
    RepeatOrConflict(calls, a, e);
  }

  lemma AdmittedExactly(calls: seq<Call>, a: Ask, e: Env, p: Profile, d: int)
    requires FreshAsk(Run(calls), a) && OnDate(e.now, d) && Valid(p) && p.agentId == a.agentId
    ensures var t, (t', o) := Run(calls), Decide(Run(calls), a, e, p);
      && (IsAllowed(o) <==> Automatic(t.budget, a, e, p, d) && Undecided(t, a, Allow))
      && (o.Success? && o.value.Recorded? ==> !o.value.replayed && Writes(t, t', a, p, o.value.payment, d))
      && (o.Failure? ==> t' == t)
  {
    var t := Run(calls);
    EveryRunBacked(calls);
    assert ViewOf(t, a.idempotencyKey) == NOTHING;
    DecideWrites(t, a, e, p, d);
    AllowsAutomatic(t, a, e, p, d);
    if EvaluateContext(ContextOf(t, a, e, p), e.stops, e.now).Allow? {
      AllowedIsWritten(t, a, e, p);
      if Undecided(t, a, Allow) {
        AllowedReserves(calls, a, e, p);
      }
    } else {
      OthersAreNotAllowed(t, a, e, p);
    }
  }

  // ----- Afterwards

  /** One payment has this status, its reservation, if any, is given back when asked, and no other payment changed. */
  ghost predicate Becomes(t: Tables, t': Tables, key: string, status: PaymentStatus, givenBack: bool) {
    && key in t.payments && key in t'.payments
    && t'.payments == t.payments[key := t'.payments[key]]
    && t'.payments[key].status == status && t'.payments[key].ask == t.payments[key].ask
    && t'.payments[key].decision == t.payments[key].decision
    && t'.payments[key].reservationId == t.payments[key].reservationId
    && t'.decisions == t.decisions
    && t'.budget.reservations ==
       if givenBack && key in t.budget.reservations
       then t.budget.reservations[key := t.budget.reservations[key].(status := Ledger.Cancelled)]
       else t.budget.reservations
  }

  /** The Owner cancels a known payment once, with a reason, and its reservation is given back. */
  lemma CancelsExactly(calls: seq<Call>, key: string, byOwner: bool, reasonGiven: bool)
    ensures var t, (t', reply) := Run(calls), Cancel(Run(calls), key, byOwner, reasonGiven);
      && (reply.Success? <==> byOwner && reasonGiven && key in t.payments && key !in t.cancelled)
      && (reply.Success? ==>
            && Becomes(t, t', key, CancelledPayment, true) && t'.cancelled == t.cancelled + {key}
            && t'.approvals == t.approvals && t'.authorized == t.authorized)
      && (reply.Failure? ==> t' == t)
  {
    var t := Run(calls);
    EveryRunBacked(calls);
    if key in t.payments {
      assert Backed(t, key);
      CancelEffect(t, key);
    }
  }

  function StatusAfter(answer: Answer, status: PaymentStatus): PaymentStatus {
    match answer
    case Approve => ApprovedPayment
    case Hold => status
    case Reject => CancelledPayment
    case RequestChanges => CancelledPayment
  }

  predicate Answered(t: Tables, t': Tables, key: string, answer: Answer) {
    && t'.approvals == t.approvals[key := Some(answer)] && t'.authorized == t.authorized && t'.cancelled == t.cancelled
  }

  lemma RefusesOpen(t: Tables, key: string, answer: Answer)
    requires BudgetOk(t.budget) && key in t.payments && Backed(t, key) && key in t.approvals && t.approvals[key].None?
    requires answer in {Reject, RequestChanges}
    ensures var (t', reply) := DecideApproval(t, key, true, answer);
      reply.Success? && Becomes(t, t', key, CancelledPayment, true) && Answered(t, t', key, answer)
  {
    CancelEffect(t.(approvals := t.approvals[key := Some(answer)]), key);
  }

  lemma KeepsOpen(t: Tables, key: string, answer: Answer)
    requires key in t.payments && key in t.approvals && t.approvals[key].None? && answer in {Approve, Hold}
    ensures var (t', reply) := DecideApproval(t, key, true, answer);
      && reply.Success? && Answered(t, t', key, answer)
      && Becomes(t, t', key, StatusAfter(answer, t.payments[key].status), false)
  {
  }

  /**
   * The Owner answers an open request once: APPROVE approves, REJECT and REQUEST_CHANGES cancel and give back, HOLD
   * waits.
   */
  lemma AnswersExactly(calls: seq<Call>, key: string, byOwner: bool, answer: Answer)
    ensures var t, (t', reply) := Run(calls), DecideApproval(Run(calls), key, byOwner, answer);
      && (reply.Success? <==> byOwner && key in t.approvals && t.approvals[key] == None)
      && (reply.Success? ==>
            && key in t.payments && Answered(t, t', key, answer)
            && Becomes(t, t', key, StatusAfter(answer, t.payments[key].status), answer in {Reject, RequestChanges}))
      && (reply.Failure? ==> t' == t)
  {
    var t := Run(calls);
    EveryRunBacked(calls);
    if byOwner && key in t.approvals && t.approvals[key].None? {
      assert ViewOf(t, key) != NOTHING;
      assert Backed(t, key);
      if answer in {Reject, RequestChanges} {
        RefusesOpen(t, key, answer);
      } else {
        KeepsOpen(t, key, answer);
      }
    }
  }

  /** A payment is authorized once, when it is allowed or approved; one that waits for the Signer is marked so. */
  lemma AuthorizesExactly(calls: seq<Call>, key: string, usable: bool)
    ensures var t, (t', reply) := Run(calls), Authorize(Run(calls), key, usable);
      && (reply.Success? <==>
            && usable && key in t.payments && key !in t.authorized
            && (t.payments[key].decision == Allow || t.payments[key].status == ApprovedPayment))
      && (reply.Success? ==>
            && Becomes(t, t', key, if t.payments[key].status == CancelledPayment then CancelledPayment
                       else SignerRequested,
                       false)
            && t'.authorized == t.authorized + {key} && t'.approvals == t.approvals && t'.cancelled == t.cancelled)
      && (reply.Failure? ==> t' == t)
  {
    EveryRunBacked(calls);
    if key in Run(calls).payments {
      assert Backed(Run(calls), key);
    }
  }
}
