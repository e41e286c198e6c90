/**
 * Service Payment proposals: one transaction reads the tables, evaluates the policy, reserves budget and inserts the
 * rows.
 */
module ServicePayments {
  import opened Results
  import opened Networks
  import opened PaymentProfile
  import opened MppPolicy
  import Ledger = BudgetLedger
  import Sql = BudgetSql

  datatype Ask = Ask(
    paymentId: string, idempotencyKey: string, challengeId: string, nonce: string, taskId: string, runId: string,
    traceId: string, correlationId: string, agentId: string, serviceId: string, programId: Option<string>,
    profileId: Option<string>, profileVersion: Option<int>, recipient: string, network: Network, token: string,
    amount: int, expiresAt: int)

  /** The challenge hash covers the whole request and is taken to be free of collisions. */
  datatype ChallengeHash = ChallengeHash(ask: Ask)

  datatype PaymentStatus = Proposed | AwaitingApproval | ApprovedPayment | SignerRequested | CancelledPayment
  datatype Answer = Approve | Reject | RequestChanges | Hold

  datatype Payment = Payment(ask: Ask, decision: Decision, status: PaymentStatus, reservationId: Option<nat>)

  /**
   * Approval requests and Signer authorizations are kept by the key of their payment, as are the outbox rows of the
   * Owner's cancellations.
   */
  datatype Tables = Tables(
    payments: map<string, Payment>, decisions: map<string, (string, Decision)>, approvals: map<string, Option<Answer>>,
    authorized: set<string>, cancelled: set<string>, budget: Ledger.Budget)

  /** What the other tables and the caller contribute to one proposal. */
  datatype Env = Env(
    actorAllowed: bool, inTaskScope: bool, profiles: map<string, Profile>, phase: Phase, ownerApprovalRequired: bool,
    serviceRegistered: bool, profileAllows: bool, stopped: bool, agentStatus: string, providerId: Option<string>,
    providerStopped: bool, stops: set<(string, string)>, now: int, recordDenied: bool)

  datatype ProposalError =
    | ActorRefused | RequestConflict | OutOfTaskScope | ProfileSnapshotMissing | ProfileNotFound | ProfileMismatch
    | PolicyDenied | BudgetRefused(cause: Ledger.BudgetError) | DecisionConflict

  datatype Proposal = Recorded(payment: Payment, replayed: bool) | DeniedAndRecorded(ask: Ask)

  type Outcome = Result<Proposal, ProposalError>

  const EMPTY := Tables(map[], map[], map[], {}, {}, Ledger.EMPTY)

  function ContextOf(t: Tables, a: Ask, e: Env, p: Profile): Context {
    var (task, daily) := Ledger.CurrentSpend(t.budget, p.id, a.taskId, a.agentId, e.now);
    Context(a.paymentId, a.idempotencyKey, a.taskId, a.runId, a.traceId, a.correlationId, a.agentId, a.serviceId,
            a.programId, a.recipient, "SERVICE", Networks.Name(a.network), a.token, a.amount, "SERVICE_PAYMENT",
            a.expiresAt, e.phase, Some(p), e.serviceRegistered, e.profileAllows, true, true, e.agentStatus,
            e.providerId, if e.providerStopped then "STOPPED" else "ACTIVE",
            if e.stopped then "STOPPED" else "ACTIVE", "ACTIVE", task, daily, None, e.ownerApprovalRequired,
            false, false, false, false, false, false, None, false, true, true)
  }

  predicate SharesChallengeOrNonce(t: Tables, a: Ask, key: string) {
    key in t.payments && (t.payments[key].ask.challengeId == a.challengeId || t.payments[key].ask.nonce == a.nonce)
  }

  function SameRequest(p: Payment, a: Ask): Outcome {
    if ChallengeHash(p.ask) == ChallengeHash(a) then Success(Recorded(p, true)) else Failure(RequestConflict)
  }

  /** Decisions are keyed by payment; the same one may be recorded again. */
  function RecordDecision(t: Tables, a: Ask, d: Decision): Result<Tables, ProposalError> {
    if a.paymentId in t.decisions && t.decisions[a.paymentId] != (a.idempotencyKey, d) then Failure(DecisionConflict)
    else Success(t.(decisions := t.decisions[a.paymentId := (a.idempotencyKey, d)]))
  }

  predicate FitsLimits(c: Context, p: Profile) {
    && c.amount <= p.perPayment
    && c.taskSpent + c.amount <= p.perTask
    && c.dailySpent + c.amount <= p.daily
  }

  /** Reserves budget when the amount fits, giving the budget afterwards and the reservation. */
  ghost function ReserveIfFits(b: Ledger.Budget, c: Context, p: Profile, now: int)
    : Result<(Ledger.Budget, Option<nat>), ProposalError>
  {
    if !FitsLimits(c, p) then Success((b, None))
    else
      var (b', reply) := Sql.SqlReserve(b, LimitsOf(p), OrderOf(c, now));
      match reply
      case Failure(e) => Failure(BudgetRefused(e))
      case Success((r, _)) => Success((b', Some(r.id)))
  }

  /** From the policy evaluation on; an error leaves the tables as they were. */
  ghost function Decide(t: Tables, a: Ask, e: Env, p: Profile): (Tables, Outcome) {
    var c := ContextOf(t, a, e, p);
    var d := EvaluateContext(c, e.stops, e.now);
    if d.Deny? then
      if !e.recordDenied then (t, Failure(PolicyDenied))
      else
        match RecordDecision(t, a, Deny)
        case Failure(error) => (t, Failure(error))
        case Success(t1) => (t1, Success(DeniedAndRecorded(a)))
    else
      match ReserveIfFits(t.budget, c, p, e.now)
      case Failure(error) => (t, Failure(error))
      case Success((budget, reservation)) =>
        var payment := Payment(a, d, if d.Allow? then Proposed else AwaitingApproval, reservation);
        match RecordDecision(t, a, d)
        case Failure(error) => (t, Failure(error))
        case Success(t1) =>
          (t1.(budget := budget, payments := t.payments[a.idempotencyKey := payment],
               approvals := if d.Allow? then t.approvals else Enqueued(t.approvals, a.idempotencyKey)),
           Success(Recorded(payment, false)))
  }

  /** A new approval request; one that exists stays as it is. */
  function Enqueued(approvals: map<string, Option<Answer>>, key: string): map<string, Option<Answer>> {
    if key in approvals then approvals else approvals[key := None]
  }

  ghost function Propose(t: Tables, a: Ask, e: Env): (Tables, Outcome) {
    if !e.actorAllowed then (t, Failure(ActorRefused))
    else if a.idempotencyKey in t.payments then (t, SameRequest(t.payments[a.idempotencyKey], a))
    else if exists key :: SharesChallengeOrNonce(t, a, key) then
      var key :| SharesChallengeOrNonce(t, a, key);
      (t, SameRequest(t.payments[key], a))
    else if !e.inTaskScope then (t, Failure(OutOfTaskScope))
    else if a.profileId.None? || a.profileVersion.None? then (t, Failure(ProfileSnapshotMissing))
    else if a.profileId.value !in e.profiles then (t, Failure(ProfileNotFound))
    else
      var p := e.profiles[a.profileId.value];
      if p.agentId != a.agentId || p.version != a.profileVersion.value then (t, Failure(ProfileMismatch))
      else Decide(t, a, e, p)
  }

  // ----- After the proposal

  datatype LifecycleError =
    | NotOwner | ReasonRequired | PaymentUnknown | ReservationRefused(cause: Ledger.BudgetError) | ApprovalUnknown
    | AlreadyAnswered | AuthorizationRefused | OwnerApprovalRequired | DuplicateEvent

  type Reply = Result<PaymentStatus, LifecycleError>

  /** Gives the payment's reservation back as cancelled, and marks the payment so. */
  function CancelReservation(t: Tables, key: string): (Tables, Reply)
    requires key in t.payments
  {
    var p := t.payments[key];
    var cancelled := t.(payments := t.payments[key := p.(status := CancelledPayment)]);
    if p.reservationId.None? then (cancelled, Success(CancelledPayment))
    else if key !in t.budget.reservations then (t, Failure(ReservationRefused(Ledger.NotRegistered)))
    else
      var (budget, reply) := Sql.SqlMove(t.budget, key, Ledger.Cancelled);
      match reply
      case Failure(error) => (t, Failure(ReservationRefused(error)))
      case Success(_) => (cancelled.(budget := budget), Success(CancelledPayment))
  }

  /**
   * The Owner cancels at most once: the outbox refuses a second row under the same key, and the transaction rolls back.
   */
  function Cancel(t: Tables, key: string, byOwner: bool, reasonGiven: bool): (Tables, Reply) {
    if !byOwner then (t, Failure(LifecycleError.NotOwner))
    else if !reasonGiven then (t, Failure(LifecycleError.ReasonRequired))
    else if key !in t.payments then (t, Failure(PaymentUnknown))
    else
      var (t', reply) := CancelReservation(t, key);
      if reply.Failure? then (t, reply)
      else if key in t.cancelled then (t, Failure(DuplicateEvent))
      else (t'.(cancelled := t.cancelled + {key}), reply)
  }

  function DecideApproval(t: Tables, key: string, byOwner: bool, answer: Answer): (Tables, Reply) {
    if !byOwner then (t, Failure(LifecycleError.NotOwner))
    else if key !in t.approvals then (t, Failure(ApprovalUnknown))
    else if t.approvals[key].Some? then (t, Failure(AlreadyAnswered))
    else if key !in t.payments then (t, Failure(PaymentUnknown))
    else
      var answered := t.(approvals := t.approvals[key := Some(answer)]);
      match answer
      case Approve =>
        (answered.(payments := t.payments[key := t.payments[key].(status := ApprovedPayment)]),
         Success(ApprovedPayment))
      case Hold => (answered, Success(t.payments[key].status))
      case _ =>
        var (cancelled, reply) := CancelReservation(answered, key);
        if reply.Failure? then (t, reply) else (cancelled, reply)
  }

  /**
   * `usable` stands for the guards on Agent, profile, expiry and stop controls. A payment is authorized at most once:
   * the outbox refuses a second row for the same authorization.
   */
  function Authorize(t: Tables, key: string, usable: bool): (Tables, Reply) {
    if key !in t.payments then (t, Failure(PaymentUnknown))
    else if !usable then (t, Failure(AuthorizationRefused))
    else
      var p := t.payments[key];
      if p.decision.RequireOwnerApproval?
        && !(p.status.ApprovedPayment? && key in t.approvals && t.approvals[key] == Some(Approve))
      then (t, Failure(OwnerApprovalRequired))
      else if key in t.authorized then (t, Failure(DuplicateEvent))
      else
        var status := if p.status.Proposed? || p.status.ApprovedPayment? then SignerRequested else p.status;
        (t.(authorized := t.authorized + {key}, payments := t.payments[key := p.(status := status)]), Success(status))
  }

  datatype Call =
    | ProposeCall(ask: Ask, env: Env)
    | CancelCall(key: string, byOwner: bool, reasonGiven: bool)
    | ApprovalCall(key: string, byOwner: bool, answer: Answer)
    | AuthorizeCall(key: string, usable: bool)

  ghost function Step(t: Tables, c: Call): Tables {
    match c
    case ProposeCall(a, e) => Propose(t, a, e).0
    case CancelCall(key, byOwner, reasonGiven) => Cancel(t, key, byOwner, reasonGiven).0
    case ApprovalCall(key, byOwner, answer) => DecideApproval(t, key, byOwner, answer).0
    case AuthorizeCall(key, usable) => Authorize(t, key, usable).0
  }

  ghost function Run(calls: seq<Call>): Tables {
    if calls == [] then EMPTY else Step(Run(calls[..|calls| - 1]), calls[|calls| - 1])
  }
}
