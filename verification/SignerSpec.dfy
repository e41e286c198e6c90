/** What one Signer call does to the Signer's five pieces of state, and what every run of calls keeps. */
module SignerSpec {
  import opened Results
  import opened SignerTypes

  datatype State = State(
    registry: Registry, ledger: Ledger, results: map<string, Stored>, nonces: map<(string, string), Digest>,
    audit: seq<AuditEntry>, submissions: seq<Submission>, nextId: nat)

  datatype Outcome = Returned(result: SignerResult, receipt: SignerReceipt) | Raised(error: CallError)

  const INITIAL := State(Registry(map[], {}, {}), Ledger(map[], {}), map[], map[], [], [], 0)

  function Record(s: State, q: Request, result: SignerResult, now: int): (State, Outcome) {
    var receipt := ReceiptOf(q, result, now);
    (s.(results := s.results[q.idempotencyKey := Stored(result.requestHash, result, receipt)],
        audit := s.audit + [ResultRecorded(result.resultId, Accepted(result.status))],
        nextId := s.nextId + 2),
     Returned(result, receipt))
  }

  function Fail(s: State, q: Request, status: RequestStatus, code: string, hash: Digest, w: World): (State, Outcome) {
    Record(s, q,
      SignerResult(s.nextId, q.requestId, q.authorizationId, q.paymentId, hash, status, q.network, q.cluster,
                   s.nextId + 1, None, Some(code), w.now, w.completed),
      w.now)
  }

  function FailReleased(s: State, q: Request, code: string, hash: Digest, w: World): (State, Outcome) {
    Fail(s.(ledger := Release(s.ledger, q.idempotencyKey)), q, Failed, code, hash, w)
  }

  /** The guards, the budget reservation and the nonce, in the order they are applied. */
  function Admit(s: State, q: Request, a: Authorization, w: World): Result<State, Reject> {
    var unusable := Unusable(s.registry, a, q, w.now);
    if unusable.Some? then Failure(unusable.value)
    else if w.wallet.None? then Failure(WalletNotRegistered)
    else
      var mismatch := WalletMismatch(w.wallet.value, q);
      if mismatch.Some? then Failure(mismatch.value)
      else if StopActive(w.stops, q) then Failure(StopControlActive)
      else if q.expiresAt <= w.now then Failure(RequestHasExpired)
      else
        var (ledger, added) :- Reserve(s.ledger, q, s.nextId);
        Success(s.(ledger := ledger, nextId := if added then s.nextId + 1 else s.nextId,
                   nonces := s.nonces[(q.walletId, q.nonce) := Digest(q)]))
  }

  function Complete(s: State, q: Request, a: Authorization, w: World, hash: Digest): (State, Outcome)
    requires w.reply.Reply?
  {
    match ConsumeReservation(s.ledger, q.idempotencyKey)
    case None => FailReleased(s, q, "SIGNER_FAILURE", Digest(q), w)
    case Some(ledger) =>
      var s1 := s.(ledger := ledger);
      match ConsumeAuthorization(s.registry, a.id)
      case None => FailReleased(s1, q, "SIGNER_FAILURE", Digest(q), w)
      case Some(registry) =>
        Record(s1.(registry := registry), q,
          SignerResult(s.nextId, q.requestId, a.id, q.paymentId, hash, w.reply.status, q.network, q.cluster,
                       s.nextId + 1, w.reply.signature, None, w.now, w.completed),
          w.now)
  }

  function SubmissionOf(q: Request, a: Authorization, payload: Payload, w: World): Submission {
    Submission(q.idempotencyKey, q.walletId, q.nonce, a.id, payload, w.reply.Reply? && Accepted(w.reply.status))
  }

  function ReplyCode(w: World): string
    requires w.reply.Reply?
  {
    if w.reply.failureCode.Some? && w.reply.failureCode.value != "" then w.reply.failureCode.value
      else "TRANSPORT_FAILURE"
  }

  function Perform(s: State, q: Request, a: Authorization, w: World): (State, Outcome) {
    match Prepare(q, w)
    case None => FailReleased(s, q, "SIGNER_FAILURE", Digest(q), w)
    case Some(prepared) =>
      match SignedPayload(prepared, w)
      case None => FailReleased(s, q, "SIGNER_FAILURE", Digest(q), w)
      case Some(payload) =>
        var s1 := s.(submissions := s.submissions + [SubmissionOf(q, a, payload, w)]);
        if w.reply.TransportRaised? then FailReleased(s1, q, "SIGNER_FAILURE", Digest(q), w)
        else if !Accepted(w.reply.status) then
          FailReleased(s1, q, ReplyCode(w), Digest(prepared), w)
        else Complete(s1, q, a, w, Digest(prepared))
  }

  function Execute(s: State, q: Request, a: Authorization, w: World): (State, Outcome) {
    if q.idempotencyKey in s.results then
      var stored := s.results[q.idempotencyKey];
      if stored.requestHash != Digest(q) then (s, Raised(KeyReused)) else (s, Returned(stored.result, stored.receipt))
    else if (q.walletId, q.nonce) in s.nonces then (s, Raised(NonceReused))
    else
      var s1 := s.(audit := s.audit + [RequestReceived(q.requestId)]);
      match Admit(s1, q, a, w)
      case Failure(reason) =>
        var status := StatusOf(reason);
        Fail(s1, q, status, if status.Stopped? then "STOPPED" else "REJECTED", Digest(q), w)
      case Success(s2) => Perform(s2, q, a, w)
  }

  function RegisterIn(s: State, a: Authorization): Result<State, CallError> {
    var registry :- Register(s.registry, a);
    Success(s.(registry := registry))
  }

  /** The gateway registers the authorization and then executes. */
  function GatewayExecute(s: State, q: Request, a: Authorization, w: World): (State, Outcome) {
    match RegisterIn(s, a)
    case Failure(e) => (s, Raised(e))
    case Success(s1) => Execute(s1, q, a, w)
  }

  // ----- Runs

  datatype Call =
    | RegisterCall(authorization: Authorization)
    | RevokeCall(authorizationId: string)
    | ExecuteCall(request: Request, authorization: Authorization, world: World)

  function Step(s: State, c: Call): State {
    match c
    case RegisterCall(a) => var r := RegisterIn(s, a); if r.Success? then r.value else s
    case RevokeCall(id) => var r := Revoke(s.registry, id); if r.Success? then s.(registry := r.value) else s
    case ExecuteCall(q, a, w) => GatewayExecute(s, q, a, w).0
  }

  function Run(calls: seq<Call>): State {
    if calls == [] then INITIAL else Step(Run(calls[..|calls| - 1]), calls[|calls| - 1])
  }
}
