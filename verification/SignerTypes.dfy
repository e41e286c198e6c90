/** Records exchanged with the Signer, and its ledgers as values. */
module SignerTypes {
  import opened Results
  import opened Networks
  import opened Base58
  import opened SolanaWire

  datatype RequestStatus =
    | Requested | Signed | Submitted | Confirmed | Failed | Rejected | Stopped | Expired | RevokedRequest

  predicate Accepted(status: RequestStatus) {
    status.Submitted? || status.Confirmed?
  }

  datatype AuthorizationStatus = Issued | ConsumedAuthorization | RevokedAuthorization | ExpiredAuthorization

  datatype Authorization = Authorization(
    id: string, paymentId: string, policyDecisionId: string, policyVersion: string, approvalId: Option<string>,
    hash: string, issuedBy: string, issuedAt: int, expiresAt: int, status: AuthorizationStatus)

  datatype WalletStatus = ActiveWallet | SuspendedWallet | RevokedWallet

  datatype Wallet = Wallet(
    id: string, agentId: string, network: Network, cluster: string, publicKey: string, rotationVersion: nat,
    status: WalletStatus)

  datatype Request = Request(
    requestId: string, authorizationId: string, authorizationHash: string, policyDecisionId: string,
    policyVersion: string, paymentId: string, challengeId: string, idempotencyKey: string, nonce: string,
    taskId: string, runId: string, traceId: string, correlationId: string, agentId: string,
    walletId: string, walletPublicKey: string, walletRotationVersion: nat, network: Network, cluster: string,
    programId: string, token: string, sourceTokenAccount: Option<string>, recipientTokenAccount: Option<string>,
    recentBlockhash: Option<string>, amountUnits: nat, expiresAt: int,
    perPaymentLimit: nat, perTaskLimit: nat, dailyLimit: nat, taskSpent: nat, dailySpent: nat)

  /** SHA-256 of the canonical payload, taken to be free of collisions: a digest is equal only for equal payloads. */
  datatype Digest = Digest(payload: Request)

  datatype SignerResult = SignerResult(
    resultId: nat, requestId: string, authorizationId: string, paymentId: string, requestHash: Digest,
    status: RequestStatus, network: Network, cluster: string, receiptId: nat, externalSignature: Option<string>,
    failureCode: Option<string>, createdAt: int, completedAt: int)

  datatype SignerReceipt = SignerReceipt(
    receiptId: nat, resultId: nat, requestId: string, authorizationId: string, paymentId: string,
    challengeId: string, taskId: string, runId: string, traceId: string, correlationId: string,
    network: Network, cluster: string, token: string, amountUnits: nat, status: RequestStatus,
    requestHash: Digest, externalSignature: Option<string>, createdAt: int)

  datatype Stored = Stored(requestHash: Digest, result: SignerResult, receipt: SignerReceipt)

  // ----- Errors

  /** Why a request is turned away before anything is signed. */
  datatype Reject =
    | NotIssuedHere | AuthorizationWasRevoked | AuthorizationWasConsumed
    | AuthorizationHasStatus(status: AuthorizationStatus)
    | AuthorizationHasExpired | IdentityMismatch | HashMismatch | PaymentMismatch | DecisionMismatch | VersionMismatch
    | RequestOrAuthorizationHasExpired | WalletNotRegistered | WalletNotActive | WalletAgentMismatch
    | WalletNetworkMismatch | WalletKeyMismatch | WalletRotationStale | StopControlActive | RequestHasExpired
    | KeyBoundToAnotherRequest | OverPaymentLimit | OverTaskLimit | OverDailyLimit

  /** Stop controls give STOPPED; authorization errors whose text says "expired" give EXPIRED; the rest is REJECTED. */
  function StatusOf(reason: Reject): RequestStatus {
    match reason
    case StopControlActive => Stopped
    case AuthorizationHasExpired => Expired
    case RequestOrAuthorizationHasExpired => Expired
    case RequestHasExpired => Expired
    case AuthorizationHasStatus(status) => if status.ExpiredAuthorization? then Expired else Rejected
    case _ => Rejected
  }

  datatype CallError = AuthorizationConflict | AuthorizationUnknown | KeyReused | NonceReused

  // ----- What the outside world answers during one execution

  datatype BlockhashReply = BlockhashUnreachable | Blockhash(value: Option<string>)
  datatype TransportReply =
    | TransportRaised | Reply(status: RequestStatus, signature: Option<string>, failureCode: Option<string>)

  datatype World = World(
    now: int, completed: int, wallet: Option<Wallet>, stops: set<(string, string)>,
    keyReadable: bool, blockhash: BlockhashReply, reply: TransportReply)

  datatype Payload = LocalPayload(request: Request) | DevnetPayload(message: Bytes)

  /** One call of the transport's submit, whatever came of it. */
  datatype Submission = Submission(
    idempotencyKey: string, walletId: string, nonce: string, authorizationId: string, payload: Payload, accepted: bool)

  datatype AuditEntry = RequestReceived(requestId: string) | ResultRecorded(resultId: nat, allowed: bool)

  // ----- Ledgers as values

  datatype Registry = Registry(authorizations: map<string, Authorization>, revoked: set<string>, consumed: set<string>)

  datatype Reservation = Reservation(requestHash: Digest, amountUnits: nat, reservationId: nat)
  datatype Ledger = Ledger(reservations: map<string, Reservation>, consumed: set<string>)

  function Register(r: Registry, a: Authorization): Result<Registry, CallError> {
    if a.id in r.authorizations && r.authorizations[a.id] != a then Failure(AuthorizationConflict)
    else Success(r.(authorizations := r.authorizations[a.id := a]))
  }

  function Revoke(r: Registry, id: string): Result<Registry, CallError> {
    if id !in r.authorizations then Failure(AuthorizationUnknown)
    else Success(r.(revoked := r.revoked + {id}))
  }

  function Unusable(r: Registry, a: Authorization, q: Request, now: int): Option<Reject> {
    if a.id !in r.authorizations || r.authorizations[a.id] != a then Some(NotIssuedHere)
    else if a.id in r.revoked then Some(AuthorizationWasRevoked)
    else if a.id in r.consumed then Some(AuthorizationWasConsumed)
    else if !a.status.Issued? then Some(AuthorizationHasStatus(a.status))
    else if a.expiresAt <= now then Some(AuthorizationHasExpired)
    else if q.authorizationId != a.id then Some(IdentityMismatch)
    else if q.authorizationHash != a.hash then Some(HashMismatch)
    else if q.paymentId != a.paymentId then Some(PaymentMismatch)
    else if q.policyDecisionId != a.policyDecisionId then Some(DecisionMismatch)
    else if q.policyVersion != a.policyVersion then Some(VersionMismatch)
    else if q.expiresAt <= now || a.expiresAt <= now then Some(RequestOrAuthorizationHasExpired)
    else None
  }

  function ConsumeAuthorization(r: Registry, id: string): Option<Registry> {
    if id in r.revoked || id !in r.authorizations then None
    else Some(r.(consumed := r.consumed + {id}))
  }

  /** The new ledger, and whether a reservation was added. */
  function Reserve(l: Ledger, q: Request, reservationId: nat): Result<(Ledger, bool), Reject> {
    if q.idempotencyKey in l.reservations then
      var existing := l.reservations[q.idempotencyKey];
      if existing.requestHash != Digest(q) || existing.amountUnits != q.amountUnits then
        Failure(KeyBoundToAnotherRequest)
      else Success((l, false))
    else if q.amountUnits > q.perPaymentLimit then Failure(OverPaymentLimit)
    else if q.amountUnits + q.taskSpent > q.perTaskLimit then Failure(OverTaskLimit)
    else if q.amountUnits + q.dailySpent > q.dailyLimit then Failure(OverDailyLimit)
    else
      var reservation := Reservation(Digest(q), q.amountUnits, reservationId);
      Success((l.(reservations := l.reservations[q.idempotencyKey := reservation]), true))
  }

  function Release(l: Ledger, key: string): Ledger {
    l.(reservations := l.reservations - {key})
  }

  function ConsumeReservation(l: Ledger, key: string): Option<Ledger> {
    if key !in l.reservations then None else Some(l.(consumed := l.consumed + {key}))
  }

  // ----- Checks of one request

  function WalletMismatch(w: Wallet, q: Request): Option<Reject> {
    if !w.status.ActiveWallet? then Some(WalletNotActive)
    else if w.agentId != q.agentId then Some(WalletAgentMismatch)
    else if w.network != q.network || w.cluster != q.cluster then Some(WalletNetworkMismatch)
    else if w.publicKey != q.walletPublicKey then Some(WalletKeyMismatch)
    else if w.rotationVersion != q.walletRotationVersion then Some(WalletRotationStale)
    else None
  }

  predicate StopActive(stops: set<(string, string)>, q: Request) {
    || ("GLOBAL", "*") in stops
    || ("SIGNER", "*") in stops
    || ("PAYMENT", q.paymentId) in stops
    || ("AGENT", q.agentId) in stops
    || ("RUN", q.runId) in stops
    || ("MPP", "*") in stops
  }

  predicate NeedsBlockhash(q: Request) {
    q.network.SolanaDevnet? && q.recentBlockhash.None?
  }

  /** The request as it is signed: a devnet request without a blockhash gets one from the transport. */
  function Prepare(q: Request, w: World): Option<Request> {
    if !NeedsBlockhash(q) then Some(q)
    else if w.blockhash.BlockhashUnreachable? || w.blockhash.value.None? || w.blockhash.value.value == "" then None
    else Some(q.(recentBlockhash := w.blockhash.value))
  }

  function TransferOf(q: Request): Transfer {
    Transfer(q.walletPublicKey, q.sourceTokenAccount, q.recipientTokenAccount, q.programId, q.recentBlockhash,
             q.amountUnits)
  }

  function SignedPayload(q: Request, w: World): Option<Payload> {
    if !w.keyReadable then None
    else if q.network.Local? then Some(LocalPayload(q))
    else
      match BuildMessage(TransferOf(q))
      case Success(message) => Some(DevnetPayload(message))
      case Failure(_) => None
  }

  /** Decrypting, signing and submitting reached the transport and it answered. */
  predicate TransportAnswers(q: Request, w: World) {
    && Prepare(q, w).Some?
    && SignedPayload(Prepare(q, w).value, w).Some?
    && w.reply.Reply?
  }

  function ReceiptOf(q: Request, r: SignerResult, now: int): SignerReceipt {
    SignerReceipt(
      r.receiptId, r.resultId, q.requestId, q.authorizationId, q.paymentId, q.challengeId, q.taskId, q.runId,
      q.traceId, q.correlationId, q.network, q.cluster, q.token, q.amountUnits, r.status, r.requestHash,
      r.externalSignature, now)
  }
}
