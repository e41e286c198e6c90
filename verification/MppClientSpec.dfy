/** The MPP Client as a state machine: one payment session per idempotency key, one proof per session. */
module MppClientSpec {
  import opened Results
  import opened Networks
  import opened PaymentProfile
  import opened MppPolicy
  import SignerTypes

  datatype Challenge = Challenge(
    paymentId: Option<string>, challengeId: string, serviceId: string, taskId: string, runId: string, traceId: string,
    correlationId: string, idempotencyKey: string, nonce: string, network: Network, token: string,
    tokenMint: Option<string>, programId: Option<string>, recipient: string, sourceTokenAccount: Option<string>,
    recipientTokenAccount: Option<string>, amount: int, expiresAt: int)

  /** The challenge hash covers the whole challenge and is taken to be free of collisions. */
  datatype ChallengeHash = ChallengeHash(challenge: Challenge)

  datatype Config = Config(
    profile: Profile, phase: Phase, serviceRegistered: bool, taskAllowlist: seq<string>, runAllowlist: seq<string>)

  datatype Proof = Proof(
    paymentId: string, challengeId: string, idempotencyKey: string, signerRequestId: string, signerResultId: nat,
    signerReceiptId: nat, externalSignature: string)

  datatype ProviderReceipt = ProviderReceipt(
    receiptId: string, paymentId: string, challengeId: string, signerRequestId: string, signerResultId: nat,
    externalSignature: string)

  datatype SignerReply =
    | SignerRaised | SignerReturned(result: SignerTypes.SignerResult, receipt: Option<SignerTypes.SignerReceipt>)
  datatype ProviderReply = ProviderRaised | Response(code: int, receipt: Option<ProviderReceipt>)

  datatype World = World(
    now: int, stops: set<(string, string)>, paymentValid: bool, requestBuilds: bool, signer: SignerReply,
    provider: ProviderReply)

  datatype Status = Succeeded | PendingApproval | DeniedPayment | FailedPayment | StoppedPayment

  datatype PaymentResult = PaymentResult(
    status: Status, decision: Decision, challengeHash: ChallengeHash, attempts: int, responseStatus: Option<int>,
    proof: Option<Proof>, signerReply: Option<SignerReply>, replayed: bool)

  datatype Session = Session(
    challenge: Challenge, decision: Option<Decision>, result: Option<PaymentResult>, sequence: nat)

  /** One call of the provider's submit_payment. */
  datatype Submission = Submission(
    idempotencyKey: string, decision: Decision, signer: SignerTypes.SignerResult, proof: Proof)

  datatype State = State(
    sessions: map<string, Session>, challengeKeys: map<(string, string), string>, submissions: seq<Submission>)

  datatype ClientError =
    | KeyBoundToAnotherChallenge | SessionWithoutResult | NonceReused | InvalidPayment | SessionUnknown
    | ApprovalIdMissing

  type Outcome = Result<PaymentResult, ClientError>

  const EMPTY := State(map[], map[], [])

  // ----- Guards

  function PaymentId(c: Challenge): string {
    if c.paymentId.Some? then c.paymentId.value else "mpp-payment-" + c.challengeId
  }

  predicate ProfileMismatch(g: Config, c: Challenge) {
    var p := g.profile;
    || c.network != p.network
    || c.serviceId != p.serviceId || c.serviceId !in p.services
    || c.recipient != p.recipient || c.recipient !in p.recipients
    || c.token !in p.tokens
    || (c.programId.Some? && (p.programs == [] || c.programId.value !in p.programs))
    || (c.network.SolanaDevnet? &&
          (p.mints == [] || c.tokenMint.None? || c.tokenMint.value !in p.mints || c.programId.None?))
  }

  predicate ScopeMismatch(g: Config, c: Challenge) {
    || (g.taskAllowlist != [] && c.taskId !in g.taskAllowlist)
    || (g.runAllowlist != [] && c.runId !in g.runAllowlist)
  }

  /** What the client asks the engine; it passes no spend, so the engine sees none. */
  function ContextOf(g: Config, c: Challenge, registered: bool, approvalId: Option<string>): Context {
    Context(PaymentId(c), c.idempotencyKey, c.taskId, c.runId, c.traceId, c.correlationId, g.profile.agentId,
            c.serviceId, c.programId, c.recipient, "SERVICE", Networks.Name(c.network), c.token, c.amount,
            "SERVICE_PAYMENT", c.expiresAt,
            g.phase, Some(g.profile), registered, true, true, true, "ACTIVE", None, "ACTIVE", "ACTIVE", "ACTIVE",
            0, 0, None, false, false, false, false, false, false, false, approvalId, approvalId.Some?, true, true)
  }

  /** The proof built from the Signer's answer, or none when the answer does not match the payment. */
  function ProofOf(c: Challenge, r: SignerTypes.SignerResult, t: SignerTypes.SignerReceipt): Option<Proof> {
    if !SignerTypes.Accepted(r.status) then None
    else if r.externalSignature.None? || r.externalSignature.value == "" then None
    else if r.paymentId != PaymentId(c) || t.paymentId != PaymentId(c) || t.challengeId != c.challengeId
      || t.taskId != c.taskId || t.runId != c.runId || t.traceId != c.traceId || t.correlationId != c.correlationId
      || t.network != c.network || t.token != c.token || t.amountUnits != c.amount || t.requestHash != r.requestHash
      || t.resultId != r.resultId || t.requestId != r.requestId || t.receiptId != r.receiptId || t.status != r.status
      || r.network != c.network
    then None
    else Some(Proof(PaymentId(c), c.challengeId, c.idempotencyKey, r.requestId, r.resultId, t.receiptId,
                    r.externalSignature.value))
  }

  predicate ReceiptMatches(p: Proof, t: ProviderReceipt) {
    && t.paymentId == p.paymentId && t.challengeId == p.challengeId && t.signerRequestId == p.signerRequestId
    && t.signerResultId == p.signerResultId && t.externalSignature == p.externalSignature
  }

  predicate ProviderConfirms(p: Proof, w: World) {
    && w.provider.Response? && 200 <= w.provider.code <= 299
    && w.provider.receipt.Some? && ReceiptMatches(p, w.provider.receipt.value)
  }

  // ----- Steps

  function Plain(session: Session, status: Status, d: Decision, attempts: int,
                 signerReply: Option<SignerReply>): PaymentResult {
    PaymentResult(status, d, ChallengeHash(session.challenge), attempts, None, None, signerReply, false)
  }

  function Finish(s: State, session: Session, result: PaymentResult): (State, Outcome) {
    var finished := session.(result := Some(result), sequence := session.sequence + 1);
    (s.(sessions := s.sessions[session.challenge.idempotencyKey := finished]), Success(result))
  }

  function Replayed(r: PaymentResult): PaymentResult {
    r.(replayed := true)
  }

  /** After ALLOW: obtain a Signer result, then send one proof to the provider. */
  function ExecuteAndRetry(s: State, session: Session, d: Decision, w: World): (State, Outcome) {
    var c := session.challenge;
    if !w.requestBuilds || w.signer.SignerRaised? then Finish(s, session, Plain(session, FailedPayment, d, 1, None))
    else
      var r, t := w.signer.result, w.signer.receipt;
      if r.status.Stopped? then Finish(s, session, Plain(session, StoppedPayment, d, 1, Some(w.signer)))
      else if !SignerTypes.Accepted(r.status) || t.None? then
        Finish(s, session, Plain(session, FailedPayment, d, 1, Some(w.signer)))
      else
        var proof := ProofOf(c, r, t.value);
        if proof.None? then Finish(s, session, Plain(session, FailedPayment, d, 2, Some(w.signer)))
        else
          var s1 := s.(submissions := s.submissions + [Submission(c.idempotencyKey, d, r, proof.value)]);
          var code := if w.provider.Response? then Some(w.provider.code) else None;
          if ProviderConfirms(proof.value, w) then
            Finish(s1, session, PaymentResult(Succeeded, d, ChallengeHash(c), 2, code, proof, Some(w.signer), false))
          else
            Finish(s1, session, PaymentResult(FailedPayment, d, ChallengeHash(c), 2, code, None, Some(w.signer), false))
  }

  function AfterEvaluation(s: State, session: Session, d: Decision, w: World): (State, Outcome) {
    var evaluated := session.(decision := Some(d));
    match d
    case Deny => Finish(s, evaluated, Plain(evaluated, DeniedPayment, d, 1, None))
    case RequireOwnerApproval => Finish(s, evaluated, Plain(evaluated, PendingApproval, d, 1, None))
    case Allow => ExecuteAndRetry(s, evaluated, d, w)
  }

  /** The first decision on a session that was just opened. */
  function Start(g: Config, s: State, session: Session, w: World): (State, Outcome) {
    var c := session.challenge;
    if !g.phase.Devnet? || !g.serviceRegistered || ProfileMismatch(g, c) || ScopeMismatch(g, c) then
      Finish(s, session, Plain(session, DeniedPayment, Deny, 1, None))
    else AfterEvaluation(s, session, EvaluateContext(ContextOf(g, c, true, None), w.stops, w.now), w)
  }

  function Pay(g: Config, s: State, c: Challenge, w: World): (State, Outcome) {
    var key := c.idempotencyKey;
    if key in s.sessions then
      var existing := s.sessions[key];
      if ChallengeHash(existing.challenge) != ChallengeHash(c) then (s, Failure(KeyBoundToAnotherChallenge))
      else if existing.result.None? then (s, Failure(SessionWithoutResult))
      else (s, Success(Replayed(existing.result.value)))
    else
      var nonce := (c.challengeId, c.nonce);
      if nonce in s.challengeKeys && s.challengeKeys[nonce] != key then (s, Failure(NonceReused))
      else
        var s1 := s.(challengeKeys := s.challengeKeys[nonce := key]);
        if !w.paymentValid then (s1, Failure(InvalidPayment))
        else
          var session := Session(c, None, None, 0);
          Start(g, s1.(sessions := s1.sessions[key := session]), session, w)
  }

  /** The second decision, once the Owner approved. */
  function AfterApproval(s: State, session: Session, d: Decision, attempts: int, w: World): (State, Outcome) {
    var evaluated := session.(decision := Some(d));
    if !d.Allow? then Finish(s, evaluated, Plain(evaluated, DeniedPayment, d, attempts, None))
    else ExecuteAndRetry(s, evaluated, d, w)
  }

  /** What the Owner's answer does to a session that waits for it. */
  function Answer(g: Config, s: State, session: Session, attempts: int, approved: bool, approvalId: Option<string>,
                  w: World): (State, Outcome) {
    if !approved then Finish(s, session, Plain(session, DeniedPayment, Deny, attempts, None))
    else if approvalId.None? || approvalId.value == "" then (s, Failure(ApprovalIdMissing))
    else
      AfterApproval(
        s, session, EvaluateContext(ContextOf(g, session.challenge, g.serviceRegistered, approvalId), w.stops, w.now),
        attempts, w)
  }

  function Resume(g: Config, s: State, key: string, approved: bool, approvalId: Option<string>, w: World)
    : (State, Outcome)
  {
    if key !in s.sessions || s.sessions[key].result.None? then (s, Failure(SessionUnknown))
    else
      var session := s.sessions[key];
      var result := session.result.value;
      if !result.status.PendingApproval? then (s, Success(Replayed(result)))
      else Answer(g, s, session, result.attempts, approved, approvalId, w)
  }

  datatype Call =
    | PayCall(challenge: Challenge, world: World)
    | ResumeCall(key: string, approved: bool, approvalId: Option<string>, world: World)

  function Step(g: Config, s: State, c: Call): (State, Outcome) {
    match c
    case PayCall(challenge, w) => Pay(g, s, challenge, w)
    case ResumeCall(key, approved, approvalId, w) => Resume(g, s, key, approved, approvalId, w)
  }

  function RunFrom(g: Config, s: State, calls: seq<Call>): State {
    if calls == [] then s else Step(g, RunFrom(g, s, calls[..|calls| - 1]), calls[|calls| - 1]).0
  }
}
