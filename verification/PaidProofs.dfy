/** What the client's results and proofs say about the challenge, the Signer's answer and the provider's. */
module PaidProofs {
  import opened Results
  import opened Networks
  import opened PaymentProfile
  import opened MppPolicy
  import opened Texts
  import opened MppClientSpec
  import opened MppClientSafety
  import opened AllowedPayments
  import SignerTypes

  // ----- One execution

  /** The Signer accepted, and its result and receipt are about this payment and about each other. */
  predicate Proves(c: Challenge, reply: SignerReply) {
    && reply.SignerReturned? && reply.receipt.Some?
    && var (r, t) := (reply.result, reply.receipt.value);
      && (r.status.Submitted? || r.status.Confirmed?)
      && r.externalSignature.Some? && r.externalSignature.value != ""
      && r.paymentId == t.paymentId == PaymentId(c) && r.network == t.network == c.network
      && t.challengeId == c.challengeId && t.taskId == c.taskId && t.runId == c.runId && t.traceId == c.traceId
      && t.correlationId == c.correlationId && t.token == c.token && t.amountUnits == c.amount
      && t.requestHash == r.requestHash && t.resultId == r.resultId && t.requestId == r.requestId
      && t.receiptId == r.receiptId && t.status == r.status
  }

  /** The proof names the payment and the Signer's result. */
  predicate ProofNames(p: Proof, c: Challenge, reply: SignerReply) {
    && reply.SignerReturned? && reply.receipt.Some?
    && p.paymentId == PaymentId(c) && p.challengeId == c.challengeId && p.idempotencyKey == c.idempotencyKey
    && p.signerRequestId == reply.result.requestId && p.signerResultId == reply.result.resultId
    && p.signerReceiptId == reply.receipt.value.receiptId
    && reply.result.externalSignature == Some(p.externalSignature)
  }

  /** A response in the 200s whose receipt agrees with the proof in all five fields. */
  predicate ReceiptAgrees(p: Proof, reply: ProviderReply) {
    && reply.Response? && 200 <= reply.code <= 299 && reply.receipt.Some?
    && var t := reply.receipt.value;
      (t.paymentId, t.challengeId, t.signerRequestId, t.signerResultId, t.externalSignature)
      == (p.paymentId, p.challengeId, p.signerRequestId, p.signerResultId, p.externalSignature)
  }

  /** The Signer accepted with a receipt, so that a second attempt at the provider is made. */
  predicate Answers(w: World) {
    && w.requestBuilds && w.signer.SignerReturned? && w.signer.receipt.Some?
    && (w.signer.result.status.Submitted? || w.signer.result.status.Confirmed?)
  }

  /** SUCCEEDED, STOPPED and FAILED after ALLOW, and what is sent and reported in each case. */
  predicate ExecutionFits(before: seq<Submission>, after: seq<Submission>, c: Challenge, d: Decision, w: World,
                          r: PaymentResult) {
    var proven := w.requestBuilds && Proves(c, w.signer);
    && (if proven then
          && |after| == |before| + 1 && after[..|before|] == before
          && var b := after[|before|];
            && b.idempotencyKey == c.idempotencyKey && b.decision == d && b.signer == w.signer.result
            && ProofNames(b.proof, c, w.signer)
            && (r.status.Succeeded? <==> ReceiptAgrees(b.proof, w.provider))
            && (r.status.Succeeded? ==> r.proof == Some(b.proof))
        else after == before && !r.status.Succeeded?)
    && (r.status.StoppedPayment? <==> w.requestBuilds && w.signer.SignerReturned? && w.signer.result.status.Stopped?)
    && (r.status.Succeeded? || r.status.StoppedPayment? || r.status.FailedPayment?)
    && (r.proof.Some? <==> r.status.Succeeded?) && !r.replayed && r.decision == d
    && r.challengeHash == ChallengeHash(c)
    && r.responseStatus == (if proven && w.provider.Response? then Some(w.provider.code) else None)
    && r.signerReply == (if w.requestBuilds && w.signer.SignerReturned? then Some(w.signer) else None)
    && (r.attempts == if Answers(w) then 2 else 1)
  }

  lemma ProofExactly(c: Challenge, r: SignerTypes.SignerResult, t: SignerTypes.SignerReceipt)
    ensures ProofOf(c, r, t).Some? <==> Proves(c, SignerReturned(r, Some(t)))
    ensures ProofOf(c, r, t).Some? ==> ProofNames(ProofOf(c, r, t).value, c, SignerReturned(r, Some(t)))
  {
  }

  lemma QuietExecution(s: State, session: Session, d: Decision, w: World)
    requires !(w.requestBuilds && Proves(session.challenge, w.signer))
    ensures var (t, o) := ExecuteAndRetry(s, session, d, w);
      o.Success? && ExecutionFits(s.submissions, t.submissions, session.challenge, d, w, o.value)
  {
    if w.signer.SignerReturned? && w.signer.receipt.Some? {
      ProofExactly(session.challenge, w.signer.result, w.signer.receipt.value);
    }
  }

  lemma SendingExecution(s: State, session: Session, d: Decision, w: World)
    requires w.requestBuilds && Proves(session.challenge, w.signer)
    ensures var (t, o) := ExecuteAndRetry(s, session, d, w);
      o.Success? && ExecutionFits(s.submissions, t.submissions, session.challenge, d, w, o.value)
  {
    ProofExactly(session.challenge, w.signer.result, w.signer.receipt.value);
  }

  lemma ExecutesExactly(s: State, session: Session, d: Decision, w: World)
    ensures var (t, o) := ExecuteAndRetry(s, session, d, w);
      o.Success? && ExecutionFits(s.submissions, t.submissions, session.challenge, d, w, o.value)
  {
    if w.requestBuilds && Proves(session.challenge, w.signer) {
      SendingExecution(s, session, d, w);
    } else {
      QuietExecution(s, session, d, w);
    }
  }

  // ----- One payment

  /**
   * The client serves devnet payments of its profile's Service, recipient, token and program, in its Tasks and Runs.
   */
  predicate InScopeOf(g: Config, c: Challenge) {
    var p := g.profile;
    && g.phase.Devnet? && g.serviceRegistered && c.network == p.network
    && c.serviceId == p.serviceId && c.serviceId in p.services
    && c.recipient == p.recipient && c.recipient in p.recipients && c.token in p.tokens
    && (c.programId.Some? ==> c.programId.value in p.programs)
    && (c.network.SolanaDevnet? ==> c.tokenMint.Some? && c.tokenMint.value in p.mints && c.programId.Some?)
    && (g.taskAllowlist == [] || c.taskId in g.taskAllowlist) && (g.runAllowlist == [] || c.runId in g.runAllowlist)
  }

  /** What a challenge gets that opens a session: outside the scope a refusal, inside it what the engine decides. */
  lemma PaysExactly(g: Config, s: State, c: Challenge, w: World)
    requires c.idempotencyKey !in s.sessions && w.paymentValid
    requires (c.challengeId, c.nonce) in s.challengeKeys ==>
      s.challengeKeys[(c.challengeId, c.nonce)] == c.idempotencyKey
    ensures var (t, o) := Pay(g, s, c, w);
      var d := if InScopeOf(g, c) then EvaluateContext(ContextOf(g, c, true, None), w.stops, w.now) else Deny;
      && o.Success?
      && (d.Allow? ==> ExecutionFits(s.submissions, t.submissions, c, Allow, w, o.value))
      && (!d.Allow? ==>
            t.submissions == s.submissions && o.value.proof.None? && o.value.decision == d && o.value.attempts == 1)
      && (o.value.status.DeniedPayment? <==> d.Deny?)
      && (o.value.status.PendingApproval? <==> d.RequireOwnerApproval?)
  {
    var s1 := s.(challengeKeys := s.challengeKeys[(c.challengeId, c.nonce) := c.idempotencyKey]);
    var s2 := s1.(sessions := s1.sessions[c.idempotencyKey := Session(c, None, None, 0)]);
    ExecutesExactly(s2, Session(c, Some(Allow), None, 0), Allow, w);
  }

  /** The stop controls that concern a challenge; the client names no provider. */
  function StopsOf(g: Config, c: Challenge): set<(string, string)> {
    {("MPP", "*"), ("SIGNER", "*"), ("PROVIDER", "*"), ("PAYMENT", PaymentId(c)), ("AGENT", g.profile.agentId),
     ("RUN", c.runId)}
  }

  /** The challenge is traced and unexpired, its recipient a third party, and nothing concerning it is stopped. */
  predicate Open(g: Config, c: Challenge, stops: set<(string, string)>, now: int) {
    && c.correlationId != "" && c.traceId != "" && now < c.expiresAt && stops !! StopsOf(g, c)
    && c.recipient != g.profile.agentId && (forall prefix :: prefix in INTERNAL ==> !(prefix <= Folded(c.recipient)))
    && g.profile.status.Active? && g.profile.rotation.Current?
  }

  /** Open, and within the profile's limits for a payment without the Owner. */
  predicate Payable(g: Config, c: Challenge, stops: set<(string, string)>, now: int) {
    var p := g.profile;
    && Open(g, c, stops, now) && now < p.expiresAt && "SERVICE_PAYMENT" in p.purposes
    && (if p.programs == [] then c.programId.None? else c.programId.Some? && c.programId.value in p.programs)
    && 0 < c.amount <= p.perPayment && c.amount <= p.perTask && c.amount <= p.daily && c.amount <= p.autoLimit
    && c.expiresAt <= now + p.maxExpirySeconds
    && p.mode.AutoAllow? && p.risk in {Low, Medium}
  }

  lemma StopsAgree(g: Config, c: Challenge, registered: bool, approvalId: Option<string>)
    ensures ControlsOf(ContextOf(g, c, registered, approvalId)) == StopsOf(g, c)
  {
  }

  lemma OpenIsUnhindered(g: Config, c: Challenge, registered: bool, approvalId: Option<string>,
                         stops: set<(string, string)>,
                         now: int)
    requires g.phase.Devnet? && registered
    ensures Unhindered(ContextOf(g, c, registered, approvalId), stops, now) <==> Open(g, c, stops, now)
  {
    StopsAgree(g, c, registered, approvalId);
    assert Upper("ACTIVE") == "ACTIVE";
  }

  /** Without an approval the engine allows a challenge in scope exactly when it is payable. */
  lemma AllowsPayable(g: Config, c: Challenge, stops: set<(string, string)>, now: int)
    requires InScopeOf(g, c)
    ensures EvaluateContext(ContextOf(g, c, true, None), stops, now).Allow? <==> Payable(g, c, stops, now)
  {
    OpenIsUnhindered(g, c, true, None, stops, now);
    AllowedExactly(ContextOf(g, c, true, None), stops, now);
  }

  /** With an approval only an open challenge is allowed. */
  lemma ApprovedIsOpen(g: Config, c: Challenge, approvalId: string, stops: set<(string, string)>, now: int)
    requires g.phase.Devnet? && g.serviceRegistered
    requires EvaluateContext(ContextOf(g, c, g.serviceRegistered, Some(approvalId)), stops, now).Allow?
    ensures Open(g, c, stops, now)
  {
    OpenIsUnhindered(g, c, true, Some(approvalId), stops, now);
    ApprovedExactly(ContextOf(g, c, true, Some(approvalId)), stops, now);
  }

  // ----- Every proof of a run

  /** The call sends this proof for this challenge, on the Signer's answer to it, when the challenge may be paid. */
  predicate SentBy(g: Config, s: State, call: Call, b: Submission) {
    match call
    case PayCall(c, w) =>
      && b.idempotencyKey == c.idempotencyKey && Proves(c, w.signer) && ProofNames(b.proof, c, w.signer)
      && InScopeOf(g, c) && Payable(g, c, w.stops, w.now)
    case ResumeCall(key, approved, approvalId, w) =>
      && b.idempotencyKey == key && key in s.sessions && approved && approvalId.Some? && approvalId.value != ""
      && var c := s.sessions[key].challenge;
        && Proves(c, w.signer) && ProofNames(b.proof, c, w.signer)
        && InScopeOf(g, c) && Open(g, c, w.stops, w.now)
  }

  /** The session under the key waits for the Owner. */
  predicate Waits(s: State, key: string) {
    key in s.sessions && s.sessions[key].result.Some? && s.sessions[key].result.value.status.PendingApproval?
  }

  /** A session waits for the Owner only when its challenge is in scope. */
  ghost predicate PendingInScope(g: Config, s: State) {
    forall key :: Waits(s, key) ==> InScopeOf(g, s.sessions[key].challenge)
  }

  predicate PaysNow(s: State, c: Challenge, w: World) {
    && c.idempotencyKey !in s.sessions && w.paymentValid
    && ((c.challengeId, c.nonce) in s.challengeKeys ==> s.challengeKeys[(c.challengeId, c.nonce)] == c.idempotencyKey)
  }

  lemma ExecuteStores(s: State, session: Session, d: Decision, w: World)
    ensures var (t, o) := ExecuteAndRetry(s, session, d, w);
      && o.Success?
      && t.sessions == s.sessions[session.challenge.idempotencyKey :=
           session.(result := Some(o.value), sequence := session.sequence + 1)]
  {
  }

  /** The session ends with the answer, and no other session changes. */
  predicate StoresAnswer(s: State, t: State, o: Outcome, c: Challenge) {
    && o.Success? && c.idempotencyKey in t.sessions
    && t.sessions[c.idempotencyKey].challenge == c && t.sessions[c.idempotencyKey].result == Some(o.value)
    && t.sessions == s.sessions[c.idempotencyKey := t.sessions[c.idempotencyKey]]
  }

  lemma StartStores(g: Config, s: State, session: Session, w: World)
    ensures var (t, o) := Start(g, s, session, w);
      StoresAnswer(s, t, o, session.challenge)
  {
    ExecuteStores(s, session.(decision := Some(Allow)), Allow, w);
  }

  lemma PayStores(g: Config, s: State, c: Challenge, w: World)
    requires PaysNow(s, c, w)
    ensures var (t, o) := Pay(g, s, c, w);
      StoresAnswer(s, t, o, c)
  {
    var s1 := s.(challengeKeys := s.challengeKeys[(c.challengeId, c.nonce) := c.idempotencyKey]);
    var session := Session(c, None, None, 0);
    var s2 := s1.(sessions := s1.sessions[c.idempotencyKey := session]);
    StartStores(g, s2, session, w);
    assert Pay(g, s, c, w) == Start(g, s2, session, w);
  }

  lemma PayIdle(g: Config, s: State, c: Challenge, w: World)
    requires !PaysNow(s, c, w)
    ensures Pay(g, s, c, w).0.sessions == s.sessions && Pay(g, s, c, w).0.submissions == s.submissions
  {
  }

  lemma PaySent(g: Config, s: State, c: Challenge, w: World, b: Submission)
    requires b in Pay(g, s, c, w).0.submissions && b !in s.submissions
    ensures SentBy(g, s, PayCall(c, w), b)
  {
    if PaysNow(s, c, w) {
      PaysExactly(g, s, c, w);
      AllowsPayable(g, c, w.stops, w.now);
    } else {
      PayIdle(g, s, c, w);
    }
  }

  /** What any other challenge gets: its stored answer again, or a refusal that changes no session. */
  lemma OtherwiseExactly(g: Config, calls: seq<Call>, c: Challenge, w: World)
    requires !PaysNow(RunFrom(g, EMPTY, calls), c, w)
    ensures var s := RunFrom(g, EMPTY, calls);
      c.idempotencyKey in s.sessions ==> s.sessions[c.idempotencyKey].result.Some?
    ensures var s, nonce := RunFrom(g, EMPTY, calls), (c.challengeId, c.nonce);
      Pay(g, s, c, w) ==
        if c.idempotencyKey in s.sessions then
          (s, if s.sessions[c.idempotencyKey].challenge == c
              then Success(s.sessions[c.idempotencyKey].result.value.(replayed := true))
              else Failure(KeyBoundToAnotherChallenge))
        else if nonce in s.challengeKeys && s.challengeKeys[nonce] != c.idempotencyKey then (s, Failure(NonceReused))
        else (s.(challengeKeys := s.challengeKeys[nonce := c.idempotencyKey]), Failure(InvalidPayment))
  {
    RunKeeps(g, EMPTY, calls);
    var s := RunFrom(g, EMPTY, calls);
    if c.idempotencyKey in s.sessions {
      assert SessionOk(s, c.idempotencyKey);
    }
  }

  /** What the Owner's answer does to a waiting session. */
  lemma ResumesExactly(g: Config, s: State, key: string, approved: bool, approvalId: Option<string>, w: World)
    requires Waits(s, key) && s.sessions[key].challenge.idempotencyKey == key
    ensures var (t, o) := Resume(g, s, key, approved, approvalId, w);
      var c := s.sessions[key].challenge;
      if approved && approvalId in {None, Some("")} then (t, o) == (s, Failure(ApprovalIdMissing))
      else
        var allowed := approved
          && EvaluateContext(ContextOf(g, c, g.serviceRegistered, approvalId), w.stops, w.now).Allow?;
        && o.Success? && key in t.sessions && t.sessions[key].challenge == c && t.sessions[key].result == Some(o.value)
        && t.sessions == s.sessions[key := t.sessions[key]]
        && (if allowed then ExecutionFits(s.submissions, t.submissions, c, Allow, w, o.value)
            else
              && t.submissions == s.submissions && o.value.status.DeniedPayment? && o.value.proof.None?
              && o.value.attempts == s.sessions[key].result.value.attempts)
  {
    ExecutesExactly(s, s.sessions[key].(decision := Some(Allow)), Allow, w);
  }

  lemma ResumeIdle(g: Config, s: State, key: string, approved: bool, approvalId: Option<string>, w: World)
    requires !Waits(s, key)
    ensures Resume(g, s, key, approved, approvalId, w).0 == s
  {
  }

  lemma ResumeSent(g: Config, s: State, key: string, approved: bool, approvalId: Option<string>, w: World,
                   b: Submission)
    requires Inv(s) && PendingInScope(g, s)
    requires b in Resume(g, s, key, approved, approvalId, w).0.submissions && b !in s.submissions
    ensures SentBy(g, s, ResumeCall(key, approved, approvalId, w), b)
  {
    if Waits(s, key) {
      assert SessionOk(s, key);
      ResumesExactly(g, s, key, approved, approvalId, w);
      ApprovedIsOpen(g, s.sessions[key].challenge, approvalId.value, w.stops, w.now);
    } else {
      ResumeIdle(g, s, key, approved, approvalId, w);
    }
  }

  lemma SameElsewhere(s: State, t: State, key: string, other: string)
    requires key in t.sessions && t.sessions == s.sessions[key := t.sessions[key]] && other in t.sessions
      && other != key
    ensures other in s.sessions && s.sessions[other] == t.sessions[other]
  {
  }

  /** What one call does to the session under a key. */
  predicate SessionStep(g: Config, s: State, t: State, key: string, provider: ProviderReply)
    requires key in t.sessions
  {
    || (key in s.sessions && s.sessions[key] == t.sessions[key])
    || (t.sessions[key].result.Some?
        && var r := t.sessions[key].result.value;
          && (r.status.PendingApproval? ==> InScopeOf(g, t.sessions[key].challenge))
          && (r.status.Succeeded? ==> r.proof.Some? && ReceiptAgrees(r.proof.value, provider)))
  }

  lemma ExecutionStep(g: Config, before: seq<Submission>, after: seq<Submission>, c: Challenge, w: World,
                      r: PaymentResult)
    requires ExecutionFits(before, after, c, Allow, w, r)
    ensures !r.status.PendingApproval?
      && (r.status.Succeeded? ==> r.proof.Some? && ReceiptAgrees(r.proof.value, w.provider))
  {
  }

  lemma PaySession(g: Config, s: State, c: Challenge, w: World, key: string)
    requires key in Pay(g, s, c, w).0.sessions
    ensures SessionStep(g, s, Pay(g, s, c, w).0, key, w.provider)
  {
    var (t, o) := Pay(g, s, c, w);
    if !PaysNow(s, c, w) {
      PayIdle(g, s, c, w);
    } else {
      PayStores(g, s, c, w);
      if key != c.idempotencyKey {
        SameElsewhere(s, t, c.idempotencyKey, key);
      } else {
        PaysExactly(g, s, c, w);
      }
    }
  }

  lemma ResumeSession(g: Config, s: State, key: string, approved: bool, approvalId: Option<string>, w: World,
                      other: string)
    requires Inv(s) && other in Resume(g, s, key, approved, approvalId, w).0.sessions
    ensures SessionStep(g, s, Resume(g, s, key, approved, approvalId, w).0, other, w.provider)
  {
    var t := Resume(g, s, key, approved, approvalId, w).0;
    if Waits(s, key) {
      assert SessionOk(s, key);
      ResumesExactly(g, s, key, approved, approvalId, w);
      if other != key && t != s {
        SameElsewhere(s, t, key, other);
      }
    } else {
      ResumeIdle(g, s, key, approved, approvalId, w);
    }
  }

  lemma StepSession(g: Config, s: State, call: Call, key: string)
    requires Inv(s) && key in Step(g, s, call).0.sessions
    ensures SessionStep(g, s, Step(g, s, call).0, key, call.world.provider)
  {
    match call
    case PayCall(c, w) => PaySession(g, s, c, w, key);
    case ResumeCall(k, approved, approvalId, w) => ResumeSession(g, s, k, approved, approvalId, w, key);
  }

  lemma StepSent(g: Config, s: State, call: Call, b: Submission)
    requires Inv(s) && PendingInScope(g, s) && b in Step(g, s, call).0.submissions && b !in s.submissions
    ensures SentBy(g, s, call, b)
  {
    match call
    case PayCall(c, w) => PaySent(g, s, c, w, b);
    case ResumeCall(k, approved, approvalId, w) => ResumeSent(g, s, k, approved, approvalId, w, b);
  }

  lemma {:induction false} EveryRunInScope(g: Config, calls: seq<Call>)
    ensures PendingInScope(g, RunFrom(g, EMPTY, calls))
    decreases |calls|
  {
    if calls != [] {
      var s, last := RunFrom(g, EMPTY, calls[..|calls| - 1]), calls[|calls| - 1];
      EveryRunInScope(g, calls[..|calls| - 1]);
      RunKeeps(g, EMPTY, calls[..|calls| - 1]);
      forall key | Waits(Step(g, s, last).0, key)
        ensures InScopeOf(g, Step(g, s, last).0.sessions[key].challenge)
      {
        StepSession(g, s, last, key);
      }
    }
  }

  ghost predicate SentAt(g: Config, calls: seq<Call>, n: nat, b: Submission)
    requires n < |calls|
  {
    SentBy(g, RunFrom(g, EMPTY, calls[..n]), calls[n], b)
  }

  /**
   * Every proof of every run was sent in one of its calls, on a Signer answer about that very payment, when the
   * challenge was in scope, unexpired and not stopped, and within all limits unless the Owner had approved it.
   */
  lemma {:induction false} EveryProofIsPayable(g: Config, calls: seq<Call>, b: Submission)
    requires b in RunFrom(g, EMPTY, calls).submissions
    ensures exists n :: 0 <= n < |calls| && SentAt(g, calls, n, b)
    decreases |calls|
  {
    var before := calls[..|calls| - 1];
    if b in RunFrom(g, EMPTY, before).submissions {
      EveryProofIsPayable(g, before, b);
      var n :| 0 <= n < |before| && SentAt(g, before, n, b);
      assert before[..n] == calls[..n];
      assert SentAt(g, calls, n, b);
    } else {
      RunKeeps(g, EMPTY, before);
      EveryRunInScope(g, before);
      StepSent(g, RunFrom(g, EMPTY, before), calls[|calls| - 1], b);
      assert SentAt(g, calls, |calls| - 1, b);
    }
  }

  predicate Succeeds(s: State, key: string) {
    key in s.sessions && s.sessions[key].result.Some? && s.sessions[key].result.value.status.Succeeded?
  }

  /** Every SUCCEEDED payment of every run was confirmed in one of its calls by a receipt that agrees with its proof. */
  lemma {:induction false} EverySuccessIsConfirmed(g: Config, calls: seq<Call>, key: string)
    requires Succeeds(RunFrom(g, EMPTY, calls), key)
    ensures var r := RunFrom(g, EMPTY, calls).sessions[key].result.value;
      r.proof.Some? && exists n :: 0 <= n < |calls| && ReceiptAgrees(r.proof.value, calls[n].world.provider)
    decreases |calls|
  {
    var before, last := calls[..|calls| - 1], calls[|calls| - 1];
    var s, t := RunFrom(g, EMPTY, before), RunFrom(g, EMPTY, calls);
    RunKeeps(g, EMPTY, before);
    StepSession(g, s, last, key);
    if key in s.sessions && s.sessions[key] == t.sessions[key] {
      EverySuccessIsConfirmed(g, before, key);
      var n :| 0 <= n < |before| && ReceiptAgrees(t.sessions[key].result.value.proof.value, before[n].world.provider);
      assert calls[n] == before[n];
    } else {
      assert ReceiptAgrees(t.sessions[key].result.value.proof.value, calls[|calls| - 1].world.provider);
    }
  }
}
