/** What submissions, results and receipts say about the request behind them, in the request's own fields. */
module SignerEvidence {
  import opened Results
  import opened Networks
  import opened Base58
  import opened SolanaWire
  import opened SignerTypes
  import opened SignerSpec
  import opened SignerSafety
  import opened SignerReplay

  // ----- The payload

  /** The bytes are a transfer of the request's amount between the request's own accounts, paid for by its wallet. */
  predicate Transfers(message: Bytes, q: Request) {
    var read := ReadMessage(message);
    && |message| == 180 && read.Some?
    && var m := read.value;
      && m.header == [1, 0, 1] && |m.keys| == 4 && |m.instructions| == 1
      && DecodeText(q.walletPublicKey) == Success(m.keys[0])
      && q.sourceTokenAccount.Some? && DecodeText(q.sourceTokenAccount.value) == Success(m.keys[1])
      && q.recipientTokenAccount.Some? && DecodeText(q.recipientTokenAccount.value) == Success(m.keys[2])
      && DecodeText(q.programId) == Success(m.keys[3])
      && q.recentBlockhash.Some? && DecodeText(q.recentBlockhash.value) == Success(m.blockhash)
      && Moves(m.instructions[0], q.amountUnits)
  }

  /** Instruction 3 of the program at index 3: from account 1 to account 2, signed by account 0. */
  predicate Moves(i: Instruction, amount: nat) {
    i.program == 3 && i.accounts == [1, 2, 0]
    && |i.data| == 9 && i.data[0] == 3 && FromLittleEndian(i.data[1..]) == amount
  }

  /** A LOCAL payload is the request itself, a devnet one a transfer. */
  predicate Carries(payload: Payload, q: Request) {
    match q.network
    case Local => payload == LocalPayload(q)
    case SolanaDevnet => payload.DevnetPayload? && Transfers(payload.message, q)
  }

  lemma EmptyDoesNotDecode()
    ensures Key("").Failure?
  {
  }

  lemma BuiltTransfers(q: Request)
    requires BuildMessage(TransferOf(q)).Success?
    ensures Transfers(BuildMessage(TransferOf(q)).value, q)
  {
    MessageReadsBack(TransferOf(q));
    BuiltFromKeys(TransferOf(q));
    EmptyDoesNotDecode();
  }

  lemma SignedCarries(q: Request, w: World)
    requires SignedPayload(q, w).Some?
    ensures Carries(SignedPayload(q, w).value, q)
  {
    if q.network.SolanaDevnet? {
      BuiltTransfers(q);
    }
  }

  // ----- Admission

  predicate WalletFits(w: Wallet, q: Request) {
    && w.status.ActiveWallet? && w.agentId == q.agentId && w.network == q.network && w.cluster == q.cluster
    && w.publicKey == q.walletPublicKey && w.rotationVersion == q.walletRotationVersion
  }

  /** The stop controls that concern a request. */
  function ControlsOf(q: Request): set<(string, string)> {
    {("GLOBAL", "*"), ("SIGNER", "*"), ("MPP", "*"), ("PAYMENT", q.paymentId), ("AGENT", q.agentId), ("RUN", q.runId)}
  }

  predicate FitsSignerLimits(q: Request) {
    && q.amountUnits <= q.perPaymentLimit
    && q.taskSpent + q.amountUnits <= q.perTaskLimit
    && q.dailySpent + q.amountUnits <= q.dailyLimit
  }

  /**
   * The outside world lets the request through: its wallet is the registered one and nothing concerning it is stopped.
   */
  predicate WorldAllows(q: Request, w: World) {
    w.wallet.Some? && WalletFits(w.wallet.value, q) && w.stops !! ControlsOf(q)
  }

  lemma StopsConcern(q: Request, stops: set<(string, string)>)
    ensures StopActive(stops, q) <==> !(stops !! ControlsOf(q))
  {
    if !(stops !! ControlsOf(q)) {
      var pair :| pair in stops && pair in ControlsOf(q);
    }
  }

  /**
   * Under a fresh key exactly the requests are admitted that come with a usable authorization of their own, a fitting
   * wallet, no stop control in force and an amount within the three limits.
   */
  lemma AdmitsExactly(s: State, q: Request, a: Authorization, w: World)
    requires q.idempotencyKey !in s.ledger.reservations
    ensures Admit(s, q, a, w).Success? <==> Authorized(s, q, a, w.now) && WorldAllows(q, w) && FitsSignerLimits(q)
  {
    StopsConcern(q, w.stops);
  }

  // ----- Every submission

  /** What a submission owes to the call that makes it. */
  predicate Justified(c: Call, b: Submission)
    requires c.ExecuteCall?
  {
    var q, w := c.request, c.world;
    && WorldAllows(q, w) && FitsSignerLimits(q) && w.keyReadable
    && (b.accepted <==> w.reply.Reply? && (w.reply.status.Submitted? || w.reply.status.Confirmed?))
    && Carries(b.payload, Completed(q, w))
  }

  /** The request as it is signed: a devnet request without a blockhash takes the one the transport gave. */
  function Completed(q: Request, w: World): Request {
    if q.network.SolanaDevnet? && q.recentBlockhash.None? && w.blockhash.Blockhash? then
      q.(recentBlockhash := w.blockhash.value)
    else q
  }

  lemma PreparedIsCompleted(q: Request, w: World)
    requires Prepare(q, w).Some?
    ensures Prepare(q, w).value == Completed(q, w)
  {
  }

  lemma PerformJustifies(s: State, q: Request, a: Authorization, w: World, b: Submission)
    requires b in Perform(s, q, a, w).0.submissions && b !in s.submissions
    ensures Prepare(q, w).Some? && SignedPayload(Prepare(q, w).value, w).Some?
    ensures b == SubmissionOf(q, a, SignedPayload(Prepare(q, w).value, w).value, w)
  {
  }

  lemma StepJustifies(s: State, c: Call, b: Submission)
    requires b in Step(s, c).submissions && b !in s.submissions
    requires c.ExecuteCall? ==> c.request.idempotencyKey in s.ledger.reservations ==>
      c.request.idempotencyKey in s.results
    ensures SubmitsUnder(s, c, b) && Justified(c, b)
  {
    StepSubmits(s, c);
    var q, a, w := c.request, c.authorization, c.world;
    var s0 := RegisterIn(s, a).value;
    var s1 := s0.(audit := s0.audit + [RequestReceived(q.requestId)]);
    AdmitsExactly(s1, q, a, w);
    PerformJustifies(Admit(s1, q, a, w).value, q, a, w, b);
    PreparedIsCompleted(q, w);
    SignedCarries(Prepare(q, w).value, w);
  }

  ghost predicate JustifiedAt(calls: seq<Call>, j: nat, b: Submission)
    requires j < |calls|
  {
    SubmittedAt(calls, j, b) && Justified(calls[j], b)
  }

  lemma LastCallJustifies(calls: seq<Call>, b: Submission)
    requires calls != [] && b in Run(calls).submissions && b !in Run(calls[..|calls| - 1]).submissions
    ensures JustifiedAt(calls, |calls| - 1, b)
  {
    var n := |calls| - 1;
    var s := Run(calls[..n]);
    if calls[n].ExecuteCall? && calls[n].request.idempotencyKey !in s.results {
      FreshReservesNew(calls[..n], calls[n].request);
    }
    StepJustifies(s, calls[n], b);
  }

  lemma EarlierJustified(calls: seq<Call>, n: nat, j: nat, b: Submission)
    requires j < n <= |calls| && JustifiedAt(calls[..n], j, b)
    ensures JustifiedAt(calls, j, b)
  {
    assert calls[..n][..j] == calls[..j];
  }

  /**
   * Every submission of every run was made by one of its calls: under an authorization usable at that point, from a
   * fitting active wallet, with no stop control in force and within the limits, and it carries that call's request.
   */
  lemma {:induction false} EverySubmissionIsJustified(calls: seq<Call>, b: Submission)
    requires b in Run(calls).submissions
    ensures exists j :: 0 <= j < |calls| && JustifiedAt(calls, j, b)
    decreases |calls|
  {
    var n := |calls| - 1;
    if b in Run(calls[..n]).submissions {
      EverySubmissionIsJustified(calls[..n], b);
      var j :| 0 <= j < n && JustifiedAt(calls[..n], j, b);
      EarlierJustified(calls, n, j, b);
    } else {
      LastCallJustifies(calls, b);
    }
  }

  // ----- Results

  /** The record of a result names its request, field by field. */
  predicate Names(o: Outcome, q: Request, w: World)
    requires o.Returned?
  {
    var r, t := o.result, o.receipt;
    && r.requestId == t.requestId == q.requestId && r.paymentId == t.paymentId == q.paymentId
    && r.authorizationId == t.authorizationId == q.authorizationId
    && r.network == t.network == q.network && r.cluster == t.cluster == q.cluster
    && t.challengeId == q.challengeId && t.taskId == q.taskId && t.runId == q.runId && t.traceId == q.traceId
    && t.correlationId == q.correlationId && t.token == q.token && t.amountUnits == q.amountUnits
    && t.receiptId == r.receiptId && t.resultId == r.resultId && t.status == r.status
    && t.requestHash == r.requestHash && t.externalSignature == r.externalSignature
    && r.createdAt == t.createdAt == w.now && r.completedAt == w.completed
  }

  /** The transport is reached: the key is readable and a devnet transfer can be built with its blockhash. */
  predicate Reaches(q: Request, w: World) {
    && w.keyReadable
    && (q.network.SolanaDevnet? ==> Builds(Completed(q, w)))
  }

  /** Five texts that decode to 32 bytes each, and an amount of at most eight bytes. */
  predicate Builds(q: Request) {
    && q.sourceTokenAccount.Some? && q.recipientTokenAccount.Some? && q.recentBlockhash.Some?
    && DecodeKey(q.walletPublicKey).Success? && DecodeKey(q.sourceTokenAccount.value).Success?
    && DecodeKey(q.recipientTokenAccount.value).Success? && DecodeKey(q.programId).Success?
    && DecodeKey(q.recentBlockhash.value).Success? && q.amountUnits < 0x1_0000_0000_0000_0000
  }

  lemma BuildsExactly(q: Request)
    ensures BuildMessage(TransferOf(q)).Success? <==> Builds(q)
  {
    EmptyDoesNotDecode();
  }

  lemma ReachesExactly(q: Request, w: World)
    ensures Reaches(q, w) <==> Prepare(q, w).Some? && SignedPayload(Prepare(q, w).value, w).Some?
  {
    BuildsExactly(Completed(q, w));
    EmptyDoesNotDecode();
  }

  predicate TransportAccepts(w: World) {
    w.reply.Reply? && (w.reply.status.Submitted? || w.reply.status.Confirmed?)
  }

  predicate Fails(o: Outcome, q: Request, w: World, code: string) {
    && o.Returned? && Names(o, q, w)
    && o.result.status.Failed? && o.result.externalSignature.None? && o.result.failureCode == Some(code)
  }

  /** The transport's own code when it answered with one, and otherwise where the failure was. */
  function CodeOf(q: Request, w: World): string {
    if !Reaches(q, w) || w.reply.TransportRaised? then "SIGNER_FAILURE"
    else if w.reply.failureCode.None? || |w.reply.failureCode.value| == 0 then "TRANSPORT_FAILURE"
    else w.reply.failureCode.value
  }

  predicate Passes(o: Outcome, q: Request, w: World, hash: Digest)
    requires w.reply.Reply?
  {
    && o.Returned? && Names(o, q, w)
    && o.result.status == w.reply.status && o.result.externalSignature == w.reply.signature
    && o.result.failureCode.None? && o.result.requestHash == hash
  }

  lemma ReleasedFails(s: State, q: Request, code: string, hash: Digest, w: World)
    ensures Fails(FailReleased(s, q, code, hash, w).1, q, w, code)
  {
  }

  lemma CompletePasses(s: State, q: Request, a: Authorization, w: World, hash: Digest)
    requires w.reply.Reply? && q.idempotencyKey in s.ledger.reservations && a.id in s.registry.authorizations
    requires a.id !in s.registry.revoked && a.id == q.authorizationId
    ensures Passes(Complete(s, q, a, w, hash).1, q, w, hash)
  {
  }

  /** An admitted request is answered with the transport's acceptance, or FAILED. */
  lemma PerformAnswers(s: State, q: Request, a: Authorization, w: World)
    requires q.idempotencyKey in s.ledger.reservations && a.id in s.registry.authorizations
    requires a.id !in s.registry.revoked && a.id == q.authorizationId
    ensures var o := Perform(s, q, a, w).1;
      if Reaches(q, w) && TransportAccepts(w) then Passes(o, q, w, Digest(Completed(q, w)))
        else Fails(o, q, w, CodeOf(q, w))
  {
    ReachesExactly(q, w);
    if !Reaches(q, w) {
      ReleasedFails(s, q, "SIGNER_FAILURE", Digest(q), w);
    } else {
      PreparedIsCompleted(q, w);
      var prepared := Prepare(q, w).value;
      var s1 := s.(submissions := s.submissions + [SubmissionOf(q, a, SignedPayload(prepared, w).value, w)]);
      if w.reply.TransportRaised? {
        ReleasedFails(s1, q, "SIGNER_FAILURE", Digest(q), w);
      } else if !Accepted(w.reply.status) {
        ReleasedFails(s1, q, ReplyCode(w), Digest(prepared), w);
      } else {
        CompletePasses(s1, q, a, w, Digest(prepared));
      }
    }
  }

  /** Everything about the authorization and the wallet is in order. */
  predicate Entitled(s: State, q: Request, a: Authorization, w: World) {
    Authorized(s, q, a, w.now) && w.wallet.Some? && WalletFits(w.wallet.value, q)
  }

  /** The authorization is the caller's own and unused, and time is what it fails by. */
  predicate TooLate(s: State, q: Request, a: Authorization, now: int) {
    && a.id in s.registry.authorizations && s.registry.authorizations[a.id] == a
    && a.id !in s.registry.revoked && a.id !in s.registry.consumed
    && (|| a.status.ExpiredAuthorization?
        || (a.status.Issued?
            && (|| a.expiresAt <= now
                || (q.expiresAt <= now && q.authorizationId == a.id && q.authorizationHash == a.hash
                    && q.paymentId == a.paymentId && q.policyDecisionId == a.policyDecisionId
                    && q.policyVersion == a.policyVersion))))
  }

  lemma RefusalStatus(s: State, q: Request, a: Authorization, w: World)
    requires q.idempotencyKey !in s.ledger.reservations && Admit(s, q, a, w).Failure?
    ensures var status := StatusOf(Admit(s, q, a, w).error);
      && (status.Stopped? <==> Entitled(s, q, a, w) && !(w.stops !! ControlsOf(q)))
      && (status.Expired? <==> TooLate(s, q, a, w.now))
      && (status.Stopped? || status.Expired? || status.Rejected?)
  {
    StopsConcern(q, w.stops);
  }

  /**
   * SUBMITTED or CONFIRMED exactly when the request is admitted, signed and accepted by the transport, FAILED exactly
   * when it is admitted and not, STOPPED exactly when a stop control alone keeps an entitled request back, EXPIRED
   * exactly when its authorization fails by time, and REJECTED otherwise.
   */
  predicate AnswerFits(s: State, q: Request, a: Authorization, w: World, o: Outcome) {
    var admitted := Authorized(s, q, a, w.now) && WorldAllows(q, w) && FitsSignerLimits(q);
    var passed := admitted && Reaches(q, w) && TransportAccepts(w);
    && o.Returned? && Names(o, q, w)
    && (passed ==> Passes(o, q, w, Digest(Completed(q, w))))
    && (o.result.status.Submitted? || o.result.status.Confirmed? <==> passed)
    && (o.result.status.Failed? <==> admitted && !passed)
    && (o.result.status.Stopped? <==> Entitled(s, q, a, w) && !(w.stops !! ControlsOf(q)))
    && (o.result.status.Expired? <==> TooLate(s, q, a, w.now))
    && (o.result.status.Rejected? <==>
          && !admitted && !TooLate(s, q, a, w.now)
          && !(Entitled(s, q, a, w) && !(w.stops !! ControlsOf(q))))
    && (admitted && !passed ==> Fails(o, q, w, CodeOf(q, w)))
    && (!admitted ==> o.result.failureCode == Some(if o.result.status.Stopped? then "STOPPED" else "REJECTED"))
  }

  /** After any calls, this is what a fresh request gets. */
  lemma AnswersExactly(calls: seq<Call>, q: Request, a: Authorization, w: World)
    requires RegisterIn(Run(calls), a).Success? && Fresh(Run(calls), q)
    ensures AnswerFits(RegisterIn(Run(calls), a).value, q, a, w, GatewayExecute(Run(calls), q, a, w).1)
  {
    FreshReservesNew(calls, q);
    ExecuteAnswers(RegisterIn(Run(calls), a).value, q, a, w);
  }

  lemma ExecuteAnswers(s: State, q: Request, a: Authorization, w: World)
    requires Fresh(s, q) && q.idempotencyKey !in s.ledger.reservations
    ensures AnswerFits(s, q, a, w, Execute(s, q, a, w).1)
  {
    var s1 := s.(audit := s.audit + [RequestReceived(q.requestId)]);
    AdmitsExactly(s1, q, a, w);
    if Admit(s1, q, a, w).Success? {
      PerformAnswers(Admit(s1, q, a, w).value, q, a, w);
    } else {
      RefusalStatus(s1, q, a, w);
    }
  }

  // ----- Payloads behind stored results

  /** An accepted submission carries the request whose hash is stored with the result under its key. */
  predicate PayloadStored(s: State, b: Submission) {
    b.accepted ==>
      b.idempotencyKey in s.results && Carries(b.payload, s.results[b.idempotencyKey].result.requestHash.payload)
  }

  ghost predicate PayloadsStored(s: State) {
    forall b :: b in s.submissions ==> PayloadStored(s, b)
  }

  lemma NewPayloadStored(s: State, c: Call, b: Submission)
    requires Inv(CoreOf(s)) && b in Step(s, c).submissions && b !in s.submissions
    ensures PayloadStored(Step(s, c), b)
  {
    StepSubmits(s, c);
    var q, a, w := c.request, c.authorization, c.world;
    var s0 := RegisterIn(s, a).value;
    assert q.idempotencyKey !in s.results ==> !Succeeded(CoreOf(s), q.idempotencyKey);
    StepJustifies(s, c, b);
    if b.accepted {
      var s1 := s0.(audit := s0.audit + [RequestReceived(q.requestId)]);
      AdmitsExactly(s1, q, a, w);
      AdmitCore(s1, q, a, w);
      PerformJustifies(Admit(s1, q, a, w).value, q, a, w, b);
      PerformAnswers(Admit(s1, q, a, w).value, q, a, w);
      PerformExtends(Admit(s1, q, a, w).value, q, a, w);
      ReachesExactly(q, w);
    }
  }

  lemma {:induction false} EveryPayloadStored(calls: seq<Call>)
    ensures PayloadsStored(Run(calls))
    decreases |calls|
  {
    if calls != [] {
      var before := Run(calls[..|calls| - 1]);
      EveryPayloadStored(calls[..|calls| - 1]);
      EveryRunKeeps(calls[..|calls| - 1]);
      PayloadsKeep(before, calls[|calls| - 1]);
    }
  }

  lemma PayloadsKeep(s: State, c: Call)
    requires PayloadsStored(s) && Inv(CoreOf(s))
    ensures PayloadsStored(Step(s, c))
  {
    StepExtends(s, c);
    forall b | b in Step(s, c).submissions
      ensures PayloadStored(Step(s, c), b)
    {
      if b !in s.submissions {
        NewPayloadStored(s, c, b);
      }
    }
  }

  // ----- Fresh identifiers

  /** The identifiers of a stored result. */
  predicate IdsBelow(t: Stored, n: nat) {
    t.result.resultId < n && t.result.receiptId < n && t.receipt.receiptId < n
      && t.result.resultId != t.result.receiptId
  }

  /** Results and receipts of different keys have different identifiers, all from the supply. */
  ghost predicate IdsFresh(s: State) {
    && (forall k :: k in s.results ==> IdsBelow(s.results[k], s.nextId))
    && (forall j, k :: j in s.results && k in s.results && j != k ==>
          {s.results[j].result.resultId, s.results[j].result.receiptId}
          !! {s.results[k].result.resultId, s.results[k].result.receiptId})
  }

  /** A step stores at most one result, with two numbers the supply had not given out. */
  predicate StoresFresh(s: State, t: State, key: string) {
    || (t.results == s.results && t.nextId >= s.nextId)
    || (key !in s.results && key in t.results && t.results == s.results[key := t.results[key]]
        && IdsBelow(t.results[key], t.nextId)
        && t.results[key].result.resultId >= s.nextId && t.results[key].result.receiptId >= s.nextId)
  }

  lemma ReleasedStores(s: State, q: Request, code: string, hash: Digest, w: World)
    requires q.idempotencyKey !in s.results
    ensures StoresFresh(s, FailReleased(s, q, code, hash, w).0, q.idempotencyKey)
  {
  }

  lemma CompleteStores(s: State, q: Request, a: Authorization, w: World, hash: Digest)
    requires q.idempotencyKey !in s.results && w.reply.Reply?
    ensures StoresFresh(s, Complete(s, q, a, w, hash).0, q.idempotencyKey)
  {
  }

  lemma PerformStores(s: State, q: Request, a: Authorization, w: World)
    requires q.idempotencyKey !in s.results
    ensures StoresFresh(s, Perform(s, q, a, w).0, q.idempotencyKey)
  {
    if Prepare(q, w).None? || SignedPayload(Prepare(q, w).value, w).None? {
      ReleasedStores(s, q, "SIGNER_FAILURE", Digest(q), w);
    } else {
      var prepared := Prepare(q, w).value;
      var s1 := s.(submissions := s.submissions + [SubmissionOf(q, a, SignedPayload(prepared, w).value, w)]);
      if w.reply.TransportRaised? {
        ReleasedStores(s1, q, "SIGNER_FAILURE", Digest(q), w);
      } else if !Accepted(w.reply.status) {
        ReleasedStores(s1, q, ReplyCode(w), Digest(prepared), w);
      } else {
        CompleteStores(s1, q, a, w, Digest(prepared));
      }
    }
  }

  lemma AdmitSupplies(s: State, q: Request, a: Authorization, w: World)
    requires Admit(s, q, a, w).Success?
    ensures Admit(s, q, a, w).value.nextId >= s.nextId && Admit(s, q, a, w).value.results == s.results
  {
  }

  lemma ExecuteStores(s: State, q: Request, a: Authorization, w: World)
    ensures StoresFresh(s, Execute(s, q, a, w).0, q.idempotencyKey)
  {
    if Fresh(s, q) {
      var s1 := s.(audit := s.audit + [RequestReceived(q.requestId)]);
      if Admit(s1, q, a, w).Success? {
        AdmitSupplies(s1, q, a, w);
        PerformStores(Admit(s1, q, a, w).value, q, a, w);
      }
    }
  }

  lemma FreshKeeps(s: State, t: State, key: string)
    requires IdsFresh(s) && StoresFresh(s, t, key)
    ensures IdsFresh(t)
  {
  }

  /** After any run no two results or receipts share an identifier. */
  lemma {:induction false} EveryIdFresh(calls: seq<Call>)
    ensures IdsFresh(Run(calls))
    decreases |calls|
  {
    if calls != [] {
      var s, c := Run(calls[..|calls| - 1]), calls[|calls| - 1];
      EveryIdFresh(calls[..|calls| - 1]);
      if c.ExecuteCall? && RegisterIn(s, c.authorization).Success? {
        ExecuteStores(RegisterIn(s, c.authorization).value, c.request, c.authorization, c.world);
        FreshKeeps(s, Run(calls), c.request.idempotencyKey);
      }
    }
  }

  // ----- The registry and the ledger by themselves

  /** A known authorization is revoked, whatever became of it, and an unknown one is refused. */
  lemma RevokesExactly(s: State, id: string)
    ensures Step(s, RevokeCall(id)) ==
      if id in s.registry.authorizations then s.(registry := s.registry.(revoked := s.registry.revoked + {id})) else s
  {
  }

  /** An identifier is bound once. */
  lemma RegistersExactly(s: State, a: Authorization)
    ensures RegisterIn(s, a).Success? <==> (a.id in s.registry.authorizations ==> s.registry.authorizations[a.id] == a)
    ensures RegisterIn(s, a).Success? ==>
      RegisterIn(s, a).value == s.(registry := s.registry.(authorizations := s.registry.authorizations[a.id := a]))
  {
  }

  /** Budget and authorization are used up by one success, if they are there and, the latter, not revoked. */
  lemma ConsumesExactly(r: Registry, l: Ledger, id: string, key: string)
    ensures ConsumeAuthorization(r, id) ==
      if id in r.authorizations - r.revoked then Some(r.(consumed := r.consumed + {id})) else None
    ensures ConsumeReservation(l, key) ==
      if key in l.reservations.Keys then Some(l.(consumed := l.consumed + {key})) else None
  {
  }

  /** The ledger reserves a fresh key within the limits; a used key only repeats the same request. */
  lemma ReservesExactly(l: Ledger, q: Request, id: nat)
    ensures SignerTypes.Reserve(l, q, id).Success? <==>
      if q.idempotencyKey in l.reservations then
        l.reservations[q.idempotencyKey].requestHash.payload == q
        && l.reservations[q.idempotencyKey].amountUnits == q.amountUnits
      else FitsSignerLimits(q)
    ensures SignerTypes.Reserve(l, q, id).Success? ==>
      SignerTypes.Reserve(l, q, id).value ==
        if q.idempotencyKey in l.reservations then (l, false)
        else (l.(reservations := l.reservations[q.idempotencyKey := Reservation(Digest(q), q.amountUnits, id)]), true)
  {
  }
}
