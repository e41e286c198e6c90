/**
 * What a stored Signer result is worth later: it never changes, its submission was authorized, and re-executing its
 * request replays it.
 */
module SignerReplay {
  import opened Results
  import opened Networks
  import opened Base58
  import opened SolanaWire
  import opened SignerTypes
  import opened SignerSpec
  import opened SignerSafety

  function RunFrom(s: State, calls: seq<Call>): State {
    if calls == [] then s else Step(RunFrom(s, calls[..|calls| - 1]), calls[|calls| - 1])
  }

  // ----- Persistence

  /** Results and registered authorizations are write-once, and revocations and submissions only accumulate. */
  ghost predicate Extends(s: State, t: State) {
    && (forall k :: k in s.results ==> k in t.results && t.results[k] == s.results[k])
    && (forall id :: id in s.registry.authorizations ==>
          id in t.registry.authorizations && t.registry.authorizations[id] == s.registry.authorizations[id])
    && s.registry.revoked <= t.registry.revoked
    && s.registry.consumed <= t.registry.consumed
    && s.submissions <= t.submissions
    && s.audit <= t.audit
  }

  lemma FailReleasedExtends(s: State, q: Request, code: string, hash: Digest, w: World)
    requires q.idempotencyKey !in s.results
    ensures Extends(s, FailReleased(s, q, code, hash, w).0)
    ensures StoresOutcome(FailReleased(s, q, code, hash, w), q, hash)
  {
  }

  lemma CompleteExtends(s: State, q: Request, a: Authorization, w: World, hash: Digest)
    requires q.idempotencyKey !in s.results && w.reply.Reply?
    ensures Extends(s, Complete(s, q, a, w, hash).0)
    ensures
      q.idempotencyKey in s.ledger.reservations && a.id in s.registry.authorizations && a.id !in s.registry.revoked ==>
        StoresOutcome(Complete(s, q, a, w, hash), q, hash)
  {
    if q.idempotencyKey !in s.ledger.reservations {
      FailReleasedExtends(s, q, "SIGNER_FAILURE", Digest(q), w);
    } else if ConsumeAuthorization(s.registry, a.id).None? {
      var s1 := s.(ledger := ConsumeReservation(s.ledger, q.idempotencyKey).value);
      FailReleasedExtends(s1, q, "SIGNER_FAILURE", Digest(q), w);
    }
  }

  /** The outcome is returned and stored under the request's key with the given hash. */
  predicate StoresOutcome(r: (State, Outcome), q: Request, hash: Digest) {
    && r.1.Returned?
    && q.idempotencyKey in r.0.results
    && r.0.results[q.idempotencyKey] == Stored(hash, r.1.result, r.1.receipt)
  }

  lemma PerformExtends(s: State, q: Request, a: Authorization, w: World)
    requires q.idempotencyKey !in s.results
    ensures Extends(s, Perform(s, q, a, w).0)
    ensures
      q.idempotencyKey in s.ledger.reservations && a.id in s.registry.authorizations && a.id !in s.registry.revoked ==>
        StoresOutcome(Perform(s, q, a, w), q, if TransportAnswers(q, w) then Digest(Prepare(q, w).value) else Digest(q))
  {
    if Prepare(q, w).None? || SignedPayload(Prepare(q, w).value, w).None? {
      FailReleasedExtends(s, q, "SIGNER_FAILURE", Digest(q), w);
    } else {
      var prepared := Prepare(q, w).value;
      var s1 := s.(submissions := s.submissions + [SubmissionOf(q, a, SignedPayload(prepared, w).value, w)]);
      assert Extends(s, s1);
      if w.reply.TransportRaised? {
        FailReleasedExtends(s1, q, "SIGNER_FAILURE", Digest(q), w);
      } else if !Accepted(w.reply.status) {
        FailReleasedExtends(s1, q, ReplyCode(w), Digest(prepared), w);
      } else {
        CompleteExtends(s1, q, a, w, Digest(prepared));
      }
      ExtendsTransitive(s, s1, Perform(s, q, a, w).0);
    }
  }

  lemma ExecuteExtends(s: State, q: Request, a: Authorization, w: World)
    ensures Extends(s, Execute(s, q, a, w).0)
  {
    if Fresh(s, q) {
      var s1 := s.(audit := s.audit + [RequestReceived(q.requestId)]);
      match Admit(s1, q, a, w)
      case Failure(reason) =>
      case Success(s2) =>
        PerformExtends(s2, q, a, w);
        assert s2.audit == s1.audit && s2.submissions == s.submissions;
    }
  }

  lemma StepExtends(s: State, c: Call)
    ensures Extends(s, Step(s, c))
  {
    if c.ExecuteCall? && RegisterIn(s, c.authorization).Success? {
      ExecuteExtends(RegisterIn(s, c.authorization).value, c.request, c.authorization, c.world);
    }
  }

  lemma ExtendsTransitive(s: State, t: State, u: State)
    requires Extends(s, t) && Extends(t, u)
    ensures Extends(s, u)
  {
  }

  lemma {:induction false} RunExtends(s: State, calls: seq<Call>)
    ensures Extends(s, RunFrom(s, calls))
    decreases |calls|
  {
    if calls != [] {
      RunExtends(s, calls[..|calls| - 1]);
      StepExtends(RunFrom(s, calls[..|calls| - 1]), calls[|calls| - 1]);
      ExtendsTransitive(s, RunFrom(s, calls[..|calls| - 1]), RunFrom(s, calls));
    }
  }

  // ----- Authorization of every submission

  /** What holds of an authorization at the moment its submission is made. */
  predicate Authorized(s: State, q: Request, a: Authorization, now: int) {
    && a.id in s.registry.authorizations && s.registry.authorizations[a.id] == a
    && a.id !in s.registry.revoked && a.id !in s.registry.consumed
    && a.status.Issued? && now < a.expiresAt && now < q.expiresAt
    && q.authorizationId == a.id && q.authorizationHash == a.hash
    && q.paymentId == a.paymentId && q.policyDecisionId == a.policyDecisionId && q.policyVersion == a.policyVersion
  }

  predicate MadeBy(b: Submission, q: Request, a: Authorization) {
    && b.idempotencyKey == q.idempotencyKey && b.walletId == q.walletId && b.nonce == q.nonce
    && b.authorizationId == a.id
  }

  /** The call makes the submission under an authorization usable in the state it starts from. */
  predicate SubmitsUnder(s: State, c: Call, b: Submission) {
    && c.ExecuteCall? && RegisterIn(s, c.authorization).Success?
    && MadeBy(b, c.request, c.authorization)
    && Authorized(RegisterIn(s, c.authorization).value, c.request, c.authorization, c.world.now)
  }

  lemma AdmittedAuthorized(s: State, q: Request, a: Authorization, w: World)
    requires Admit(s, q, a, w).Success?
    ensures Authorized(s, q, a, w.now) && Admit(s, q, a, w).value.submissions == s.submissions
  {
  }

  lemma PerformSubmits(s: State, q: Request, a: Authorization, w: World)
    ensures var t := Perform(s, q, a, w).0;
      || t.submissions == s.submissions
      || exists b :: t.submissions == s.submissions + [b] && MadeBy(b, q, a)
  {
    if Prepare(q, w).Some? && SignedPayload(Prepare(q, w).value, w).Some? {
      var b := SubmissionOf(q, a, SignedPayload(Prepare(q, w).value, w).value, w);
      assert Perform(s, q, a, w).0.submissions == s.submissions + [b] && MadeBy(b, q, a);
    }
  }

  /** One call submits at most once, and then under a usable authorization of the state it started from. */
  lemma StepSubmits(s: State, c: Call)
    ensures |Step(s, c).submissions| <= |s.submissions| + 1
    ensures forall b :: b in Step(s, c).submissions ==> b in s.submissions || SubmitsUnder(s, c, b)
  {
    if c.ExecuteCall? && RegisterIn(s, c.authorization).Success? {
      var s0 := RegisterIn(s, c.authorization).value;
      if Fresh(s0, c.request) {
        var s1 := s0.(audit := s0.audit + [RequestReceived(c.request.requestId)]);
        if Admit(s1, c.request, c.authorization, c.world).Success? {
          AdmittedAuthorized(s1, c.request, c.authorization, c.world);
          PerformSubmits(Admit(s1, c.request, c.authorization, c.world).value, c.request, c.authorization, c.world);
        }
      }
    }
  }

  ghost predicate SubmittedAt(calls: seq<Call>, j: nat, b: Submission)
    requires j < |calls|
  {
    SubmitsUnder(Run(calls[..j]), calls[j], b)
  }

  /** Every submission of every run was made by one of its calls, under an authorization usable at that point. */
  lemma {:induction false} EverySubmissionWasAuthorized(calls: seq<Call>)
    ensures forall b :: b in Run(calls).submissions ==> exists j :: 0 <= j < |calls| && SubmittedAt(calls, j, b)
    decreases |calls|
  {
    if calls != [] {
      var n := |calls| - 1;
      EverySubmissionWasAuthorized(calls[..n]);
      StepSubmits(Run(calls[..n]), calls[n]);
      forall b | b in Run(calls).submissions
        ensures exists j :: 0 <= j < |calls| && SubmittedAt(calls, j, b)
      {
        if b in Run(calls[..n]).submissions {
          EarlierSubmission(calls, n, b);
        } else {
          assert SubmittedAt(calls, n, b);
        }
      }
    }
  }

  lemma EarlierSubmission(calls: seq<Call>, n: nat, b: Submission)
    requires n <= |calls| && exists j :: 0 <= j < n && SubmittedAt(calls[..n], j, b)
    ensures exists j :: 0 <= j < n && SubmittedAt(calls, j, b)
  {
    var j :| 0 <= j < n && SubmittedAt(calls[..n], j, b);
    assert calls[..n][..j] == calls[..j];
    assert SubmittedAt(calls, j, b);
  }

  // ----- Replay

  /** The stored hash is that of the prepared request: a blockhash was fetched and the transport answered. */
  predicate StoresPreparedHash(s: State, q: Request, a: Authorization, w: World) {
    && NeedsBlockhash(q)
    && RegisterIn(s, a).Success?
    && Admit(RegisterIn(s, a).value, q, a, w).Success?
    && TransportAnswers(q, w)
  }

  lemma StoredHash(s: State, q: Request, a: Authorization, w: World) returns (hash: Digest)
    requires Fresh(s, q) && GatewayExecute(s, q, a, w).1.Returned?
    requires q.idempotencyKey !in s.ledger.reservations
    ensures var (t, o) := GatewayExecute(s, q, a, w);
      && StoresOutcome((t, o), q, hash)
      && (hash == Digest(q) <==> !StoresPreparedHash(s, q, a, w))
      && a.id in t.registry.authorizations && t.registry.authorizations[a.id] == a
  {
    var s0 := RegisterIn(s, a).value;
    var s1 := s0.(audit := s0.audit + [RequestReceived(q.requestId)]);
    hash := Digest(q);
    ExecuteExtends(s0, q, a, w);
    AuditDoesNotDecide(s0, q, a, w, s1.audit);
    match Admit(s1, q, a, w)
    case Failure(reason) =>
    case Success(s2) =>
      AdmitCore(s1, q, a, w);
      assert s2.registry == s0.registry && q.idempotencyKey in s2.ledger.reservations;
      PerformExtends(s2, q, a, w);
      hash := if TransportAnswers(q, w) then Digest(Prepare(q, w).value) else Digest(q);
      assert Prepare(q, w).Some? ==> (Digest(Prepare(q, w).value) == Digest(q) <==> !NeedsBlockhash(q));
  }

  lemma AuditDoesNotDecide(s: State, q: Request, a: Authorization, w: World, audit: seq<AuditEntry>)
    ensures Admit(s.(audit := audit), q, a, w).Success? <==> Admit(s, q, a, w).Success?
  {
  }

  lemma ReplayFrom(s: State, q: Request, a: Authorization, w: World, more: seq<Call>, later: World)
    requires Fresh(s, q) && GatewayExecute(s, q, a, w).1.Returned?
    requires q.idempotencyKey !in s.ledger.reservations
    ensures var (t, o) := GatewayExecute(s, q, a, w);
      var u := RunFrom(t, more);
      GatewayExecute(u, q, a, later) == if StoresPreparedHash(s, q, a, w) then (u, Raised(KeyReused)) else (u, o)
  {
    var (t, o) := GatewayExecute(s, q, a, w);
    var u := RunFrom(t, more);
    var _ := StoredHash(s, q, a, w);
    RunExtends(t, more);
    assert RegisterIn(u, a) == Success(u) by {
      assert u.registry.authorizations[a.id := a] == u.registry.authorizations;
    }
  }

  /**
   * Re-executing an executed request, after any further calls and whatever the world answers then, changes nothing;
   * it returns the first result and receipt exactly when the stored hash is still the request's own.
   */
  lemma ReplayExactly(calls: seq<Call>, q: Request, a: Authorization, w: World, more: seq<Call>, later: World)
    requires Fresh(Run(calls), q) && GatewayExecute(Run(calls), q, a, w).1.Returned?
    ensures var (t, o) := GatewayExecute(Run(calls), q, a, w);
      var u := RunFrom(t, more);
      GatewayExecute(u, q, a, later)
        == if StoresPreparedHash(Run(calls), q, a, w) then (u, Raised(KeyReused)) else (u, o)
  {
    FreshReservesNew(calls, q);
    ReplayFrom(Run(calls), q, a, w, more, later);
  }

  /**
   * A request without a stored result never meets a reservation of its key: the ledger's repeat branch is not reached.
   */
  lemma FreshReservesNew(calls: seq<Call>, q: Request)
    requires q.idempotencyKey !in Run(calls).results
    ensures q.idempotencyKey !in Run(calls).ledger.reservations && q.idempotencyKey !in Run(calls).ledger.consumed
  {
    EveryRunKeeps(calls);
    assert !Succeeded(CoreOf(Run(calls)), q.idempotencyKey);
  }

  /** LOCAL requests, and devnet requests that bring their blockhash, always replay. */
  lemma WithoutFetchedBlockhashReplays(calls: seq<Call>, q: Request, a: Authorization, w: World, more: seq<Call>,
                                       later: World)
    requires !NeedsBlockhash(q)
    requires Fresh(Run(calls), q) && GatewayExecute(Run(calls), q, a, w).1.Returned?
    ensures var (t, o) := GatewayExecute(Run(calls), q, a, w);
      GatewayExecute(RunFrom(t, more), q, a, later) == (RunFrom(t, more), o)
  {
    ReplayExactly(calls, q, a, w, more, later);
  }

  // ----- A devnet request that does not replay

  function ZeroBytes(): seq<Byte> {
    seq(32, _ => 0)
  }

  function ZeroKey(): string {
    EncodeText(ZeroBytes())
  }

  /** A request under any program identifier, authorization hash and policy version. */
  function SampleRequest(program: string, hash: string, version: string): Request {
    Request("r", "a", hash, "d", version, "p", "c", "k", "n", "t", "run", "tr", "co", "agent", "wallet", ZeroKey(), 1,
            SolanaDevnet, "DEVNET", program, "SPL_TEST_X", Some(ZeroKey()), Some(ZeroKey()), None, 1, 10, 1, 1, 1, 0, 0)
  }

  function SampleAuthorization(hash: string, version: string): Authorization {
    Authorization("a", "p", "d", version, None, hash, "engine", 0, 10, Issued)
  }

  function SampleWorld(): World {
    World(0, 0, Some(Wallet("wallet", "agent", SolanaDevnet, "DEVNET", ZeroKey(), 1, ActiveWallet)), {}, true,
          Blockhash(Some(ZeroKey())), Reply(Confirmed, Some("sig"), None))
  }

  lemma ZeroKeyDecodes()
    ensures ZeroKey() != "" && DecodeKey(ZeroKey()) == Success(ZeroBytes())
  {
    DecodeAfterEncode(ZeroBytes());
  }

  lemma ZeroTransferBuilds(program: string, t: Transfer)
    requires DecodeKey(program).Success?
    requires t == Transfer(ZeroKey(), Some(ZeroKey()), Some(ZeroKey()), program, Some(ZeroKey()), 1)
    ensures BuildMessage(t).Success?
  {
    ZeroKeyDecodes();
  }

  /** A devnet request that fetches its blockhash is signed and answered when its completed transfer can be built. */
  lemma FetchedIsSigned(q: Request, w: World, blockhash: string)
    requires NeedsBlockhash(q) && w.blockhash == Blockhash(Some(blockhash)) && blockhash != ""
    requires w.keyReadable && w.reply.Reply?
    requires BuildMessage(TransferOf(q.(recentBlockhash := Some(blockhash)))).Success?
    ensures TransportAnswers(q, w)
  {
  }

  lemma SampleIsSigned(program: string, hash: string, version: string)
    requires DecodeKey(program).Success?
    ensures TransportAnswers(SampleRequest(program, hash, version), SampleWorld())
  {
    ZeroKeyDecodes();
    var q := SampleRequest(program, hash, version);
    ZeroTransferBuilds(program, TransferOf(q.(recentBlockhash := Some(ZeroKey()))));
    FetchedIsSigned(q, SampleWorld(), ZeroKey());
  }

  lemma SampleIsAdmitted(program: string, hash: string, version: string)
    ensures var q, a := SampleRequest(program, hash, version), SampleAuthorization(hash, version);
      RegisterIn(INITIAL, a).Success? && Admit(RegisterIn(INITIAL, a).value, q, a, SampleWorld()).Success?
  {
    var q, a := SampleRequest(program, hash, version), SampleAuthorization(hash, version);
    var s := RegisterIn(INITIAL, a).value;
    assert Unusable(s.registry, a, q, 0).None?;
    assert WalletMismatch(SampleWorld().wallet.value, q).None?;
  }

  /**
   * Whatever program key, authorization hash and policy version it carries, a devnet request confirmed with a fetched
   * blockhash raises when it is executed again.
   */
  lemma DevnetReplayRaises(program: string, hash: string, version: string)
    requires DecodeKey(program).Success?
    ensures var q, a := SampleRequest(program, hash, version), SampleAuthorization(hash, version);
      var (t, o) := GatewayExecute(INITIAL, q, a, SampleWorld());
      && o.Returned?
      && GatewayExecute(t, q, a, SampleWorld()) == (t, Raised(KeyReused))
  {
    var q, a, w := SampleRequest(program, hash, version), SampleAuthorization(hash, version), SampleWorld();
    SampleIsSigned(program, hash, version);
    SampleIsAdmitted(program, hash, version);
    assert Fresh(INITIAL, q) && StoresPreparedHash(INITIAL, q, a, w);
    ExecuteReturns(RegisterIn(INITIAL, a).value, q, a, w);
    assert RunFrom(GatewayExecute(INITIAL, q, a, w).0, []) == GatewayExecute(INITIAL, q, a, w).0;
    ReplayFrom(INITIAL, q, a, w, [], w);
  }

  /** A fresh request always gets a result. */
  lemma ExecuteReturns(s: State, q: Request, a: Authorization, w: World)
    requires Fresh(s, q)
    ensures Execute(s, q, a, w).1.Returned?
  {
  }
}
