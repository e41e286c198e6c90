/** Whole-run safety of the Signer: its ledgers agree, and nothing is submitted twice. */
module SignerSafety {
  import opened Results
  import opened SignerTypes
  import opened SignerSpec

  type NonceKey = (string, string)

  /**
   * The part of the state the safety argument needs: each stored result keeps only whether it succeeded, and for which
   * authorization.
   */
  datatype Core = Core(
    results: map<string, Option<string>>, reserved: set<string>, budgetConsumed: set<string>,
    authorized: set<string>, authorizationsConsumed: set<string>, nonces: set<NonceKey>, submissions: seq<Submission>)

  function Verdict(t: Stored): Option<string> {
    if Accepted(t.result.status) then Some(t.result.authorizationId) else None
  }

  function CoreOf(s: State): Core {
    Core(map k | k in s.results :: Verdict(s.results[k]), s.ledger.reservations.Keys, s.ledger.consumed,
         s.registry.authorizations.Keys, s.registry.consumed, s.nonces.Keys, s.submissions)
  }

  predicate Succeeded(c: Core, key: string) {
    key in c.results && c.results[key].Some?
  }

  function NonceOf(b: Submission): NonceKey {
    (b.walletId, b.nonce)
  }

  // ----- The invariant

  /** Reservations, consumed budget keys and successful results are one set of keys. */
  ghost predicate LedgersAgree(c: Core) {
    && c.budgetConsumed == c.reserved
    && forall k :: k in c.reserved <==> Succeeded(c, k)
  }

  /** Consumed authorizations are exactly those of successful results, one result each. */
  ghost predicate AuthorizationsAgree(c: Core) {
    && c.authorizationsConsumed <= c.authorized
    && (forall k :: Succeeded(c, k) ==> c.results[k].value in c.authorizationsConsumed)
    && (forall id :: id in c.authorizationsConsumed ==> exists k :: Succeeded(c, k) && c.results[k].value == id)
    && (forall k, l :: Succeeded(c, k) && Succeeded(c, l) && c.results[k] == c.results[l] ==> k == l)
  }

  ghost predicate SubmissionsDistinct(subs: seq<Submission>) {
    && (forall i, j :: 0 <= i < j < |subs| ==> subs[i].idempotencyKey != subs[j].idempotencyKey)
    && (forall i, j :: 0 <= i < j < |subs| ==> NonceOf(subs[i]) != NonceOf(subs[j]))
    && (forall i, j :: 0 <= i < j < |subs| && subs[i].accepted && subs[j].accepted ==>
          subs[i].authorizationId != subs[j].authorizationId)
  }

  /** A submission has a stored result, a used nonce, and is accepted just when its result succeeded. */
  ghost predicate SubmissionsRecorded(c: Core) {
    forall b :: b in c.submissions ==>
      && b.idempotencyKey in c.results
      && NonceOf(b) in c.nonces
      && c.results[b.idempotencyKey] == if b.accepted then Some(b.authorizationId) else None
  }

  /** Each success went through the transport. */
  ghost predicate SuccessesSubmitted(c: Core) {
    forall k :: Succeeded(c, k) ==> exists b :: b in c.submissions && b.idempotencyKey == k
  }

  ghost predicate Inv(c: Core) {
    && LedgersAgree(c) && AuthorizationsAgree(c)
    && SubmissionsDistinct(c.submissions) && SubmissionsRecorded(c) && SuccessesSubmitted(c)
  }

  // ----- The four ways a fresh key can end

  function Refused(c: Core, key: string): Core {
    c.(results := c.results[key := None])
  }

  function Unsent(c: Core, key: string, n: NonceKey): Core {
    Refused(c, key).(nonces := c.nonces + {n})
  }

  function Bounced(c: Core, b: Submission): Core {
    Unsent(c, b.idempotencyKey, NonceOf(b)).(submissions := c.submissions + [b])
  }

  function Settled(c: Core, b: Submission): Core {
    Core(c.results[b.idempotencyKey := Some(b.authorizationId)], c.reserved + {b.idempotencyKey},
         c.budgetConsumed + {b.idempotencyKey}, c.authorized, c.authorizationsConsumed + {b.authorizationId},
         c.nonces + {NonceOf(b)}, c.submissions + [b])
  }

  /** States with the same successes, ledgers and submissions are equally good. */
  lemma SameSuccessesKeep(c: Core, d: Core)
    requires Inv(c)
    requires d.reserved == c.reserved && d.budgetConsumed == c.budgetConsumed
      && d.authorizationsConsumed == c.authorizationsConsumed
    requires d.submissions == c.submissions && c.nonces <= d.nonces && c.authorized <= d.authorized
    requires forall k :: k in c.results ==> k in d.results && d.results[k] == c.results[k]
    requires forall k :: k in d.results && k !in c.results ==> d.results[k].None?
    ensures Inv(d)
  {
    SuccessesEqual(c, d);
    assert LedgersAgree(d);
    assert AuthorizationsAgree(d) by {
      forall id | id in d.authorizationsConsumed
        ensures exists k :: Succeeded(d, k) && d.results[k].value == id
      {
        var k :| Succeeded(c, k) && c.results[k].value == id;
        assert Succeeded(d, k);
      }
    }
  }

  lemma SuccessesEqual(c: Core, d: Core)
    requires forall k :: k in c.results ==> k in d.results && d.results[k] == c.results[k]
    requires forall k :: k in d.results && k !in c.results ==> d.results[k].None?
    ensures forall k :: Succeeded(c, k) <==> Succeeded(d, k)
  {
  }

  lemma UnsentKeeps(c: Core, key: string, nonces: set<NonceKey>)
    requires Inv(c) && key !in c.results && c.nonces <= nonces
    ensures Inv(Refused(c, key).(nonces := nonces))
  {
    SameSuccessesKeep(c, Refused(c, key).(nonces := nonces));
  }

  lemma AppendDistinct(subs: seq<Submission>, b: Submission)
    requires SubmissionsDistinct(subs)
    requires forall a :: a in subs ==> a.idempotencyKey != b.idempotencyKey && NonceOf(a) != NonceOf(b)
    requires forall a :: a in subs && a.accepted && b.accepted ==> a.authorizationId != b.authorizationId
    ensures SubmissionsDistinct(subs + [b])
  {
    assert forall i :: 0 <= i < |subs| ==> subs[i] in subs;
  }

  lemma BouncedKeeps(c: Core, b: Submission)
    requires Inv(c) && b.idempotencyKey !in c.results && NonceOf(b) !in c.nonces && !b.accepted
    ensures Inv(Bounced(c, b))
  {
    var d := Unsent(c, b.idempotencyKey, NonceOf(b));
    UnsentKeeps(c, b.idempotencyKey, d.nonces);
    AppendDistinct(c.submissions, b);
    var e := Bounced(c, b);
    assert forall k :: Succeeded(e, k) <==> Succeeded(d, k);
    assert AuthorizationsAgree(e) by {
      forall id | id in e.authorizationsConsumed
        ensures exists k :: Succeeded(e, k) && e.results[k].value == id
      {
        var k :| Succeeded(d, k) && d.results[k].value == id;
        assert Succeeded(e, k);
      }
    }
    forall k | Succeeded(e, k)
      ensures exists a :: a in e.submissions && a.idempotencyKey == k
    {
      var a :| a in d.submissions && a.idempotencyKey == k;
      assert a in e.submissions;
    }
  }

  lemma SettledKeeps(c: Core, b: Submission)
    requires Inv(c) && b.idempotencyKey !in c.results && NonceOf(b) !in c.nonces && b.accepted
    requires b.authorizationId in c.authorized && b.authorizationId !in c.authorizationsConsumed
    ensures Inv(Settled(c, b))
  {
    var e := Settled(c, b);
    var key := b.idempotencyKey;
    assert Succeeded(e, key);
    assert forall k :: k != key ==> (Succeeded(e, k) <==> Succeeded(c, k));
    assert AuthorizationsAgree(e) by {
      forall id | id in e.authorizationsConsumed
        ensures exists k :: Succeeded(e, k) && e.results[k].value == id
      {
        if id == b.authorizationId {
          assert e.results[key].value == id;
        } else {
          var k :| Succeeded(c, k) && c.results[k].value == id;
          assert Succeeded(e, k) && e.results[k].value == id;
        }
      }
    }
    assert SubmissionsDistinct(e.submissions) by {
      forall a | a in c.submissions && a.accepted
        ensures a.authorizationId != b.authorizationId
      {
        assert Succeeded(c, a.idempotencyKey);
      }
      AppendDistinct(c.submissions, b);
    }
    assert SuccessesSubmitted(e) by {
      assert b in e.submissions;
      forall k | Succeeded(c, k)
        ensures exists a :: a in e.submissions && a.idempotencyKey == k
      {
        var a :| a in c.submissions && a.idempotencyKey == k;
        assert a in e.submissions;
      }
    }
  }

  // ----- Each call is one of them

  lemma FailCore(s: State, q: Request, status: RequestStatus, code: string, hash: Digest, w: World)
    requires !Accepted(status)
    ensures CoreOf(Fail(s, q, status, code, hash, w).0) == Refused(CoreOf(s), q.idempotencyKey)
  {
  }

  lemma FailReleasedCore(s: State, q: Request, code: string, hash: Digest, w: World)
    ensures CoreOf(FailReleased(s, q, code, hash, w).0)
         == Refused(CoreOf(s), q.idempotencyKey).(reserved := s.ledger.reservations.Keys - {q.idempotencyKey})
  {
    FailCore(s.(ledger := Release(s.ledger, q.idempotencyKey)), q, Failed, code, hash, w);
  }

  lemma AdmitCore(s: State, q: Request, a: Authorization, w: World)
    requires Admit(s, q, a, w).Success? && q.idempotencyKey !in s.ledger.reservations
    ensures CoreOf(Admit(s, q, a, w).value)
         == CoreOf(s).(reserved := s.ledger.reservations.Keys + {q.idempotencyKey},
                       nonces := s.nonces.Keys + {(q.walletId, q.nonce)})
    ensures a.id == q.authorizationId && a.id in s.registry.authorizations
    ensures a.id !in s.registry.revoked && a.id !in s.registry.consumed
    ensures Admit(s, q, a, w).value.registry == s.registry
    ensures Admit(s, q, a, w).value.results == s.results
  {
  }

  lemma CompleteCore(s: State, q: Request, a: Authorization, w: World, hash: Digest)
    requires w.reply.Reply? && Accepted(w.reply.status) && q.idempotencyKey in s.ledger.reservations
    requires a.id in s.registry.authorizations && a.id !in s.registry.revoked
    ensures CoreOf(Complete(s, q, a, w, hash).0)
         == CoreOf(s).(results := CoreOf(s).results[q.idempotencyKey := Some(a.id)],
                       budgetConsumed := s.ledger.consumed + {q.idempotencyKey},
                       authorizationsConsumed := s.registry.consumed + {a.id})
  {
  }

  predicate Fresh(s: State, q: Request) {
    q.idempotencyKey !in s.results && (q.walletId, q.nonce) !in s.nonces
  }

  /** Once admitted, a fresh request ends unsent, bounced or settled. */
  lemma PerformCore(s: State, s1: State, q: Request, a: Authorization, w: World)
    requires Fresh(s, q) && q.idempotencyKey !in s.ledger.reservations
    requires CoreOf(s1) == CoreOf(s).(reserved := s.ledger.reservations.Keys + {q.idempotencyKey},
                                      nonces := s.nonces.Keys + {(q.walletId, q.nonce)})
    requires a.id in s1.registry.authorizations && a.id !in s1.registry.revoked && a.id !in s.registry.consumed
    requires s.ledger.consumed == s.ledger.reservations.Keys
    ensures var c, d := CoreOf(s), CoreOf(Perform(s1, q, a, w).0);
      || d == Unsent(c, q.idempotencyKey, (q.walletId, q.nonce))
      || exists b: Submission ::
           && b.idempotencyKey == q.idempotencyKey && NonceOf(b) == (q.walletId, q.nonce) && b.authorizationId == a.id
           && ((!b.accepted && d == Bounced(c, b)) || (b.accepted && d == Settled(c, b)))
  {
    var c := CoreOf(s);
    assert s1.ledger.reservations.Keys - {q.idempotencyKey} == c.reserved;
    var r := Perform(s1, q, a, w).0;
    if Prepare(q, w).None? || SignedPayload(Prepare(q, w).value, w).None? {
      FailReleasedCore(s1, q, "SIGNER_FAILURE", Digest(q), w);
      assert CoreOf(r) == Unsent(c, q.idempotencyKey, (q.walletId, q.nonce));
    } else {
      var prepared := Prepare(q, w).value;
      var b := SubmissionOf(q, a, SignedPayload(prepared, w).value, w);
      var s2 := s1.(submissions := s1.submissions + [b]);
      if w.reply.TransportRaised? {
        FailReleasedCore(s2, q, "SIGNER_FAILURE", Digest(q), w);
        assert !b.accepted && CoreOf(r) == Bounced(c, b);
      } else if !Accepted(w.reply.status) {
        FailReleasedCore(s2, q, ReplyCode(w), Digest(prepared), w);
        assert !b.accepted && CoreOf(r) == Bounced(c, b);
      } else {
        CompleteCore(s2, q, a, w, Digest(prepared));
        assert CoreOf(r).budgetConsumed == Settled(c, b).budgetConsumed;
        assert b.accepted && CoreOf(r) == Settled(c, b);
      }
    }
  }

  lemma PerformKeeps(s: State, s1: State, q: Request, a: Authorization, w: World)
    requires Inv(CoreOf(s)) && Fresh(s, q)
    requires CoreOf(s1) == CoreOf(s).(reserved := s.ledger.reservations.Keys + {q.idempotencyKey},
                                      nonces := s.nonces.Keys + {(q.walletId, q.nonce)})
    requires a.id in s1.registry.authorizations && a.id !in s1.registry.revoked && a.id !in s.registry.consumed
    ensures Inv(CoreOf(Perform(s1, q, a, w).0))
  {
    var c, d := CoreOf(s), CoreOf(Perform(s1, q, a, w).0);
    assert q.idempotencyKey !in c.results && q.idempotencyKey !in c.reserved;
    PerformCore(s, s1, q, a, w);
    if d == Unsent(c, q.idempotencyKey, (q.walletId, q.nonce)) {
      UnsentKeeps(c, q.idempotencyKey, c.nonces + {(q.walletId, q.nonce)});
    } else {
      var b: Submission :|
        && b.idempotencyKey == q.idempotencyKey && NonceOf(b) == (q.walletId, q.nonce) && b.authorizationId == a.id
        && ((!b.accepted && d == Bounced(c, b)) || (b.accepted && d == Settled(c, b)));
      if b.accepted {
        SettledKeeps(c, b);
      } else {
        BouncedKeeps(c, b);
      }
    }
  }

  lemma ExecuteKeeps(s: State, q: Request, a: Authorization, w: World)
    requires Inv(CoreOf(s))
    ensures Inv(CoreOf(Execute(s, q, a, w).0))
  {
    if Fresh(s, q) {
      var s1 := s.(audit := s.audit + [RequestReceived(q.requestId)]);
      assert CoreOf(s1) == CoreOf(s);
      match Admit(s1, q, a, w)
      case Failure(reason) =>
        var status := StatusOf(reason);
        var code := if status.Stopped? then "STOPPED" else "REJECTED";
        FailCore(s1, q, status, code, Digest(q), w);
        UnsentKeeps(CoreOf(s), q.idempotencyKey, s.nonces.Keys);
        assert CoreOf(Execute(s, q, a, w).0) == Refused(CoreOf(s), q.idempotencyKey);
      case Success(s2) =>
        assert !Succeeded(CoreOf(s), q.idempotencyKey);
        AdmitCore(s1, q, a, w);
        PerformKeeps(s, s2, q, a, w);
    }
  }

  /** Registering and revoking touch neither results nor submissions. */
  lemma RegistryChangeKeeps(c: Core, authorized: set<string>)
    requires Inv(c) && c.authorized <= authorized
    ensures Inv(c.(authorized := authorized))
  {
    SameSuccessesKeep(c, c.(authorized := authorized));
  }

  lemma StepKeeps(s: State, call: Call)
    requires Inv(CoreOf(s))
    ensures Inv(CoreOf(Step(s, call)))
  {
    match call
    case RegisterCall(a) =>
      RegistryChangeKeeps(CoreOf(s), s.registry.authorizations.Keys + {a.id});
      assert Register(s.registry, a).Success? ==>
        CoreOf(Step(s, call)) == CoreOf(s).(authorized := s.registry.authorizations.Keys + {a.id});
    case RevokeCall(id) =>
      assert CoreOf(Step(s, call)) == CoreOf(s);
    case ExecuteCall(q, a, w) =>
      if Register(s.registry, a).Success? {
        RegistryChangeKeeps(CoreOf(s), s.registry.authorizations.Keys + {a.id});
        var s1 := RegisterIn(s, a).value;
        assert CoreOf(s1) == CoreOf(s).(authorized := s.registry.authorizations.Keys + {a.id});
        ExecuteKeeps(s1, q, a, w);
      }
  }

  /**
   * In every reachable state the ledgers agree and all transport submissions differ in key, in nonce and, when
   * accepted, in authorization.
   */
  lemma {:induction false} EveryRunKeeps(calls: seq<Call>)
    ensures Inv(CoreOf(Run(calls)))
    decreases |calls|
  {
    if calls != [] {
      EveryRunKeeps(calls[..|calls| - 1]);
      StepKeeps(Run(calls[..|calls| - 1]), calls[|calls| - 1]);
    }
  }
}
