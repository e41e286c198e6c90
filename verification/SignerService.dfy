/** The Signer's objects, updated in place, against the functions of SignerTypes and SignerSpec. */
module SignerService {
  import opened Results
  import opened SignerTypes
  import opened SignerSpec
  import Ledgers = SignerTypes

  class SignerAuthorizationRegistry {
    var authorizations: map<string, Authorization>
    var revoked: set<string>
    var consumed: set<string>

    function Contents(): Registry
      reads this
    {
      Registry(authorizations, revoked, consumed)
    }

    constructor ()
      ensures Contents() == Registry(map[], {}, {})
    {
      authorizations, revoked, consumed := map[], {}, {};
    }

    method Register(a: Authorization) returns (error: Option<CallError>)
      modifies this
      ensures match Ledgers.Register(old(Contents()), a)
              case Success(r) => error.None? && Contents() == r
              case Failure(e) => error == Some(e) && Contents() == old(Contents())
    {
      if a.id in authorizations && authorizations[a.id] != a {
        return Some(AuthorizationConflict);
      }
      authorizations := authorizations[a.id := a];
      return None;
    }

    method Revoke(id: string) returns (error: Option<CallError>)
      modifies this
      ensures match Ledgers.Revoke(old(Contents()), id)
              case Success(r) => error.None? && Contents() == r
              case Failure(e) => error == Some(e) && Contents() == old(Contents())
    {
      if id !in authorizations {
        return Some(AuthorizationUnknown);
      }
      revoked := revoked + {id};
      return None;
    }

    method Consume(id: string) returns (ok: bool)
      modifies this
      ensures match ConsumeAuthorization(old(Contents()), id)
              case Some(r) => ok && Contents() == r
              case None => !ok && Contents() == old(Contents())
    {
      if id in revoked || id !in authorizations {
        return false;
      }
      consumed := consumed + {id};
      return true;
    }
  }

  class SignerBudgetLedger {
    var reservations: map<string, Reservation>
    var consumed: set<string>

    function Contents(): Ledger
      reads this
    {
      Ledger(reservations, consumed)
    }

    constructor ()
      ensures Contents() == Ledger(map[], {})
    {
      reservations, consumed := map[], {};
    }

    method Reserve(q: Request, reservationId: nat) returns (r: Result<bool, Reject>)
      modifies this
      ensures match Ledgers.Reserve(old(Contents()), q, reservationId)
              case Success((l, added)) => r == Success(added) && Contents() == l
              case Failure(e) => r == Failure(e) && Contents() == old(Contents())
    {
      if q.idempotencyKey in reservations {
        var existing := reservations[q.idempotencyKey];
        if existing.requestHash != Digest(q) || existing.amountUnits != q.amountUnits {
          return Failure(KeyBoundToAnotherRequest);
        }
        return Success(false);
      }
      if q.amountUnits > q.perPaymentLimit {
        return Failure(OverPaymentLimit);
      }
      if q.amountUnits + q.taskSpent > q.perTaskLimit {
        return Failure(OverTaskLimit);
      }
      if q.amountUnits + q.dailySpent > q.dailyLimit {
        return Failure(OverDailyLimit);
      }
      reservations := reservations[q.idempotencyKey := Reservation(Digest(q), q.amountUnits, reservationId)];
      return Success(true);
    }

    method Release(key: string)
      modifies this
      ensures Contents() == Ledgers.Release(old(Contents()), key)
    {
      reservations := reservations - {key};
    }

    method Consume(key: string) returns (ok: bool)
      modifies this
      ensures match ConsumeReservation(old(Contents()), key)
              case Some(l) => ok && Contents() == l
              case None => !ok && Contents() == old(Contents())
    {
      if key !in reservations {
        return false;
      }
      consumed := consumed + {key};
      return true;
    }
  }

  class Signer {
    const registry: SignerAuthorizationRegistry
    const ledger: SignerBudgetLedger
    var results: map<string, Stored>
    var requestNonces: map<(string, string), Digest>
    var auditLog: seq<AuditEntry>
    var submissions: seq<Submission>
    var nextId: nat

    function Contents(): State
      reads this, registry, ledger
    {
      State(registry.Contents(), ledger.Contents(), results, requestNonces, auditLog, submissions, nextId)
    }

    constructor ()
      ensures fresh(registry) && fresh(ledger)
      ensures Contents() == INITIAL
    {
      registry := new SignerAuthorizationRegistry();
      ledger := new SignerBudgetLedger();
      results, requestNonces, auditLog, submissions, nextId := map[], map[], [], [], 0;
    }

    method FreshId() returns (id: nat)
      modifies this`nextId
      ensures id == old(nextId) && nextId == id + 1
    {
      id := nextId;
      nextId := nextId + 1;
    }

    method StoreResult(q: Request, result: SignerResult, now: int) returns (o: Outcome)
      requires nextId == result.receiptId + 1 == result.resultId + 2
      modifies this
      ensures (Contents(), o) == Record(old(Contents()).(nextId := result.resultId), q, result, now)
    {
      var receipt := ReceiptOf(q, result, now);
      results := results[q.idempotencyKey := Stored(result.requestHash, result, receipt)];
      auditLog := auditLog + [ResultRecorded(result.resultId, Accepted(result.status))];
      return Returned(result, receipt);
    }

    method FailureResult(q: Request, status: RequestStatus, code: string, hash: Digest, w: World) returns (o: Outcome)
      modifies this
      ensures (Contents(), o) == Fail(old(Contents()), q, status, code, hash, w)
    {
      var resultId := FreshId();
      var receiptId := FreshId();
      var result := SignerResult(resultId, q.requestId, q.authorizationId, q.paymentId, hash, status, q.network,
                                 q.cluster, receiptId, None, Some(code), w.now, w.completed);
      o := StoreResult(q, result, w.now);
    }

    method ReleaseAndFail(q: Request, code: string, hash: Digest, w: World) returns (o: Outcome)
      modifies this, ledger
      ensures (Contents(), o) == FailReleased(old(Contents()), q, code, hash, w)
    {
      ledger.Release(q.idempotencyKey);
      o := FailureResult(q, Failed, code, hash, w);
    }

    /** The first guarded block of the source: the reason a request is turned away, if any. */
    method AdmitRequest(q: Request, a: Authorization, w: World) returns (reason: Option<Reject>)
      modifies this, ledger
      ensures match Admit(old(Contents()), q, a, w)
              case Success(s) => reason.None? && Contents() == s
              case Failure(e) => reason == Some(e) && Contents() == old(Contents())
    {
      reason := Unusable(registry.Contents(), a, q, w.now);
      if reason.Some? {
        return;
      }
      if w.wallet.None? {
        return Some(WalletNotRegistered);
      }
      reason := WalletMismatch(w.wallet.value, q);
      if reason.Some? {
        return;
      }
      if StopActive(w.stops, q) {
        return Some(StopControlActive);
      }
      if q.expiresAt <= w.now {
        return Some(RequestHasExpired);
      }
      var reserved := ledger.Reserve(q, nextId);
      if reserved.Failure? {
        return Some(reserved.error);
      }
      if reserved.value {
        nextId := nextId + 1;
      }
      requestNonces := requestNonces[(q.walletId, q.nonce) := Digest(q)];
      return None;
    }

    method CompleteSubmission(q: Request, a: Authorization, w: World, hash: Digest) returns (o: Outcome)
      requires w.reply.Reply?
      modifies this, ledger, registry
      ensures (Contents(), o) == Complete(old(Contents()), q, a, w, hash)
    {
      var budgetConsumed := ledger.Consume(q.idempotencyKey);
      if !budgetConsumed {
        o := ReleaseAndFail(q, "SIGNER_FAILURE", Digest(q), w);
        return;
      }
      var authorizationConsumed := registry.Consume(a.id);
      if !authorizationConsumed {
        o := ReleaseAndFail(q, "SIGNER_FAILURE", Digest(q), w);
        return;
      }
      var resultId := FreshId();
      var receiptId := FreshId();
      var result := SignerResult(resultId, q.requestId, a.id, q.paymentId, hash, w.reply.status, q.network, q.cluster,
                                 receiptId, w.reply.signature, None, w.now, w.completed);
      o := StoreResult(q, result, w.now);
    }

    /** The second guarded block: prepare, sign, submit, and settle or release. */
    method SignAndSubmit(q: Request, a: Authorization, w: World) returns (o: Outcome)
      modifies this, ledger, registry
      ensures (Contents(), o) == Perform(old(Contents()), q, a, w)
    {
      var prepared := Prepare(q, w);
      if prepared.None? {
        o := ReleaseAndFail(q, "SIGNER_FAILURE", Digest(q), w);
        return;
      }
      var payload := SignedPayload(prepared.value, w);
      if payload.None? {
        o := ReleaseAndFail(q, "SIGNER_FAILURE", Digest(q), w);
        return;
      }
      submissions := submissions + [SubmissionOf(q, a, payload.value, w)];
      if w.reply.TransportRaised? {
        o := ReleaseAndFail(q, "SIGNER_FAILURE", Digest(q), w);
      } else if !Accepted(w.reply.status) {
        o := ReleaseAndFail(q, ReplyCode(w), Digest(prepared.value), w);
      } else {
        o := CompleteSubmission(q, a, w, Digest(prepared.value));
      }
    }

    method ExecuteFromPolicy(q: Request, a: Authorization, w: World) returns (o: Outcome)
      modifies this, ledger, registry
      ensures (Contents(), o) == Execute(old(Contents()), q, a, w)
    {
      if q.idempotencyKey in results {
        var stored := results[q.idempotencyKey];
        if stored.requestHash != Digest(q) {
          return Raised(KeyReused);
        }
        return Returned(stored.result, stored.receipt);
      }
      if (q.walletId, q.nonce) in requestNonces {
        return Raised(NonceReused);
      }
      auditLog := auditLog + [RequestReceived(q.requestId)];
      var reason := AdmitRequest(q, a, w);
      if reason.Some? {
        var status := StatusOf(reason.value);
        o := FailureResult(q, status, if status.Stopped? then "STOPPED" else "REJECTED", Digest(q), w);
        return;
      }
      o := SignAndSubmit(q, a, w);
    }
  }

  lemma Grows(history: seq<Call>, c: Call)
    ensures Run(history + [c]) == Step(Run(history), c)
  {
    assert (history + [c])[..|history + [c]| - 1] == history;
  }

  /** The gateway is the only caller of ExecuteFromPolicy. */
  class PolicyBoundSignerGateway {
    const signer: Signer
    ghost var history: seq<Call>

    /** The Signer is in the state the calls so far lead to. */
    ghost predicate Reached()
      reads this, signer, signer.ledger, signer.registry
    {
      signer.Contents() == Run(history)
    }

    /** `earlier` are the calls the Signer has already served; there are none for a new one. */
    constructor (signer: Signer, ghost earlier: seq<Call>)
      requires signer.Contents() == Run(earlier)
      ensures this.signer == signer && Reached() && history == earlier
    {
      this.signer := signer;
      history := earlier;
    }

    method Execute(q: Request, a: Authorization, w: World) returns (o: Outcome)
      requires Reached()
      modifies this, signer, signer.ledger, signer.registry
      ensures Reached() && history == old(history) + [ExecuteCall(q, a, w)]
      ensures (signer.Contents(), o) == GatewayExecute(old(signer.Contents()), q, a, w)
    {
      Grows(history, ExecuteCall(q, a, w));
      o := RegisterAndExecute(q, a, w);
      history := history + [ExecuteCall(q, a, w)];
    }

    method RegisterAndExecute(q: Request, a: Authorization, w: World) returns (o: Outcome)
      modifies signer, signer.ledger, signer.registry
      ensures (signer.Contents(), o) == GatewayExecute(old(signer.Contents()), q, a, w)
    {
      var error := signer.registry.Register(a);
      if error.Some? {
        return Raised(error.value);
      }
      o := signer.ExecuteFromPolicy(q, a, w);
    }

    method RevokeAuthorization(id: string) returns (error: Option<CallError>)
      requires Reached()
      modifies this, signer.registry
      ensures Reached() && history == old(history) + [RevokeCall(id)]
      ensures signer.Contents() == Step(old(signer.Contents()), RevokeCall(id))
      ensures error.Some? <==> id !in old(signer.registry.authorizations)
    {
      Grows(history, RevokeCall(id));
      history := history + [RevokeCall(id)];
      error := signer.registry.Revoke(id);
    }

    method RegisterAuthorization(a: Authorization) returns (error: Option<CallError>)
      requires Reached()
      modifies this, signer.registry
      ensures Reached() && history == old(history) + [RegisterCall(a)]
      ensures signer.Contents() == Step(old(signer.Contents()), RegisterCall(a))
      ensures
        var known := old(signer.registry.authorizations);
        error.Some? <==> a.id in known && known[a.id] != a
    {
      Grows(history, RegisterCall(a));
      history := history + [RegisterCall(a)];
      error := signer.registry.Register(a);
    }
  }
}
