/** The paid Service Agent updated in place, against the steps of PaidService. */
module PaidServiceAgent {
  import opened Results
  import opened Texts
  import opened PaidService
  import Spec = PaidService

  lemma Grows(v: Service, history: seq<Call>, c: Call)
    ensures RunFrom(v, EMPTY, history + [c]) == Step(v, RunFrom(v, EMPTY, history), c)
  {
    assert (history + [c])[..|history + [c]| - 1] == history;
  }

  class MppPaidServiceAgent {
    const service: Service
    var issued: map<Id, Issued>
    var idempotency: map<string, Id>
    var usedReceipts: map<string, Id>
    var usedSignatures: map<string, Id>
    var results: map<string, Execution>
    var nextId: Id
    var started: seq<Id>
    var completed: seq<Id>
    ghost var history: seq<Call>

    function Contents(): State
      reads this
    {
      State(issued, idempotency, usedReceipts, usedSignatures, results, nextId, started, completed)
    }

    /** The Agent is in the state its calls so far lead to. */
    ghost predicate Reached()
      reads this
    {
      Contents() == RunFrom(service, EMPTY, history)
    }

    constructor (service: Service)
      ensures this.service == service && Reached() && history == []
    {
      this.service := service;
      issued, idempotency, usedReceipts, usedSignatures, results := map[], map[], map[], map[], map[];
      nextId, started, completed := 0, [], [];
      history := [];
    }

    method IssueChallenge(q: Request, now: int) returns (reply: Result<Challenge, ServiceError>)
      requires Reached()
      modifies this`issued, this`idempotency, this`nextId, this`history
      ensures Reached() && history == old(history) + [IssueCall(q, now)]
      ensures (Contents(), reply) == Issue(service, old(Contents()), q, now)
    {
      EveryRunBijective(service, EMPTY, history);
      Grows(service, history, IssueCall(q, now));
      history := history + [IssueCall(q, now)];
      if service.allowedTasks != [] && q.taskId !in service.allowedTasks {
        return Failure(TaskNotAllowed);
      }
      if q.idempotencyKey in idempotency {
        var existing := issued[idempotency[q.idempotencyKey]];
        return if existing.request == q then Success(existing.challenge) else Failure(KeyBoundToAnotherRequest);
      }
      var challenge := NewChallenge(service, q, nextId, now);
      nextId := nextId + 3;
      issued := issued[challenge.challengeId := Issued(q, challenge)];
      idempotency := idempotency[q.idempotencyKey := challenge.challengeId];
      return Success(challenge);
    }

    method Execute(b: Submission, w: World) returns (reply: Result<Execution, ServiceError>)
      requires Reached()
      modifies this`started, this`completed, this`usedReceipts, this`usedSignatures, this`results, this`history
      ensures Reached() && history == old(history) + [ExecuteCall(b, w)]
      ensures (Contents(), reply) == Spec.Execute(old(Contents()), b, w)
    {
      Grows(service, history, ExecuteCall(b, w));
      history := history + [ExecuteCall(b, w)];
      if b.challengeId !in issued {
        return Failure(UnknownChallenge);
      }
      var challenge := issued[b.challengeId].challenge;
      if challenge.expiresAt <= w.now {
        return Failure(ChallengeExpired);
      }
      if b.challengeHash != ChallengeHash(challenge) {
        return Failure(HashMismatch);
      }
      if Upper(b.cluster) != Upper(challenge.cluster) {
        return Failure(ClusterMismatch);
      }
      if !ProofMatches(b.proof, challenge) {
        return Failure(ProofMismatch);
      }
      var signature := b.proof.externalSignature;
      if b.receiptId in usedReceipts && usedReceipts[b.receiptId] != challenge.challengeId {
        return Failure(ReceiptUsed);
      }
      if signature in usedSignatures && usedSignatures[signature] != challenge.challengeId {
        return Failure(SignatureUsed);
      }
      if challenge.idempotencyKey in results {
        var existing := results[challenge.idempotencyKey];
        return if existing.receiptId != b.receiptId then Failure(RetryNeedsOriginalReceipt)
               else Success(existing.(replayed := true));
      }
      reply := RunExecutor(issued[b.challengeId], b, w);
    }

    /** Verification, the executor and, when both succeed, the maps that record it. */
    method RunExecutor(i: Issued, b: Submission, w: World) returns (reply: Result<Execution, ServiceError>)
      modifies this`started, this`completed, this`usedReceipts, this`usedSignatures, this`results
      ensures (Contents(), reply) == Serve(old(Contents()), i, b, w)
    {
      var challenge := i.challenge;
      if !w.verified {
        return Failure(NotVerified);
      }
      started := started + [challenge.challengeId];
      if w.output.None? {
        return Failure(ExecutorRaised);
      }
      completed := completed + [challenge.challengeId];
      var result := Execution(challenge.paymentId, challenge.challengeId, b.receiptId, i.request, w.output.value,
                              false);
      usedReceipts := usedReceipts[b.receiptId := challenge.challengeId];
      usedSignatures := usedSignatures[b.proof.externalSignature := challenge.challengeId];
      results := results[challenge.idempotencyKey := result];
      return Success(result);
    }
  }
}
