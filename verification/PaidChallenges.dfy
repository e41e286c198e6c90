/** What an issued challenge asks for and what a submission must show, field by field. */
module PaidChallenges {
  import opened Results
  import opened Networks
  import opened Texts
  import opened PaidService

  /** The challenge asks for the Service's price, names the request and runs out after the Service's time. */
  predicate AsksFor(c: Challenge, v: Service, q: Request, now: int) {
    && c.serviceId == v.serviceId && c.recipient == v.recipient && c.token == v.token && c.amount == v.amount
    && c.network == v.network && c.cluster == v.cluster && c.expiresAt == now + v.expiresSeconds
    && c.taskId == q.taskId && c.runId == q.runId && c.traceId == q.traceId && c.correlationId == q.correlationId
    && c.idempotencyKey == q.idempotencyKey
  }

  /** Three identifiers that no earlier challenge has. */
  ghost predicate FreshIds(s: State, c: Challenge) {
    && c.paymentId != c.challengeId && c.challengeId != c.nonce && c.paymentId != c.nonce
    && forall id :: id in s.issued ==>
         var earlier := s.issued[id].challenge;
         {earlier.paymentId, earlier.challengeId, earlier.nonce} !! {c.paymentId, c.challengeId, c.nonce}
  }

  /** All identifiers of issued challenges come from the supply. */
  ghost predicate Supplied(s: State) {
    forall id :: id in s.issued ==>
      var c := s.issued[id].challenge;
      c.paymentId < s.nextId && c.challengeId < s.nextId && c.nonce < s.nextId
  }

  predicate TaskAllowed(v: Service, q: Request) {
    v.allowedTasks == [] || q.taskId in v.allowedTasks
  }

  /** A challenge was issued for the request and stored, and nothing else changed. */
  ghost predicate IssuesNew(v: Service, s: State, t: State, q: Request, now: int, c: Challenge) {
    && AsksFor(c, v, q, now) && FreshIds(s, c)
    && t == s.(issued := s.issued[c.challengeId := Issued(q, c)],
               idempotency := s.idempotency[q.idempotencyKey := c.challengeId], nextId := t.nextId)
  }

  lemma NewIssues(v: Service, s: State, q: Request, now: int)
    requires Supplied(s) && TaskAllowed(v, q) && q.idempotencyKey !in s.idempotency
    ensures var (t, reply) := Issue(v, s, q, now);
      reply.Success? && IssuesNew(v, s, t, q, now, reply.value)
  {
  }

  lemma OldIssues(v: Service, s: State, q: Request, now: int)
    requires Paired(s) && !(TaskAllowed(v, q) && q.idempotencyKey !in s.idempotency)
    ensures var (t, reply) := Issue(v, s, q, now);
      && t == s
      && (reply.Success? <==> TaskAllowed(v, q) && s.issued[s.idempotency[q.idempotencyKey]].request == q)
      && (reply.Success? ==> reply.value == s.issued[s.idempotency[q.idempotencyKey]].challenge)
  {
  }

  /**
   * An allowed Task's request under a new key gets a challenge for the Service's price and for itself, with fresh
   * identifiers; under a used key only the same request gets its challenge again; nothing else is issued.
   */
  lemma IssuesExactly(v: Service, s: State, q: Request, now: int)
    requires Paired(s) && Supplied(s)
    ensures var (t, reply) := Issue(v, s, q, now);
      if TaskAllowed(v, q) && q.idempotencyKey !in s.idempotency then
        reply.Success? && IssuesNew(v, s, t, q, now, reply.value)
      else
        && t == s
        && (reply.Success? <==> TaskAllowed(v, q) && s.issued[s.idempotency[q.idempotencyKey]].request == q)
        && (reply.Success? ==> reply.value == s.issued[s.idempotency[q.idempotencyKey]].challenge)
  {
    if TaskAllowed(v, q) && q.idempotencyKey !in s.idempotency {
      NewIssues(v, s, q, now);
    } else {
      OldIssues(v, s, q, now);
    }
  }

  // ----- Submissions

  /** The submission is in time and about this challenge, its cluster and its price. */
  predicate Answers(b: Submission, c: Challenge, now: int) {
    && now < c.expiresAt && b.challengeHash.challenge == c && Upper(b.cluster) == Upper(c.cluster)
    && b.proof.paymentId == c.paymentId && b.proof.challengeId == c.challengeId
    && b.proof.idempotencyKey == c.idempotencyKey && b.proof.network == c.network && b.proof.token == c.token
    && b.proof.amount == c.amount
  }

  /** Neither receipt nor signature was used for another challenge. */
  predicate TokensFree(s: State, b: Submission) {
    && (b.receiptId in s.receipts ==> s.receipts[b.receiptId] == b.challengeId)
    && (b.proof.externalSignature in s.signatures ==> s.signatures[b.proof.externalSignature] == b.challengeId)
  }

  /** The result names payment, challenge, receipt, request and the executor's output, and is stored with its tokens. */
  predicate Records(s: State, t: State, b: Submission, x: Execution, output: string)
    requires b.challengeId in s.issued
  {
    var i := s.issued[b.challengeId];
    && x.paymentId == i.challenge.paymentId && x.challengeId == b.challengeId && x.receiptId == b.receiptId
    && x.request == i.request && x.output == output && !x.replayed
    && t.results == s.results[i.challenge.idempotencyKey := x]
    && t.receipts == s.receipts[b.receiptId := b.challengeId]
    && t.signatures == s.signatures[b.proof.externalSignature := b.challengeId]
    && t.completed == s.completed + [b.challengeId]
  }

  /**
   * A submission for a challenge without a result is served exactly when it answers the challenge with free tokens, the
   * verifier accepts it and the executor returns; the executor is started exactly when the verifier accepts.
   */
  lemma ServesExactly(s: State, b: Submission, w: World)
    requires Inv(s) && (b.challengeId in s.issued ==> !HasResult(s, b.challengeId))
    ensures var (t, reply) := Execute(s, b, w);
      var accepted := b.challengeId in s.issued && Answers(b, s.issued[b.challengeId].challenge, w.now)
                      && TokensFree(s, b) && w.verified;
      && (reply.Success? <==> accepted && w.output.Some?)
      && (reply.Success? ==> Records(s, t, b, reply.value, w.output.value))
      && t.started == (if accepted then s.started + [b.challengeId] else s.started)
      && (!accepted ==> t == s) && (reply.Failure? ==> t == s.(started := t.started))
      && t.issued == s.issued
  {
  }

  // ----- Over runs

  ghost predicate AskedAt(v: Service, calls: seq<Call>, n: nat, i: Issued)
    requires n < |calls|
  {
    calls[n].IssueCall? && calls[n].request == i.request && AsksFor(i.challenge, v, i.request, calls[n].now)
  }

  lemma {:induction false} EveryRunSupplied(v: Service, calls: seq<Call>)
    ensures Supplied(RunFrom(v, EMPTY, calls))
    decreases |calls|
  {
    if calls != [] {
      EveryRunSupplied(v, calls[..|calls| - 1]);
      EveryRunBijective(v, EMPTY, calls[..|calls| - 1]);
      StepSupplies(v, RunFrom(v, EMPTY, calls[..|calls| - 1]), calls[|calls| - 1]);
    }
  }

  lemma StepSupplies(v: Service, s: State, c: Call)
    requires Inv(s) && Supplied(s)
    ensures Supplied(Step(v, s, c))
  {
    if c.ExecuteCall? {
      ExecuteEffect(s, c.submission, c.world);
    }
  }

  /** A challenge that a call adds asks for its own request. */
  lemma StepAsks(v: Service, s: State, c: Call, id: Id)
    requires Inv(s) && Supplied(s) && id in Step(v, s, c).issued
    ensures var i := Step(v, s, c).issued[id];
      || (id in s.issued && s.issued[id] == i)
      || (c.IssueCall? && c.request == i.request && AsksFor(i.challenge, v, i.request, c.now))
  {
    if c.IssueCall? {
      IssuesExactly(v, s, c.request, c.now);
    } else {
      ExecuteEffect(s, c.submission, c.world);
    }
  }

  /** Every challenge of every run asks for the Service's price on behalf of a request of the run. */
  lemma {:induction false} EveryChallengeAsks(v: Service, calls: seq<Call>, id: Id)
    requires id in RunFrom(v, EMPTY, calls).issued
    ensures exists n :: 0 <= n < |calls| && AskedAt(v, calls, n, RunFrom(v, EMPTY, calls).issued[id])
    decreases |calls|
  {
    var before := calls[..|calls| - 1];
    var s, i := RunFrom(v, EMPTY, before), RunFrom(v, EMPTY, calls).issued[id];
    EveryRunBijective(v, EMPTY, before);
    EveryRunSupplied(v, before);
    StepAsks(v, s, calls[|calls| - 1], id);
    if id in s.issued && s.issued[id] == i {
      EveryChallengeAsks(v, before, id);
      var n :| 0 <= n < |before| && AskedAt(v, before, n, i);
      assert AskedAt(v, calls, n, i);
    } else {
      assert AskedAt(v, calls, |calls| - 1, i);
    }
  }
}
