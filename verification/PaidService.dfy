/** The paid Service Agent: it issues one challenge per key and serves each paid challenge at most once. */
module PaidService {
  import opened Results
  import opened Networks
  import opened Texts

  /** Identifiers drawn from a supply of fresh values. */
  type Id = nat

  datatype Service = Service(
    serviceId: string, recipient: string, token: string, amount: int, network: Network, cluster: string,
    expiresSeconds: int, allowedTasks: seq<string>)

  datatype Request = Request(
    agentId: string, taskId: string, runId: string, traceId: string, correlationId: string, idempotencyKey: string)

  datatype Challenge = Challenge(
    paymentId: Id, challengeId: Id, nonce: Id, serviceId: string, taskId: string, runId: string, traceId: string,
    correlationId: string, idempotencyKey: string, network: Network, cluster: string, token: string, recipient: string,
    amount: int, expiresAt: int)

  /** The challenge hash covers the whole challenge and is taken to be free of collisions. */
  datatype ChallengeHash = ChallengeHash(challenge: Challenge)

  datatype Proof = Proof(
    paymentId: Id, challengeId: Id, idempotencyKey: string, network: Network, token: string, amount: int,
    externalSignature: string)

  datatype Submission = Submission(
    challengeId: Id, challengeHash: ChallengeHash, cluster: string, proof: Proof, receiptId: string, confirmed: bool)

  datatype Issued = Issued(request: Request, challenge: Challenge)

  datatype Execution = Execution(
    paymentId: Id, challengeId: Id, receiptId: string, request: Request, output: string, replayed: bool)

  /** `started` and `completed` record the calls of the executor and those that returned. */
  datatype State = State(
    issued: map<Id, Issued>, idempotency: map<string, Id>, receipts: map<string, Id>, signatures: map<string, Id>,
    results: map<string, Execution>, nextId: Id, started: seq<Id>, completed: seq<Id>)

  datatype ServiceError =
    | TaskNotAllowed | KeyBoundToAnotherRequest | UnknownChallenge | ChallengeExpired | HashMismatch | ClusterMismatch
    | ProofMismatch | ReceiptUsed | SignatureUsed | RetryNeedsOriginalReceipt | NotVerified | ExecutorRaised

  /** The verifier's verdict, and the executor's output when it returns. */
  datatype World = World(now: int, verified: bool, output: Option<string>)

  const EMPTY := State(map[], map[], map[], map[], map[], 0, [], [])

  function NewChallenge(v: Service, q: Request, next: Id, now: int): Challenge {
    Challenge(next, next + 1, next + 2, v.serviceId, q.taskId, q.runId, q.traceId, q.correlationId, q.idempotencyKey,
              v.network, v.cluster, v.token, v.recipient, v.amount, now + v.expiresSeconds)
  }

  function Issue(v: Service, s: State, q: Request, now: int): (State, Result<Challenge, ServiceError>) {
    if v.allowedTasks != [] && q.taskId !in v.allowedTasks then (s, Failure(TaskNotAllowed))
    else if q.idempotencyKey in s.idempotency && s.idempotency[q.idempotencyKey] in s.issued then
      var i := s.issued[s.idempotency[q.idempotencyKey]];
      (s, if i.request == q then Success(i.challenge) else Failure(KeyBoundToAnotherRequest))
    else
      var c := NewChallenge(v, q, s.nextId, now);
      (s.(issued := s.issued[c.challengeId := Issued(q, c)],
          idempotency := s.idempotency[q.idempotencyKey := c.challengeId],
          nextId := s.nextId + 3),
       Success(c))
  }

  predicate ProofMatches(p: Proof, c: Challenge) {
    && p.paymentId == c.paymentId && p.challengeId == c.challengeId && p.idempotencyKey == c.idempotencyKey
    && p.network == c.network && p.token == c.token && p.amount == c.amount
  }

  /** Why a submission is turned away whatever happened before. */
  function Refused(c: Challenge, b: Submission, now: int): Option<ServiceError> {
    if c.expiresAt <= now then Some(ChallengeExpired)
    else if b.challengeHash != ChallengeHash(c) then Some(HashMismatch)
    else if Upper(b.cluster) != Upper(c.cluster) then Some(ClusterMismatch)
    else if !ProofMatches(b.proof, c) then Some(ProofMismatch)
    else None
  }

  predicate UsedElsewhere(used: map<string, Id>, token: string, challengeId: Id) {
    token in used && used[token] != challengeId
  }

  function Serve(s: State, i: Issued, b: Submission, w: World): (State, Result<Execution, ServiceError>) {
    if !w.verified then (s, Failure(NotVerified))
    else
      var c := i.challenge;
      var s1 := s.(started := s.started + [c.challengeId]);
      if w.output.None? then (s1, Failure(ExecutorRaised))
      else
        var x := Execution(c.paymentId, c.challengeId, b.receiptId, i.request, w.output.value, false);
        (s1.(receipts := s.receipts[b.receiptId := c.challengeId],
             signatures := s.signatures[b.proof.externalSignature := c.challengeId],
             results := s.results[c.idempotencyKey := x],
             completed := s.completed + [c.challengeId]),
         Success(x))
  }

  function Execute(s: State, b: Submission, w: World): (State, Result<Execution, ServiceError>) {
    if b.challengeId !in s.issued then (s, Failure(UnknownChallenge))
    else
      var i := s.issued[b.challengeId];
      var c := i.challenge;
      var refused := Refused(c, b, w.now);
      if refused.Some? then (s, Failure(refused.value))
      else if UsedElsewhere(s.receipts, b.receiptId, c.challengeId) then (s, Failure(ReceiptUsed))
      else if UsedElsewhere(s.signatures, b.proof.externalSignature, c.challengeId) then (s, Failure(SignatureUsed))
      else if c.idempotencyKey in s.results then
        var x := s.results[c.idempotencyKey];
        (s, if x.receiptId != b.receiptId then Failure(RetryNeedsOriginalReceipt) else Success(x.(replayed := true)))
      else Serve(s, i, b, w)
  }

  datatype Call = IssueCall(request: Request, now: int) | ExecuteCall(submission: Submission, world: World)

  function Step(v: Service, s: State, c: Call): State {
    match c
    case IssueCall(q, now) => Issue(v, s, q, now).0
    case ExecuteCall(b, w) => Execute(s, b, w).0
  }

  function RunFrom(v: Service, s: State, calls: seq<Call>): State {
    if calls == [] then s else Step(v, RunFrom(v, s, calls[..|calls| - 1]), calls[|calls| - 1])
  }

  // ----- The invariant

  /** Keys and issued challenges name each other. */
  ghost predicate Paired(s: State) {
    && (forall key :: key in s.idempotency ==>
          s.idempotency[key] in s.issued && s.issued[s.idempotency[key]].challenge.idempotencyKey == key)
    && (forall id :: id in s.issued ==>
          var i := s.issued[id];
          && i.challenge.challengeId == id && id < s.nextId
          && i.request.idempotencyKey == i.challenge.idempotencyKey
          && i.challenge.idempotencyKey in s.idempotency && s.idempotency[i.challenge.idempotencyKey] == id)
  }

  /** The completed result of a challenge. */
  predicate HasResult(s: State, id: Id) {
    id in s.issued && s.issued[id].challenge.idempotencyKey in s.results
  }

  ghost predicate ResultsFollow(s: State) {
    forall key :: key in s.results ==>
      var x := s.results[key];
      && key in s.idempotency && x.challengeId == s.idempotency[key] && !x.replayed
      && x.receiptId in s.receipts && s.receipts[x.receiptId] == x.challengeId
      && x.challengeId in s.signatures.Values && x.challengeId in s.completed
  }

  ghost predicate ReceiptsFollow(s: State) {
    forall r :: r in s.receipts ==>
      HasResult(s, s.receipts[r]) && s.results[s.issued[s.receipts[r]].challenge.idempotencyKey].receiptId == r
  }

  ghost predicate SignaturesFollow(s: State) {
    && (forall g :: g in s.signatures ==> HasResult(s, s.signatures[g]))
    && (forall g, h :: g in s.signatures && h in s.signatures && s.signatures[g] == s.signatures[h] ==> g == h)
  }

  ghost predicate CompletedOnce(s: State) {
    && (forall n :: 0 <= n < |s.completed| ==> HasResult(s, s.completed[n]))
    && (forall m, n :: 0 <= m < n < |s.completed| ==> s.completed[m] != s.completed[n])
  }

  ghost predicate Inv(s: State) {
    Paired(s) && ResultsFollow(s) && ReceiptsFollow(s) && SignaturesFollow(s) && CompletedOnce(s)
  }

  lemma IssuePairs(v: Service, s: State, q: Request, now: int)
    requires Paired(s)
    ensures Paired(Issue(v, s, q, now).0)
  {
    assert Issue(v, s, q, now).0 != s ==> q.idempotencyKey !in s.idempotency && s.nextId + 1 !in s.issued;
  }

  /** More challenges, and nothing else. */
  ghost predicate MoreChallenges(s: State, t: State) {
    && t.receipts == s.receipts && t.signatures == s.signatures && t.results == s.results && t.completed == s.completed
    && Extends(s, t)
  }

  lemma IssueAdds(v: Service, s: State, q: Request, now: int)
    requires Paired(s)
    ensures MoreChallenges(s, Issue(v, s, q, now).0)
  {
    IssueExtends(v, s, q, now);
  }

  lemma MoreChallengesKeep(s: State, t: State)
    requires Inv(s) && MoreChallenges(s, t) && Paired(t)
    ensures Inv(t)
  {
  }

  lemma IssueKeeps(v: Service, s: State, q: Request, now: int)
    requires Inv(s)
    ensures Inv(Issue(v, s, q, now).0)
  {
    IssuePairs(v, s, q, now);
    IssueAdds(v, s, q, now);
    MoreChallengesKeep(s, Issue(v, s, q, now).0);
  }

  /** A first successful execution of a challenge. */
  ghost predicate Serves(s: State, b: Submission, t: State) {
    && b.challengeId in s.issued && !HasResult(s, b.challengeId)
    && ProofMatches(b.proof, s.issued[b.challengeId].challenge)
    && !UsedElsewhere(s.receipts, b.receiptId, b.challengeId)
    && !UsedElsewhere(s.signatures, b.proof.externalSignature, b.challengeId)
    && t.issued == s.issued && t.idempotency == s.idempotency && t.nextId == s.nextId
    && t.receipts == s.receipts[b.receiptId := b.challengeId]
    && t.signatures == s.signatures[b.proof.externalSignature := b.challengeId]
    && t.completed == s.completed + [b.challengeId]
    && exists output: string ::
         var i := s.issued[b.challengeId];
         t.results == s.results[i.challenge.idempotencyKey :=
           Execution(i.challenge.paymentId, b.challengeId, b.receiptId, i.request, output, false)]
  }

  lemma ExecuteEffect(s: State, b: Submission, w: World)
    requires Paired(s)
    ensures var t := Execute(s, b, w).0;
      Serves(s, b, t) || t == s.(started := t.started)
  {
  }

  lemma FreshTokens(s: State, b: Submission, t: State)
    requires Inv(s) && Serves(s, b, t)
    ensures b.receiptId !in s.receipts && b.proof.externalSignature !in s.signatures && b.challengeId !in s.completed
  {
  }

  lemma ServeKeepsResults(s: State, b: Submission, t: State)
    requires Inv(s) && Serves(s, b, t)
    ensures ResultsFollow(t)
  {
    FreshTokens(s, b, t);
    var key := s.issued[b.challengeId].challenge.idempotencyKey;
    assert t.signatures[b.proof.externalSignature] == b.challengeId;
    forall k | k in t.results
      ensures var x := t.results[k];
        && k in t.idempotency && x.challengeId == t.idempotency[k] && !x.replayed
        && x.receiptId in t.receipts && t.receipts[x.receiptId] == x.challengeId
        && x.challengeId in t.signatures.Values && x.challengeId in t.completed
    {
      if k != key {
        var id := s.results[k].challengeId;
        assert id in s.signatures.Values;
        var g :| g in s.signatures && s.signatures[g] == id;
        assert t.signatures[g] == id;
      } else {
        assert t.completed[|s.completed|] == b.challengeId;
      }
    }
  }

  lemma ServeKeepsReceipts(s: State, b: Submission, t: State)
    requires Inv(s) && Serves(s, b, t)
    ensures ReceiptsFollow(t)
  {
    FreshTokens(s, b, t);
  }

  lemma ServeKeepsRest(s: State, b: Submission, t: State)
    requires Inv(s) && Serves(s, b, t)
    ensures Paired(t) && SignaturesFollow(t) && CompletedOnce(t)
  {
    FreshTokens(s, b, t);
  }

  lemma StepKeeps(v: Service, s: State, c: Call)
    requires Inv(s)
    ensures Inv(Step(v, s, c))
  {
    match c
    case IssueCall(q, now) => IssueKeeps(v, s, q, now);
    case ExecuteCall(b, w) =>
      var t := Execute(s, b, w).0;
      ExecuteEffect(s, b, w);
      if Serves(s, b, t) {
        ServeKeepsResults(s, b, t);
        ServeKeepsReceipts(s, b, t);
        ServeKeepsRest(s, b, t);
      }
  }

  /**
   * In every reachable state keys and challenges are in bijection, receipts, signatures and results are in bijection
   * through their challenge, and no challenge was completed twice.
   */
  lemma {:induction false} EveryRunBijective(v: Service, s: State, calls: seq<Call>)
    requires Inv(s)
    ensures Inv(RunFrom(v, s, calls))
    decreases |calls|
  {
    if calls != [] {
      EveryRunBijective(v, s, calls[..|calls| - 1]);
      StepKeeps(v, RunFrom(v, s, calls[..|calls| - 1]), calls[|calls| - 1]);
    }
  }

  lemma EmptyInv()
    ensures Inv(EMPTY)
  {
  }

  // ----- What stays

  ghost predicate Extends(s: State, t: State) {
    && (forall id :: id in s.issued ==> id in t.issued && t.issued[id] == s.issued[id])
    && (forall key :: key in s.idempotency ==> key in t.idempotency && t.idempotency[key] == s.idempotency[key])
    && (forall key :: key in s.results ==> key in t.results && t.results[key] == s.results[key])
  }

  lemma StepExtends(v: Service, s: State, c: Call)
    requires Inv(s)
    ensures Extends(s, Step(v, s, c))
  {
    match c
    case IssueCall(q, now) => IssueExtends(v, s, q, now);
    case ExecuteCall(b, w) => ExecuteEffect(s, b, w);
  }

  lemma IssueExtends(v: Service, s: State, q: Request, now: int)
    requires Paired(s)
    ensures Extends(s, Issue(v, s, q, now).0)
  {
    assert Issue(v, s, q, now).0 != s ==> q.idempotencyKey !in s.idempotency && s.nextId !in s.issued;
  }

  lemma {:induction false} RunExtends(v: Service, s: State, calls: seq<Call>)
    requires Inv(s)
    ensures Extends(s, RunFrom(v, s, calls))
    decreases |calls|
  {
    if calls != [] {
      var t := RunFrom(v, s, calls[..|calls| - 1]);
      RunExtends(v, s, calls[..|calls| - 1]);
      EveryRunBijective(v, s, calls[..|calls| - 1]);
      StepExtends(v, t, calls[|calls| - 1]);
    }
  }

  /** A key keeps its challenge: whoever asks again with the same request gets it, any other request is refused. */
  lemma IssueRepeats(v: Service, s: State, q: Request, now: int, between: seq<Call>, again: Request, later: int)
    requires Inv(s) && Issue(v, s, q, now).1.Success? && again.idempotencyKey == q.idempotencyKey
    ensures var t := RunFrom(v, Issue(v, s, q, now).0, between);
      && Issue(v, t, again, later).0 == t
      && (again == q ==> Issue(v, t, again, later).1 == Issue(v, s, q, now).1)
      && (again != q ==> Issue(v, t, again, later).1.Failure?)
  {
    IssueKeeps(v, s, q, now);
    RunExtends(v, Issue(v, s, q, now).0, between);
  }

  /** What is known once a challenge has a result. */
  ghost predicate Served(s: State, id: Id, x: Execution) {
    id in s.issued && s.issued[id].challenge.idempotencyKey in s.results
      && s.results[s.issued[id].challenge.idempotencyKey] == x
  }

  lemma ExecuteServes(s: State, b: Submission, w: World)
    requires Inv(s) && Execute(s, b, w).1.Success?
    ensures var x := Execute(s, b, w).1.value;
      x.receiptId == b.receiptId && Served(Execute(s, b, w).0, b.challengeId, x.(replayed := false))
  {
    assert b.challengeId in s.issued;
  }

  lemma RetryAt(t: State, x: Execution, again: Submission, w: World)
    requires Inv(t) && Served(t, again.challengeId, x)
    ensures Execute(t, again, w).0 == t
    ensures Execute(t, again, w).1.Success? <==>
      && Refused(t.issued[again.challengeId].challenge, again, w.now).None?
      && again.receiptId == x.receiptId
      && !UsedElsewhere(t.signatures, again.proof.externalSignature, again.challengeId)
    ensures Execute(t, again, w).1.Success? ==> Execute(t, again, w).1.value == x.(replayed := true)
  {
    var c := t.issued[again.challengeId].challenge;
    assert c.challengeId == again.challengeId;
    assert t.receipts[x.receiptId] == again.challengeId;
  }

  /**
   * Once a challenge was served, every further submission for it leaves the state alone and is accepted exactly when it
   * matches the challenge, comes before it expires, names the original receipt and no signature of another challenge;
   * an accepted one gets the stored result.
   */
  lemma RetryExactly(v: Service, s: State, b: Submission, w: World, between: seq<Call>, again: Submission, w': World)
    requires Inv(s) && Execute(s, b, w).1.Success? && again.challengeId == b.challengeId
    ensures var t := RunFrom(v, Execute(s, b, w).0, between);
      var (t', reply) := Execute(t, again, w');
      && t' == t
      && b.challengeId in s.issued
      && (reply.Success? <==>
            && Refused(s.issued[b.challengeId].challenge, again, w'.now).None?
            && again.receiptId == b.receiptId
            && !UsedElsewhere(t.signatures, again.proof.externalSignature, b.challengeId))
      && (reply.Success? ==> reply.value == Execute(s, b, w).1.value.(replayed := true))
  {
    var t0, x := Execute(s, b, w).0, Execute(s, b, w).1.value.(replayed := false);
    ExecuteServes(s, b, w);
    StepKeeps(v, s, ExecuteCall(b, w));
    StepExtends(v, s, ExecuteCall(b, w));
    LaterRetry(v, t0, x, between, again, w');
    assert t0.issued == s.issued by {
      ExecuteEffect(s, b, w);
    }
  }

  lemma LaterRetry(v: Service, t0: State, x: Execution, between: seq<Call>, again: Submission, w: World)
    requires Inv(t0) && Served(t0, again.challengeId, x)
    ensures var t := RunFrom(v, t0, between);
      var (t', reply) := Execute(t, again, w);
      && t' == t
      && (reply.Success? <==>
            && Refused(t0.issued[again.challengeId].challenge, again, w.now).None?
            && again.receiptId == x.receiptId
            && !UsedElsewhere(t.signatures, again.proof.externalSignature, again.challengeId))
      && (reply.Success? ==> reply.value == x.(replayed := true))
  {
    RunExtends(v, t0, between);
    EveryRunBijective(v, t0, between);
    RetryAt(RunFrom(v, t0, between), x, again, w);
  }

  /** A submission whose executor raised passed every check before it. */
  lemma RaisedMeans(s: State, b: Submission, w: World)
    requires Paired(s) && Execute(s, b, w).1 == Failure(ExecutorRaised)
    ensures b.challengeId in s.issued && !HasResult(s, b.challengeId)
    ensures var c := s.issued[b.challengeId].challenge;
      && Refused(c, b, w.now).None?
      && !UsedElsewhere(s.receipts, b.receiptId, c.challengeId)
      && !UsedElsewhere(s.signatures, b.proof.externalSignature, c.challengeId)
      && Execute(s, b, w).0 == s.(started := s.started + [c.challengeId])
  {
  }

  /**
   * An executor that raises leaves no result: the same submission, any time before the challenge expires, runs it
   * again.
   */
  lemma RaisingExecutorRunsAgain(s: State, b: Submission, w: World, w': World)
    requires Paired(s) && Execute(s, b, w).1 == Failure(ExecutorRaised)
    requires b.challengeId in s.issued && w'.now < s.issued[b.challengeId].challenge.expiresAt
    requires w'.verified && w'.output.Some?
    ensures var t := Execute(Execute(s, b, w).0, b, w').0;
      t.started == s.started + [b.challengeId, b.challengeId] && t.completed == s.completed + [b.challengeId]
  {
    RaisedMeans(s, b, w);
    var i := s.issued[b.challengeId];
    assert Refused(i.challenge, b, w'.now).None?;
    var t := Execute(s, b, w).0;
    assert Execute(t, b, w') == Serve(t, i, b, w');
  }

  // ----- How often the executor starts

  /** The submission passes every check, the verifier's last, so that the executor starts. */
  predicate Passes(s: State, b: Submission, w: World) {
    && b.challengeId in s.issued
    && (var c := s.issued[b.challengeId].challenge;
        && Refused(c, b, w.now).None?
        && !UsedElsewhere(s.receipts, b.receiptId, c.challengeId)
        && !UsedElsewhere(s.signatures, b.proof.externalSignature, c.challengeId)
        && c.idempotencyKey !in s.results)
    && w.verified
  }

  /** Call `n` of the run starts the executor for the challenge. */
  predicate StartsAt(v: Service, calls: seq<Call>, n: nat, id: Id)
    requires n < |calls|
  {
    && calls[n].ExecuteCall? && calls[n].submission.challengeId == id
    && Passes(RunFrom(v, EMPTY, calls[..n]), calls[n].submission, calls[n].world)
  }

  predicate RaisesAt(v: Service, calls: seq<Call>, n: nat, id: Id)
    requires n < |calls|
  {
    StartsAt(v, calls, n, id) && calls[n].world.output.None?
  }

  /** The executions of a run for one challenge whose executor raised. */
  function Raised(v: Service, calls: seq<Call>, id: Id): nat {
    if calls == [] then 0
    else Raised(v, calls[..|calls| - 1], id) + if RaisesAt(v, calls, |calls| - 1, id) then 1 else 0
  }

  /** How often the executor was started for the challenge. */
  function Starts(v: Service, calls: seq<Call>, id: Id): nat {
    multiset(RunFrom(v, EMPTY, calls).started)[id]
  }

  /** What one call adds to the starts and completions. */
  lemma StepCounts(v: Service, s: State, c: Call)
    requires Paired(s)
    ensures var t := Step(v, s, c);
      if c.ExecuteCall? && Passes(s, c.submission, c.world) then
        && t.started == s.started + [c.submission.challengeId]
        && t.completed == s.completed + if c.world.output.Some? then [c.submission.challengeId] else []
      else t.started == s.started && t.completed == s.completed
  {
  }

  /** The reply of a call is ExecutorRaised exactly when it starts an executor that raises. */
  lemma RaisesExactly(s: State, b: Submission, w: World)
    ensures Execute(s, b, w).1 == Failure(ExecutorRaised) <==> Passes(s, b, w) && w.output.None?
  {
  }

  lemma PrefixCalls(v: Service, calls: seq<Call>, m: nat, id: Id)
    requires m < |calls| - 1
    ensures StartsAt(v, calls[..|calls| - 1], m, id) <==> StartsAt(v, calls, m, id)
    ensures RaisesAt(v, calls[..|calls| - 1], m, id) <==> RaisesAt(v, calls, m, id)
  {
    assert calls[..|calls| - 1][..m] == calls[..m];
  }

  /** Over any run each challenge's executor starts as often as it completes plus as often as it raised. */
  lemma {:induction false} StartsAccounted(v: Service, calls: seq<Call>, id: Id)
    ensures Starts(v, calls, id) == multiset(RunFrom(v, EMPTY, calls).completed)[id] + Raised(v, calls, id)
    decreases |calls|
  {
    if calls != [] {
      var before := calls[..|calls| - 1];
      StartsAccounted(v, before, id);
      EmptyInv();
      EveryRunBijective(v, EMPTY, before);
      StepCounts(v, RunFrom(v, EMPTY, before), calls[|calls| - 1]);
    }
  }

  lemma {:induction false} RaisedSomewhere(v: Service, calls: seq<Call>, id: Id)
    ensures Raised(v, calls, id) > 0 <==> exists m :: 0 <= m < |calls| && RaisesAt(v, calls, m, id)
    decreases |calls|
  {
    if calls != [] {
      var before := calls[..|calls| - 1];
      RaisedSomewhere(v, before, id);
      forall m | 0 <= m < |before|
        ensures RaisesAt(v, before, m, id) <==> RaisesAt(v, calls, m, id)
      {
        PrefixCalls(v, calls, m, id);
      }
    }
  }

  /** A challenge without a result has not been completed. */
  lemma NotCompleted(s: State, id: Id)
    requires CompletedOnce(s) && !HasResult(s, id)
    ensures multiset(s.completed)[id] == 0
  {
    assert id !in s.completed;
  }

  /** No submission passes every check after one whose executor raised. */
  ghost predicate NothingAfterRaise(v: Service, calls: seq<Call>, id: Id) {
    forall m, n :: 0 <= m < n < |calls| && RaisesAt(v, calls, m, id) ==> !StartsAt(v, calls, n, id)
  }

  lemma NothingAfterRaiseUnfolds(v: Service, calls: seq<Call>, id: Id)
    requires calls != []
    ensures var before := calls[..|calls| - 1];
      NothingAfterRaise(v, calls, id) <==>
        NothingAfterRaise(v, before, id) && !(StartsAt(v, calls, |calls| - 1, id) && Raised(v, before, id) > 0)
  {
    var before, last := calls[..|calls| - 1], |calls| - 1;
    RaisedSomewhere(v, before, id);
    forall m | 0 <= m < |before|
      ensures StartsAt(v, before, m, id) <==> StartsAt(v, calls, m, id)
      ensures RaisesAt(v, before, m, id) <==> RaisesAt(v, calls, m, id)
    {
      PrefixCalls(v, calls, m, id);
    }
    if StartsAt(v, calls, last, id) && Raised(v, before, id) > 0 {
      var m :| 0 <= m < |before| && RaisesAt(v, before, m, id);
      assert RaisesAt(v, calls, m, id);
    }
  }

  lemma LastStart(v: Service, calls: seq<Call>, id: Id)
    requires calls != []
    ensures var before, started := calls[..|calls| - 1], StartsAt(v, calls, |calls| - 1, id);
      && Starts(v, calls, id) == Starts(v, before, id) + (if started then 1 else 0)
      && (started ==> Starts(v, before, id) == Raised(v, before, id))
  {
    var before, last := calls[..|calls| - 1], |calls| - 1;
    EmptyInv();
    EveryRunBijective(v, EMPTY, before);
    StepCounts(v, RunFrom(v, EMPTY, before), calls[last]);
    if StartsAt(v, calls, last, id) {
      StartsAccounted(v, before, id);
      NotCompleted(RunFrom(v, EMPTY, before), id);
    }
  }

  /**
   * Over any run an executor is started at most once for a challenge exactly when no submission for it gets past
   * verification after one that raised.
   */
  lemma {:induction false} StartedOnceExactly(v: Service, calls: seq<Call>, id: Id)
    ensures Starts(v, calls, id) <= 1 <==> NothingAfterRaise(v, calls, id)
    decreases |calls|
  {
    if calls != [] {
      StartedOnceExactly(v, calls[..|calls| - 1], id);
      NothingAfterRaiseUnfolds(v, calls, id);
      LastStart(v, calls, id);
    }
  }
}
