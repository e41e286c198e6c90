/**
 * Over any interleaving of pay and resume: one proof per key, only after ALLOW and a Signer success, and final results
 * stay.
 */
module MppClientSafety {
  import opened Results
  import opened MppPolicy
  import opened MppClientSpec
  import opened PaymentProfile
  import SignerTypes

  predicate Final(session: Session) {
    session.result.Some? && !session.result.value.status.PendingApproval?
  }

  /** A session's own bookkeeping: its key, its nonce, and one finish or, after a pending approval, two. */
  predicate SessionOk(s: State, key: string)
    requires key in s.sessions
  {
    var t := s.sessions[key];
    && t.challenge.idempotencyKey == key
    && (t.challenge.challengeId, t.challenge.nonce) in s.challengeKeys
    && s.challengeKeys[(t.challenge.challengeId, t.challenge.nonce)] == key
    && t.result.Some?
    && t.result.value.challengeHash == ChallengeHash(t.challenge)
    && (t.result.value.status.PendingApproval? ==> t.sequence == 1)
    && 1 <= t.sequence <= 2
    && (t.decision.Some? ==> t.decision == Some(t.result.value.decision) || t.result.value.decision.Deny?)
  }

  /** A submission carries a proof built from an accepted Signer result after ALLOW, and its session is over. */
  ghost predicate SubmissionOk(s: State, b: Submission) {
    && b.decision.Allow?
    && SignerTypes.Accepted(b.signer.status)
    && b.proof.idempotencyKey == b.idempotencyKey
    && b.proof.signerResultId == b.signer.resultId && b.signer.externalSignature == Some(b.proof.externalSignature)
    && b.idempotencyKey in s.sessions
    && Final(s.sessions[b.idempotencyKey])
    && s.sessions[b.idempotencyKey].decision == Some(Allow)
    && s.sessions[b.idempotencyKey].result.value.attempts == 2
  }

  ghost predicate OneProofPerKey(s: State) {
    forall i, j :: 0 <= i < j < |s.submissions| ==> s.submissions[i].idempotencyKey != s.submissions[j].idempotencyKey
  }

  /** A success was submitted, with the proof it reports. */
  ghost predicate SuccessSubmitted(s: State, key: string)
    requires key in s.sessions
  {
    var r := s.sessions[key].result;
    r.Some? && r.value.status.Succeeded? ==>
      r.value.proof.Some? && exists b :: b in s.submissions && b.idempotencyKey == key && b.proof == r.value.proof.value
  }

  ghost predicate Inv(s: State) {
    && (forall key :: key in s.sessions ==> SessionOk(s, key) && SuccessSubmitted(s, key))
    && (forall b :: b in s.submissions ==> SubmissionOk(s, b))
    && OneProofPerKey(s)
  }

  /** Final sessions and nonce bindings are write-once, and submissions only accumulate. */
  ghost predicate Extends(s: State, t: State) {
    && (forall key :: key in s.sessions ==> key in t.sessions && t.sessions[key].challenge == s.sessions[key].challenge)
    && (forall key :: key in s.sessions && Final(s.sessions[key]) ==> t.sessions[key] == s.sessions[key])
    && (forall n :: n in s.challengeKeys ==> n in t.challengeKeys && t.challengeKeys[n] == s.challengeKeys[n])
    && s.submissions <= t.submissions
  }

  /** A session about to be finished: absent so far, or pending approval. */
  predicate Unfinished(s: State, session: Session) {
    var key := session.challenge.idempotencyKey;
    && (key in s.sessions ==> s.sessions[key].challenge == session.challenge && !Final(s.sessions[key]))
    && (session.challenge.challengeId, session.challenge.nonce) in s.challengeKeys
    && s.challengeKeys[(session.challenge.challengeId, session.challenge.nonce)] == key
    && session.sequence <= 1
  }

  /** The state without the session that is being worked on is good. */
  ghost predicate InvExcept(s: State, key: string) {
    Inv(s.(sessions := s.sessions - {key}))
  }

  lemma NoSubmissionYet(s: State, key: string)
    requires InvExcept(s, key)
    ensures forall b :: b in s.submissions ==> b.idempotencyKey != key
  {
    forall b | b in s.submissions
      ensures b.idempotencyKey != key
    {
      assert SubmissionOk(s.(sessions := s.sessions - {key}), b);
    }
  }

  lemma FinishKeeps(s: State, session: Session, result: PaymentResult)
    requires InvExcept(s, session.challenge.idempotencyKey) && Unfinished(s, session)
    requires result.challengeHash == ChallengeHash(session.challenge) && !result.status.Succeeded?
    requires result.status.PendingApproval? ==> session.sequence == 0
    requires session.decision.Some? ==> session.decision == Some(result.decision) || result.decision.Deny?
    ensures Inv(Finish(s, session, result).0)
    ensures Extends(s, Finish(s, session, result).0)
  {
    var key := session.challenge.idempotencyKey;
    var s0 := s.(sessions := s.sessions - {key});
    var t := Finish(s, session, result).0;
    NoSubmissionYet(s, key);
    forall k | k in t.sessions
      ensures SessionOk(t, k) && SuccessSubmitted(t, k)
    {
      if k != key {
        assert SessionOk(s0, k) && SuccessSubmitted(s0, k);
      }
    }
    forall b | b in t.submissions
      ensures SubmissionOk(t, b)
    {
      assert SubmissionOk(s0, b);
    }
  }

  lemma SubmitKeeps(s: State, session: Session, b: Submission, result: PaymentResult)
    requires InvExcept(s, session.challenge.idempotencyKey) && Unfinished(s, session)
    requires result.challengeHash == ChallengeHash(session.challenge) && !result.status.PendingApproval?
    requires result.attempts == 2 && result.decision.Allow? && session.decision == Some(Allow)
    requires b.idempotencyKey == session.challenge.idempotencyKey == b.proof.idempotencyKey
    requires b.decision.Allow? && SignerTypes.Accepted(b.signer.status)
    requires b.proof.signerResultId == b.signer.resultId
      && b.signer.externalSignature == Some(b.proof.externalSignature)
    requires result.status.Succeeded? ==> result.proof == Some(b.proof)
    ensures Inv(Finish(s.(submissions := s.submissions + [b]), session, result).0)
    ensures Extends(s, Finish(s.(submissions := s.submissions + [b]), session, result).0)
  {
    var key := session.challenge.idempotencyKey;
    var s0 := s.(sessions := s.sessions - {key});
    var t := Finish(s.(submissions := s.submissions + [b]), session, result).0;
    NoSubmissionYet(s, key);
    assert b in t.submissions;
    forall k | k in t.sessions
      ensures SessionOk(t, k) && SuccessSubmitted(t, k)
    {
      if k != key {
        assert SessionOk(s0, k) && SuccessSubmitted(s0, k);
        if s0.sessions[k].result.value.status.Succeeded? {
          var a :| a in s0.submissions && a.idempotencyKey == k && a.proof == s0.sessions[k].result.value.proof.value;
          assert a in t.submissions;
        }
      }
    }
    forall a | a in t.submissions
      ensures SubmissionOk(t, a)
    {
      if a in s.submissions {
        assert SubmissionOk(s0, a);
      }
    }
    assert OneProofPerKey(t) by {
      forall i, j | 0 <= i < j < |t.submissions|
        ensures t.submissions[i].idempotencyKey != t.submissions[j].idempotencyKey
      {
        assert s.submissions[i] in s.submissions;
        if j < |s.submissions| {
          assert s0.submissions[i].idempotencyKey != s0.submissions[j].idempotencyKey;
        }
      }
    }
  }

  lemma ExecuteKeeps(s: State, session: Session, w: World)
    requires InvExcept(s, session.challenge.idempotencyKey) && Unfinished(s, session) && session.decision == Some(Allow)
    ensures Inv(ExecuteAndRetry(s, session, Allow, w).0)
    ensures Extends(s, ExecuteAndRetry(s, session, Allow, w).0)
  {
    var c := session.challenge;
    if !w.requestBuilds || w.signer.SignerRaised? {
      FinishKeeps(s, session, Plain(session, FailedPayment, Allow, 1, None));
    } else if w.signer.result.status.Stopped? {
      FinishKeeps(s, session, Plain(session, StoppedPayment, Allow, 1, Some(w.signer)));
    } else if !SignerTypes.Accepted(w.signer.result.status) || w.signer.receipt.None? {
      FinishKeeps(s, session, Plain(session, FailedPayment, Allow, 1, Some(w.signer)));
    } else {
      var proof := ProofOf(c, w.signer.result, w.signer.receipt.value);
      if proof.None? {
        FinishKeeps(s, session, Plain(session, FailedPayment, Allow, 2, Some(w.signer)));
      } else {
        var b := Submission(c.idempotencyKey, Allow, w.signer.result, proof.value);
        var code := if w.provider.Response? then Some(w.provider.code) else None;
        SubmitKeeps(s, session, b,
                    PaymentResult(Succeeded, Allow, ChallengeHash(c), 2, code, proof, Some(w.signer), false));
        SubmitKeeps(s, session, b,
                    PaymentResult(FailedPayment, Allow, ChallengeHash(c), 2, code, None, Some(w.signer), false));
      }
    }
  }

  lemma BindNonceKeeps(s: State, n: (string, string), key: string)
    requires Inv(s) && (n in s.challengeKeys ==> s.challengeKeys[n] == key)
    ensures Inv(s.(challengeKeys := s.challengeKeys[n := key]))
    ensures Extends(s, s.(challengeKeys := s.challengeKeys[n := key]))
  {
    var t := s.(challengeKeys := s.challengeKeys[n := key]);
    forall k | k in t.sessions
      ensures SessionOk(t, k) && SuccessSubmitted(t, k)
    {
      assert SessionOk(s, k) && SuccessSubmitted(s, k);
    }
    forall b | b in t.submissions
      ensures SubmissionOk(t, b)
    {
      assert SubmissionOk(s, b);
    }
  }

  lemma AfterEvaluationKeeps(s: State, session: Session, d: Decision, w: World)
    requires InvExcept(s, session.challenge.idempotencyKey) && Unfinished(s, session)
    requires session.decision.None? && session.sequence == 0
    ensures Inv(AfterEvaluation(s, session, d, w).0) && Extends(s, AfterEvaluation(s, session, d, w).0)
  {
    var evaluated := session.(decision := Some(d));
    match d
    case Deny => FinishKeeps(s, evaluated, Plain(evaluated, DeniedPayment, d, 1, None));
    case RequireOwnerApproval => FinishKeeps(s, evaluated, Plain(evaluated, PendingApproval, d, 1, None));
    case Allow => ExecuteKeeps(s, evaluated, w);
  }

  lemma StartKeeps(g: Config, s: State, session: Session, w: World)
    requires InvExcept(s, session.challenge.idempotencyKey) && Unfinished(s, session)
    requires session.decision.None? && session.sequence == 0
    ensures Inv(Start(g, s, session, w).0) && Extends(s, Start(g, s, session, w).0)
  {
    FinishKeeps(s, session, Plain(session, DeniedPayment, Deny, 1, None));
    AfterEvaluationKeeps(s, session, EvaluateContext(ContextOf(g, session.challenge, true, None), w.stops, w.now), w);
  }

  lemma PayKeeps(g: Config, s: State, c: Challenge, w: World)
    requires Inv(s)
    ensures Inv(Pay(g, s, c, w).0) && Extends(s, Pay(g, s, c, w).0)
  {
    var key, n := c.idempotencyKey, (c.challengeId, c.nonce);
    if key !in s.sessions && (n in s.challengeKeys ==> s.challengeKeys[n] == key) {
      BindNonceKeeps(s, n, key);
      var s1 := s.(challengeKeys := s.challengeKeys[n := key]);
      if w.paymentValid {
        var session := Session(c, None, None, 0);
        var s2 := s1.(sessions := s1.sessions[key := session]);
        assert s2.sessions - {key} == s1.sessions;
        assert InvExcept(s2, key) by { assert s2.(sessions := s2.sessions - {key}) == s1; }
        StartKeeps(g, s2, session, w);
      }
    }
  }

  lemma WithoutOneSession(s: State, key: string)
    requires Inv(s) && key in s.sessions && !Final(s.sessions[key])
    ensures InvExcept(s, key)
  {
    var s0 := s.(sessions := s.sessions - {key});
    forall k | k in s0.sessions
      ensures SessionOk(s0, k) && SuccessSubmitted(s0, k)
    {
      assert SessionOk(s, k) && SuccessSubmitted(s, k);
    }
    forall b | b in s0.submissions
      ensures SubmissionOk(s0, b)
    {
      assert SubmissionOk(s, b);
    }
  }

  lemma ResumeKeeps(g: Config, s: State, key: string, approved: bool, approvalId: Option<string>, w: World)
    requires Inv(s)
    ensures Inv(Resume(g, s, key, approved, approvalId, w).0)
      && Extends(s, Resume(g, s, key, approved, approvalId, w).0)
  {
    if key in s.sessions && s.sessions[key].result.Some? && s.sessions[key].result.value.status.PendingApproval? {
      PendingIsUnfinished(s, key);
      AnswerKeeps(g, s, s.sessions[key], s.sessions[key].result.value.attempts, approved, approvalId, w);
    }
  }

  lemma AnswerKeeps(g: Config, s: State, session: Session, attempts: int, approved: bool, approvalId: Option<string>,
                    w: World)
    requires Inv(s) && InvExcept(s, session.challenge.idempotencyKey) && Unfinished(s, session)
    ensures Inv(Answer(g, s, session, attempts, approved, approvalId, w).0)
    ensures Extends(s, Answer(g, s, session, attempts, approved, approvalId, w).0)
  {
    if !approved {
      FinishKeeps(s, session, Plain(session, DeniedPayment, Deny, attempts, None));
    } else if approvalId.Some? && approvalId.value != "" {
      var d := EvaluateContext(ContextOf(g, session.challenge, g.serviceRegistered, approvalId), w.stops, w.now);
      AfterApprovalKeeps(s, session, d, attempts, w);
    }
  }

  lemma PendingIsUnfinished(s: State, key: string)
    requires Inv(s) && key in s.sessions && s.sessions[key].result.Some?
    requires s.sessions[key].result.value.status.PendingApproval?
    ensures s.sessions[key].challenge.idempotencyKey == key && InvExcept(s, key) && Unfinished(s, s.sessions[key])
  {
    assert SessionOk(s, key);
    WithoutOneSession(s, key);
  }

  lemma AfterApprovalKeeps(s: State, session: Session, d: Decision, attempts: int, w: World)
    requires InvExcept(s, session.challenge.idempotencyKey) && Unfinished(s, session)
    ensures Inv(AfterApproval(s, session, d, attempts, w).0) && Extends(s, AfterApproval(s, session, d, attempts, w).0)
  {
    var evaluated := session.(decision := Some(d));
    if !d.Allow? {
      FinishKeeps(s, evaluated, Plain(evaluated, DeniedPayment, d, attempts, None));
    } else {
      ExecuteKeeps(s, evaluated, w);
    }
  }

  lemma StepKeeps(g: Config, s: State, c: Call)
    requires Inv(s)
    ensures Inv(Step(g, s, c).0) && Extends(s, Step(g, s, c).0)
  {
    match c
    case PayCall(challenge, w) => PayKeeps(g, s, challenge, w);
    case ResumeCall(key, approved, approvalId, w) => ResumeKeeps(g, s, key, approved, approvalId, w);
  }

  lemma ExtendsTransitive(s: State, t: State, u: State)
    requires Extends(s, t) && Extends(t, u)
    ensures Extends(s, u)
  {
    forall key | key in s.sessions && Final(s.sessions[key])
      ensures u.sessions[key] == s.sessions[key]
    {
      assert t.sessions[key] == s.sessions[key];
    }
  }

  /** From any good state every run stays good, and keeps final results, nonce bindings and submissions. */
  lemma {:induction false} RunKeeps(g: Config, s: State, calls: seq<Call>)
    requires Inv(s)
    ensures Inv(RunFrom(g, s, calls)) && Extends(s, RunFrom(g, s, calls))
    decreases |calls|
  {
    if calls != [] {
      var before := RunFrom(g, s, calls[..|calls| - 1]);
      RunKeeps(g, s, calls[..|calls| - 1]);
      StepKeeps(g, before, calls[|calls| - 1]);
      ExtendsTransitive(s, before, RunFrom(g, s, calls));
    }
  }

  /** In every reachable state each key has at most one proof, and each proof an ALLOW and an accepted Signer result. */
  lemma EveryRunSendsOneProofPerKey(g: Config, calls: seq<Call>)
    ensures var s := RunFrom(g, EMPTY, calls);
      && OneProofPerKey(s)
      && (forall b :: b in s.submissions ==> SubmissionOk(s, b))
      && (forall key :: key in s.sessions ==> SessionOk(s, key) && SuccessSubmitted(s, key))
  {
    RunKeeps(g, EMPTY, calls);
  }

  /** A call that sends a proof made the engine decide ALLOW in that call. */
  lemma ProofNeedsAllow(g: Config, s: State, c: Call)
    requires Inv(s) && Step(g, s, c).0.submissions != s.submissions
    ensures match c
      case PayCall(challenge, w) =>
        && g.phase.Devnet? && g.serviceRegistered && !ProfileMismatch(g, challenge) && !ScopeMismatch(g, challenge)
        && EvaluateContext(ContextOf(g, challenge, true, None), w.stops, w.now).Allow?
      case ResumeCall(key, approved, approvalId, w) =>
        && approved && approvalId.Some? && approvalId.value != "" && key in s.sessions
        && EvaluateContext(ContextOf(g, s.sessions[key].challenge, g.serviceRegistered, approvalId), w.stops,
                           w.now).Allow?
  {
  }

  /**
   * Once final, paying the same challenge again or resuming it returns that result, marked as replayed, and changes
   * nothing.
   */
  lemma FinalReplays(g: Config, calls: seq<Call>, c: Challenge, more: seq<Call>, approved: bool,
                     approvalId: Option<string>, w: World)
    requires var s := RunFrom(g, EMPTY, calls);
      c.idempotencyKey in s.sessions && s.sessions[c.idempotencyKey].challenge == c
        && Final(s.sessions[c.idempotencyKey])
    ensures var s := RunFrom(g, EMPTY, calls);
      var t := RunFrom(g, s, more);
      var stored := s.sessions[c.idempotencyKey].result.value;
      && Pay(g, t, c, w) == (t, Success(Replayed(stored)))
      && Resume(g, t, c.idempotencyKey, approved, approvalId, w) == (t, Success(Replayed(stored)))
  {
    RunKeeps(g, EMPTY, calls);
    RunKeeps(g, RunFrom(g, EMPTY, calls), more);
  }

  /**
   * A (challenge, nonce) pair, once bound, refuses every other key from then on, with a session or without one, and
   * that changes nothing.
   */
  lemma NonceStaysBound(g: Config, calls: seq<Call>, n: (string, string), c: Challenge, more: seq<Call>, w: World)
    requires n in RunFrom(g, EMPTY, calls).challengeKeys
    requires (c.challengeId, c.nonce) == n && c.idempotencyKey != RunFrom(g, EMPTY, calls).challengeKeys[n]
    ensures var t := RunFrom(g, RunFrom(g, EMPTY, calls), more);
      Pay(g, t, c, w).0 == t && Pay(g, t, c, w).1.Failure?
  {
    RunKeeps(g, EMPTY, calls);
    RunKeeps(g, RunFrom(g, EMPTY, calls), more);
    var t := RunFrom(g, RunFrom(g, EMPTY, calls), more);
    if c.idempotencyKey in t.sessions {
      assert SessionOk(t, c.idempotencyKey);
    }
  }

  /**
   * What a new challenge gets does not depend on the client's earlier payments: it passes the engine no spend, so the
   * per-Task and daily limits bind each payment by itself and never their sum.
   */
  lemma HistoryDoesNotCount(g: Config, calls: seq<Call>, c: Challenge, w: World)
    requires var s := RunFrom(g, EMPTY, calls);
      && c.idempotencyKey !in s.sessions
      && ((c.challengeId, c.nonce) in s.challengeKeys ==> s.challengeKeys[(c.challengeId, c.nonce)] == c.idempotencyKey)
    ensures Pay(g, RunFrom(g, EMPTY, calls), c, w).1 == Pay(g, EMPTY, c, w).1
  {
  }
}
