/** The MPP Client updated in place, against the steps of MppClientSpec. */
module MppClient {
  import opened Results
  import opened PaymentProfile
  import opened MppPolicy
  import opened MppClientSpec
  import Spec = MppClientSpec
  import SignerTypes

  lemma Grows(g: Config, history: seq<Call>, c: Call)
    ensures RunFrom(g, EMPTY, history + [c]) == Step(g, RunFrom(g, EMPTY, history), c).0
  {
    assert (history + [c])[..|history + [c]| - 1] == history;
  }

  class MppClient {
    const config: Config
    var sessions: map<string, Session>
    var challengeKeys: map<(string, string), string>
    var submissions: seq<Submission>
    ghost var history: seq<Call>

    function Contents(): State
      reads this
    {
      State(sessions, challengeKeys, submissions)
    }

    /** The Client is in the state its calls so far lead to. */
    ghost predicate Reached()
      reads this
    {
      Contents() == RunFrom(config, EMPTY, history)
    }

    constructor (config: Config)
      ensures this.config == config && Reached() && history == []
    {
      this.config := config;
      sessions, challengeKeys, submissions, history := map[], map[], [], [];
    }

    method Finish(session: Session, result: PaymentResult) returns (reply: Outcome)
      modifies this`sessions
      ensures (Contents(), reply) == Spec.Finish(old(Contents()), session, result)
    {
      var finished := session.(result := Some(result));
      finished := finished.(sequence := finished.sequence + 1);
      sessions := sessions[session.challenge.idempotencyKey := finished];
      return Success(result);
    }

    method ExecuteAndRetry(session: Session, d: Decision, w: World) returns (reply: Outcome)
      modifies this`sessions, this`submissions
      ensures (Contents(), reply) == Spec.ExecuteAndRetry(old(Contents()), session, d, w)
    {
      if !w.requestBuilds || w.signer.SignerRaised? {
        reply := Finish(session, Plain(session, FailedPayment, d, 1, None));
        return;
      }
      var r, t := w.signer.result, w.signer.receipt;
      if r.status.Stopped? {
        reply := Finish(session, Plain(session, StoppedPayment, d, 1, Some(w.signer)));
        return;
      }
      if !SignerTypes.Accepted(r.status) || t.None? {
        reply := Finish(session, Plain(session, FailedPayment, d, 1, Some(w.signer)));
        return;
      }
      var responseStatus: Option<int> := None;
      var proof := ProofOf(session.challenge, r, t.value);
      if proof.Some? {
        submissions := submissions + [Submission(session.challenge.idempotencyKey, d, r, proof.value)];
        if w.provider.Response? {
          responseStatus := Some(w.provider.code);
        }
      }
      var challengeHash := ChallengeHash(session.challenge);
      if proof.Some? && ProviderConfirms(proof.value, w) {
        reply := Finish(session,
          PaymentResult(Succeeded, d, challengeHash, 2, responseStatus, proof, Some(w.signer), false));
      } else {
        reply := Finish(session,
          PaymentResult(FailedPayment, d, challengeHash, 2, responseStatus, None, Some(w.signer), false));
      }
    }

    method PayChallenge(c: Challenge, w: World) returns (reply: Outcome)
      requires Reached()
      modifies this
      ensures Reached() && history == old(history) + [PayCall(c, w)]
      ensures (Contents(), reply) == Pay(config, old(Contents()), c, w)
    {
      Grows(config, history, PayCall(c, w));
      history := history + [PayCall(c, w)];
      var key := c.idempotencyKey;
      if key in sessions {
        var existing := sessions[key];
        if ChallengeHash(existing.challenge) != ChallengeHash(c) {
          return Failure(KeyBoundToAnotherChallenge);
        }
        if existing.result.None? {
          return Failure(SessionWithoutResult);
        }
        return Success(Replayed(existing.result.value));
      }
      var challengeKey := (c.challengeId, c.nonce);
      if challengeKey in challengeKeys && challengeKeys[challengeKey] != key {
        return Failure(NonceReused);
      }
      challengeKeys := challengeKeys[challengeKey := key];
      if !w.paymentValid {
        return Failure(InvalidPayment);
      }
      var session := Session(c, None, None, 0);
      sessions := sessions[key := session];
      if !config.phase.Devnet? || !config.serviceRegistered || ProfileMismatch(config, c) || ScopeMismatch(config, c) {
        reply := Finish(session, Plain(session, DeniedPayment, Deny, 1, None));
        return;
      }
      var d := EvaluateContext(ContextOf(config, c, true, None), w.stops, w.now);
      session := session.(decision := Some(d));
      match d {
        case Deny => reply := Finish(session, Plain(session, DeniedPayment, d, 1, None));
        case RequireOwnerApproval => reply := Finish(session, Plain(session, PendingApproval, d, 1, None));
        case Allow => reply := ExecuteAndRetry(session, d, w);
      }
    }

    method Resume(key: string, approved: bool, approvalId: Option<string>, w: World) returns (reply: Outcome)
      requires Reached()
      modifies this`sessions, this`submissions, this`history
      ensures Reached() && history == old(history) + [ResumeCall(key, approved, approvalId, w)]
      ensures (Contents(), reply) == Spec.Resume(config, old(Contents()), key, approved, approvalId, w)
    {
      Grows(config, history, ResumeCall(key, approved, approvalId, w));
      history := history + [ResumeCall(key, approved, approvalId, w)];
      if key !in sessions || sessions[key].result.None? {
        return Failure(SessionUnknown);
      }
      var session := sessions[key];
      var attempts := session.result.value.attempts;
      if !session.result.value.status.PendingApproval? {
        return Success(Replayed(session.result.value));
      }
      if !approved {
        reply := Finish(session, Plain(session, DeniedPayment, Deny, attempts, None));
        return;
      }
      if approvalId.None? || approvalId.value == "" {
        return Failure(ApprovalIdMissing);
      }
      var d := EvaluateContext(ContextOf(config, session.challenge, config.serviceRegistered, approvalId), w.stops,
                               w.now);
      session := session.(decision := Some(d));
      if !d.Allow? {
        reply := Finish(session, Plain(session, DeniedPayment, d, attempts, None));
        return;
      }
      reply := ExecuteAndRetry(session, d, w);
    }
  }
}
