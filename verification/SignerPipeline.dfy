/**
 * The MPP Client on top of the Signer: every proof it sends is a stored Signer result that went through the transport.
 */
module SignerPipeline {
  import opened Results
  import opened SignerTypes
  import Client = MppClientSpec
  import ClientSafety = MppClientSafety
  import Signer = SignerSpec
  import Safety = SignerSafety
  import Replay = SignerReplay
  import Policy = PaymentProfile

  datatype Joint = Joint(client: Client.State, signer: Signer.State)

  /** `form` carries the fields of the Signer request that come from the authorization and the wallet. */
  datatype Event =
    | ClientEvent(call: Client.Call, form: Request, authorization: Authorization, world: World)
    | SignerEvent(other: Signer.Call)

  const START := Joint(Client.EMPTY, Signer.INITIAL)

  function Units(n: int): nat {
    if n < 0 then 0 else n
  }

  /** The Signer request for a challenge: what is paid comes from the challenge, the limits from the profile. */
  function RequestFor(g: Client.Config, c: Client.Challenge, form: Request): Request {
    form.(paymentId := Client.PaymentId(c), challengeId := c.challengeId, idempotencyKey := c.idempotencyKey,
          nonce := c.nonce, taskId := c.taskId, runId := c.runId, traceId := c.traceId,
          correlationId := c.correlationId, agentId := g.profile.agentId, network := c.network, token := c.token,
          programId := if c.programId.Some? then c.programId.value else form.programId,
          sourceTokenAccount := c.sourceTokenAccount, recipientTokenAccount := c.recipientTokenAccount,
          recentBlockhash := None, amountUnits := Units(c.amount), expiresAt := c.expiresAt,
          perPaymentLimit := Units(g.profile.perPayment), perTaskLimit := Units(g.profile.perTask),
          dailyLimit := Units(g.profile.daily), taskSpent := 0, dailySpent := 0)
  }

  function ChallengeOf(s: Client.State, c: Client.Call): Option<Client.Challenge> {
    match c
    case PayCall(challenge, _) => Some(challenge)
    case ResumeCall(key, _, _, _) => if key in s.sessions then Some(s.sessions[key].challenge) else None
  }

  function ReplyOf(o: Signer.Outcome): Client.SignerReply {
    match o
    case Raised(_) => Client.SignerRaised
    case Returned(result, receipt) => Client.SignerReturned(result, Some(receipt))
  }

  function Answered(c: Client.Call, reply: Client.SignerReply): Client.Call {
    c.(world := c.world.(signer := reply))
  }

  /** The call gets as far as the Signer: what the Signer answers matters. */
  ghost predicate Consults(g: Client.Config, s: Client.State, c: Client.Call) {
    exists reply :: Client.Step(g, s, Answered(c, reply)) != Client.Step(g, s, Answered(c, Client.SignerRaised))
  }

  ghost function Step(g: Client.Config, j: Joint, e: Event): Joint {
    match e
    case SignerEvent(c) => j.(signer := Signer.Step(j.signer, c))
    case ClientEvent(c, form, a, w) =>
      var challenge := ChallengeOf(j.client, c);
      if challenge.None? || !Consults(g, j.client, c) then
        j.(client := Client.Step(g, j.client, Answered(c, Client.SignerRaised)).0)
      else
        var (signer, o) := Signer.GatewayExecute(j.signer, RequestFor(g, challenge.value, form), a, w);
        Joint(Client.Step(g, j.client, Answered(c, ReplyOf(o))).0, signer)
  }

  ghost function Run(g: Client.Config, events: seq<Event>): Joint {
    if events == [] then START else Step(g, Run(g, events[..|events| - 1]), events[|events| - 1])
  }

  // ----- The Signer's side

  /** What a gateway execution returns is stored under the request's key. */
  lemma ReturnedIsStored(s: Signer.State, q: Request, a: Authorization, w: World)
    requires Safety.Inv(Safety.CoreOf(s)) && Signer.GatewayExecute(s, q, a, w).1.Returned?
    ensures var (t, o) := Signer.GatewayExecute(s, q, a, w);
      q.idempotencyKey in t.results && t.results[q.idempotencyKey].result == o.result
  {
    if q.idempotencyKey !in s.results {
      assert !Safety.Succeeded(Safety.CoreOf(s), q.idempotencyKey);
      var _ := Replay.StoredHash(s, q, a, w);
    }
  }

  // ----- The client's side

  /** At most one proof more, under the key and with the Signer result that was given. */
  ghost predicate Sends(before: seq<Client.Submission>, after: seq<Client.Submission>, key: string,
                        reply: Client.SignerReply) {
    || after == before
    || (reply.SignerReturned?
        && exists b :: after == before + [b] && b.signer == reply.result && b.idempotencyKey == key)
  }

  lemma ExecuteSends(s: Client.State, session: Client.Session, d: Policy.Decision, w: Client.World)
    ensures Sends(s.submissions, Client.ExecuteAndRetry(s, session, d, w).0.submissions,
                  session.challenge.idempotencyKey, w.signer)
  {
    if w.signer.SignerReturned? && w.signer.receipt.Some? {
      var proof := Client.ProofOf(session.challenge, w.signer.result, w.signer.receipt.value);
      if proof.Some? {
        var b := Client.Submission(session.challenge.idempotencyKey, d, w.signer.result, proof.value);
        assert b.signer == w.signer.result && b.idempotencyKey == session.challenge.idempotencyKey;
      }
    }
  }

  lemma PaySends(g: Client.Config, s: Client.State, c: Client.Challenge, w: Client.World)
    ensures Sends(s.submissions, Client.Pay(g, s, c, w).0.submissions, c.idempotencyKey, w.signer)
  {
    var session := Client.Session(c, None, None, 0);
    var s1 := s.(challengeKeys := s.challengeKeys[(c.challengeId, c.nonce) := c.idempotencyKey],
                 sessions := s.sessions[c.idempotencyKey := session]);
    var evaluated := session.(decision := Some(Policy.Allow));
    ExecuteSends(s1, evaluated, Policy.Allow, w);
  }

  lemma ResumeSends(g: Client.Config, s: Client.State, key: string, approved: bool, approvalId: Option<string>,
                    w: Client.World)
    requires key in s.sessions
    ensures Sends(s.submissions, Client.Resume(g, s, key, approved, approvalId, w).0.submissions,
                  s.sessions[key].challenge.idempotencyKey, w.signer)
  {
    ExecuteSends(s, s.sessions[key].(decision := Some(Policy.Allow)), Policy.Allow, w);
  }

  /** A call sends at most one proof, under its own challenge's key and with the Signer result it was given. */
  lemma StepSends(g: Client.Config, s: Client.State, c: Client.Call)
    requires ChallengeOf(s, c).Some?
    ensures Sends(s.submissions, Client.Step(g, s, c).0.submissions, ChallengeOf(s, c).value.idempotencyKey,
                  c.world.signer)
  {
    match c
    case PayCall(challenge, w) => PaySends(g, s, challenge, w);
    case ResumeCall(key, approved, approvalId, w) => ResumeSends(g, s, key, approved, approvalId, w);
  }

  // ----- Together

  /** The Signer stored this very result under the submission's key. */
  predicate Stored(s: Signer.State, b: Client.Submission) {
    b.idempotencyKey in s.results && s.results[b.idempotencyKey].result == b.signer
  }

  ghost predicate Inv(j: Joint) {
    && ClientSafety.Inv(j.client) && Safety.Inv(Safety.CoreOf(j.signer))
    && forall b :: b in j.client.submissions ==> Stored(j.signer, b)
  }

  lemma StoredStays(s: Signer.State, t: Signer.State, proofs: seq<Client.Submission>)
    requires Replay.Extends(s, t) && forall b :: b in proofs ==> Stored(s, b)
    ensures forall b :: b in proofs ==> Stored(t, b)
  {
  }

  lemma OtherKeeps(g: Client.Config, j: Joint, c: Signer.Call)
    requires Inv(j)
    ensures Inv(Step(g, j, SignerEvent(c)))
  {
    Safety.StepKeeps(j.signer, c);
    Replay.StepExtends(j.signer, c);
    StoredStays(j.signer, Signer.Step(j.signer, c), j.client.submissions);
  }

  /** Without the Signer nothing is sent. */
  lemma SilentKeeps(g: Client.Config, j: Joint, c: Client.Call)
    requires Inv(j)
    ensures Inv(j.(client := Client.Step(g, j.client, Answered(c, Client.SignerRaised)).0))
  {
    var silent := Answered(c, Client.SignerRaised);
    ClientSafety.StepKeeps(g, j.client, silent);
    if ChallengeOf(j.client, c).Some? {
      StepSends(g, j.client, silent);
    }
  }

  /** What the Signer's side of a consulting call keeps, and what it stores. */
  lemma GatewayKeeps(s: Signer.State, q: Request, a: Authorization, w: World)
    requires Safety.Inv(Safety.CoreOf(s))
    ensures var (t, o) := Signer.GatewayExecute(s, q, a, w);
      && Safety.Inv(Safety.CoreOf(t)) && Replay.Extends(s, t)
      && (o.Returned? ==> q.idempotencyKey in t.results && t.results[q.idempotencyKey].result == o.result)
  {
    Safety.StepKeeps(s, Signer.ExecuteCall(q, a, w));
    Replay.StepExtends(s, Signer.ExecuteCall(q, a, w));
    if Signer.GatewayExecute(s, q, a, w).1.Returned? {
      ReturnedIsStored(s, q, a, w);
    }
  }

  lemma ProofsStayStored(before: seq<Client.Submission>, after: seq<Client.Submission>, key: string,
                         reply: Client.SignerReply, t: Signer.State)
    requires Sends(before, after, key, reply) && forall b :: b in before ==> Stored(t, b)
    requires reply.SignerReturned? ==> key in t.results && t.results[key].result == reply.result
    ensures forall b :: b in after ==> Stored(t, b)
  {
  }

  lemma ConsultedKeeps(g: Client.Config, j: Joint, c: Client.Call, q: Request, a: Authorization, w: World)
    requires Inv(j) && ChallengeOf(j.client, c).Some?
      && q.idempotencyKey == ChallengeOf(j.client, c).value.idempotencyKey
    ensures var (signer, o) := Signer.GatewayExecute(j.signer, q, a, w);
      Inv(Joint(Client.Step(g, j.client, Answered(c, ReplyOf(o))).0, signer))
  {
    var (signer, o) := Signer.GatewayExecute(j.signer, q, a, w);
    var call := Answered(c, ReplyOf(o));
    GatewayKeeps(j.signer, q, a, w);
    ClientSafety.StepKeeps(g, j.client, call);
    StepSends(g, j.client, call);
    StoredStays(j.signer, signer, j.client.submissions);
    ProofsStayStored(j.client.submissions, Client.Step(g, j.client, call).0.submissions, q.idempotencyKey, ReplyOf(o),
                     signer);
  }

  lemma StepKeeps(g: Client.Config, j: Joint, e: Event)
    requires Inv(j)
    ensures Inv(Step(g, j, e))
  {
    match e
    case SignerEvent(c) => OtherKeeps(g, j, c);
    case ClientEvent(c, form, a, w) =>
      var challenge := ChallengeOf(j.client, c);
      if challenge.None? || !Consults(g, j.client, c) {
        SilentKeeps(g, j, c);
      } else {
        ConsultedKeeps(g, j, c, RequestFor(g, challenge.value, form), a, w);
      }
  }

  lemma {:induction false} EveryRunKeeps(g: Client.Config, events: seq<Event>)
    ensures Inv(Run(g, events))
    decreases |events|
  {
    if events == [] {
      assert Safety.Inv(Safety.CoreOf(Signer.INITIAL)) by {
        Safety.EveryRunKeeps([]);
      }
    } else {
      EveryRunKeeps(g, events[..|events| - 1]);
      StepKeeps(g, Run(g, events[..|events| - 1]), events[|events| - 1]);
    }
  }

  /** The Signer's own accepted submission behind a proof. */
  predicate SubmittedFor(x: Submission, b: Client.Submission) {
    x.idempotencyKey == b.idempotencyKey && x.accepted && x.authorizationId == b.signer.authorizationId
  }

  lemma ProofSucceeded(j: Joint, b: Client.Submission)
    requires Inv(j) && b in j.client.submissions
    ensures var results := Safety.CoreOf(j.signer).results;
      b.idempotencyKey in results && results[b.idempotencyKey] == Some(b.signer.authorizationId)
  {
    assert ClientSafety.SubmissionOk(j.client, b);
    assert Stored(j.signer, b);
  }

  /**
   * Over any interleaving of the client's calls with anyone else's calls of the Signer: each proof that reached the
   * provider is a Signer result stored under its key, with an accepted submission of its own.
   */
  lemma EveryProofWasSubmitted(g: Client.Config, events: seq<Event>, b: Client.Submission)
    requires b in Run(g, events).client.submissions
    ensures Stored(Run(g, events).signer, b)
    ensures exists x :: x in Run(g, events).signer.submissions && SubmittedFor(x, b)
  {
    EveryRunKeeps(g, events);
    ProofSucceeded(Run(g, events), b);
    var core := Safety.CoreOf(Run(g, events).signer);
    assert Safety.Succeeded(core, b.idempotencyKey);
    var x :| x in core.submissions && x.idempotencyKey == b.idempotencyKey;
    assert SubmittedFor(x, b);
  }

  lemma DistinctAuthorizations(c: Safety.Core, key: string, other: string)
    requires Safety.AuthorizationsAgree(c) && Safety.Succeeded(c, key) && Safety.Succeeded(c, other) && key != other
    ensures c.results[key] != c.results[other]
  {
  }

  /** No two proofs rest on one authorization. */
  lemma ProofsUseDistinctAuthorizations(g: Client.Config, events: seq<Event>, m: nat, n: nat)
    requires m < n < |Run(g, events).client.submissions|
    ensures var proofs := Run(g, events).client.submissions;
      proofs[m].signer.authorizationId != proofs[n].signer.authorizationId
  {
    EveryRunKeeps(g, events);
    var j := Run(g, events);
    ProofSucceeded(j, j.client.submissions[m]);
    ProofSucceeded(j, j.client.submissions[n]);
    DistinctAuthorizations(
      Safety.CoreOf(j.signer), j.client.submissions[m].idempotencyKey, j.client.submissions[n].idempotencyKey);
  }
}
