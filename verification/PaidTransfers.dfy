/** From the challenge to the bytes on the wire: what the Signer submitted behind every proof the provider got. */
module PaidTransfers {
  import opened Results
  import opened Networks
  import opened Base58
  import opened SolanaWire
  import opened SignerTypes
  import opened SignerPipeline
  import Client = MppClientSpec
  import ClientSafety = MppClientSafety
  import Proofs = PaidProofs
  import Signer = SignerSpec
  import Safety = SignerSafety
  import Replay = SignerReplay
  import Evidence = SignerEvidence

  /** The signed request is about this challenge; its blockhash may have been filled in. */
  predicate IsFor(q: Request, c: Client.Challenge) {
    && q.idempotencyKey == c.idempotencyKey && q.paymentId == Client.PaymentId(c) && q.challengeId == c.challengeId
    && q.network == c.network && q.token == c.token && q.amountUnits == c.amount
    && q.sourceTokenAccount == c.sourceTokenAccount && q.recipientTokenAccount == c.recipientTokenAccount
  }

  /** LOCAL: the request itself. Devnet: 180 bytes that move exactly the amount between exactly these accounts. */
  predicate PaysFor(payload: Payload, c: Client.Challenge) {
    match c.network
    case Local => payload.LocalPayload? && IsFor(payload.request, c)
    case SolanaDevnet =>
      && payload.DevnetPayload? && |payload.message| == 180
      && var read := ReadMessage(payload.message);
        && read.Some? && |read.value.keys| == 4 && |read.value.instructions| == 1
        && c.sourceTokenAccount.Some? && DecodeText(c.sourceTokenAccount.value) == Success(read.value.keys[1])
        && c.recipientTokenAccount.Some? && DecodeText(c.recipientTokenAccount.value) == Success(read.value.keys[2])
        && c.amount >= 0 && Evidence.Moves(read.value.instructions[0], c.amount)
  }

  lemma CarriedPays(payload: Payload, q: Request, c: Client.Challenge)
    requires Evidence.Carries(payload, q) && IsFor(q, c)
    ensures PaysFor(payload, c)
  {
  }

  // ----- Stored results and the requests they were asked for

  ghost predicate HashesAgree(s: Signer.State) {
    forall key :: key in s.results ==> s.results[key].requestHash == s.results[key].result.requestHash
  }

  lemma PerformHashes(s: Signer.State, q: Request, a: Authorization, w: World)
    requires HashesAgree(s)
    ensures HashesAgree(Signer.Perform(s, q, a, w).0)
  {
  }

  lemma StepHashes(s: Signer.State, c: Signer.Call)
    requires HashesAgree(s)
    ensures HashesAgree(Signer.Step(s, c))
  {
    if c.ExecuteCall? && Signer.RegisterIn(s, c.authorization).Success? {
      var s0 := Signer.RegisterIn(s, c.authorization).value;
      var s1 := s0.(audit := s0.audit + [RequestReceived(c.request.requestId)]);
      if Signer.Admit(s1, c.request, c.authorization, c.world).Success? {
        PerformHashes(Signer.Admit(s1, c.request, c.authorization, c.world).value, c.request, c.authorization, c.world);
      }
    }
  }

  /** An accepted answer is about the request it answers, up to the blockhash. */
  lemma AcceptedIsForRequest(s: Signer.State, q: Request, a: Authorization, w: World)
    requires Safety.Inv(Safety.CoreOf(s)) && HashesAgree(s)
    requires var o := Signer.GatewayExecute(s, q, a, w).1;
      o.Returned? && Accepted(o.result.status)
    ensures var signed := Signer.GatewayExecute(s, q, a, w).1.result.requestHash.payload;
      signed.(recentBlockhash := q.recentBlockhash) == q
  {
    var s0 := Signer.RegisterIn(s, a).value;
    if q.idempotencyKey !in s.results {
      assert !Safety.Succeeded(Safety.CoreOf(s), q.idempotencyKey);
      Evidence.ExecuteAnswers(s0, q, a, w);
    }
  }

  // ----- The joint invariant

  predicate AskedFor(s: Client.State, b: Client.Submission) {
    b.idempotencyKey in s.sessions && IsFor(b.signer.requestHash.payload, s.sessions[b.idempotencyKey].challenge)
  }

  ghost predicate AllAskedFor(s: Client.State) {
    forall b :: b in s.submissions ==> AskedFor(s, b)
  }

  ghost predicate Linked(g: Client.Config, j: Joint) {
    && Inv(j) && Proofs.PendingInScope(g, j.client) && HashesAgree(j.signer) && Evidence.PayloadsStored(j.signer)
    && AllAskedFor(j.client)
  }

  lemma ClientKeepsScope(g: Client.Config, s: Client.State, call: Client.Call)
    requires ClientSafety.Inv(s) && Proofs.PendingInScope(g, s)
    ensures Proofs.PendingInScope(g, Client.Step(g, s, call).0)
  {
    forall key | Proofs.Waits(Client.Step(g, s, call).0, key)
      ensures Proofs.InScopeOf(g, Client.Step(g, s, call).0.sessions[key].challenge)
    {
      Proofs.StepSession(g, s, call, key);
    }
  }

  /** What the Signer answered a call with is about the call's own challenge. */
  predicate AnswersCall(g: Client.Config, s: Client.State, call: Client.Call) {
    call.world.signer.SignerReturned? && Accepted(call.world.signer.result.status) && ChallengeOf(s, call).Some? ==>
      AgreesWith(call.world.signer.result.requestHash.payload, g, ChallengeOf(s, call).value)
  }

  predicate AgreesWith(q: Request, g: Client.Config, c: Client.Challenge) {
    && q.idempotencyKey == c.idempotencyKey && q.paymentId == Client.PaymentId(c) && q.challengeId == c.challengeId
    && q.network == c.network && q.token == c.token && q.amountUnits == Units(c.amount)
    && q.sourceTokenAccount == c.sourceTokenAccount && q.recipientTokenAccount == c.recipientTokenAccount
  }

  /** The proof a call sends rests on its own answer, and its session holds its challenge. */
  lemma NewProofAskedFor(g: Client.Config, s: Client.State, call: Client.Call, b: Client.Submission)
    requires ClientSafety.Inv(s) && Proofs.PendingInScope(g, s) && AnswersCall(g, s, call)
    requires b in Client.Step(g, s, call).0.submissions && b !in s.submissions
    ensures AskedFor(Client.Step(g, s, call).0, b)
  {
    var t := Client.Step(g, s, call).0;
    ClientSafety.StepKeeps(g, s, call);
    Proofs.StepSent(g, s, call, b);
    StepSends(g, s, call);
    assert ClientSafety.SubmissionOk(t, b);
    assert ClientSafety.SessionOk(t, b.idempotencyKey);
    SessionKeepsChallenge(g, s, call, b.idempotencyKey);
  }

  lemma SessionKeepsChallenge(g: Client.Config, s: Client.State, call: Client.Call, key: string)
    requires ClientSafety.Inv(s) && ChallengeOf(s, call).Some? && key == ChallengeOf(s, call).value.idempotencyKey
    requires key in Client.Step(g, s, call).0.sessions
    requires call.PayCall? ==> key !in s.sessions
    ensures Client.Step(g, s, call).0.sessions[key].challenge == ChallengeOf(s, call).value
  {
  }

  /** The challenges of sessions stay, so what was asked for them stays asked for. */
  lemma ClientKeepsAsked(g: Client.Config, s: Client.State, call: Client.Call)
    requires ClientSafety.Inv(s) && Proofs.PendingInScope(g, s) && AnswersCall(g, s, call) && AllAskedFor(s)
    ensures AllAskedFor(Client.Step(g, s, call).0)
  {
    ClientSafety.StepKeeps(g, s, call);
    forall b | b in Client.Step(g, s, call).0.submissions
      ensures AskedFor(Client.Step(g, s, call).0, b)
    {
      if b !in s.submissions {
        NewProofAskedFor(g, s, call, b);
      } else {
        assert AskedFor(s, b);
      }
    }
  }

  lemma GatewayAnswersCall(g: Client.Config, j: Joint, c: Client.Call, form: Request, a: Authorization, w: World)
    requires Linked(g, j) && ChallengeOf(j.client, c).Some?
    ensures var q := RequestFor(g, ChallengeOf(j.client, c).value, form);
      AnswersCall(g, j.client, Answered(c, ReplyOf(Signer.GatewayExecute(j.signer, q, a, w).1)))
  {
    var challenge := ChallengeOf(j.client, c).value;
    var q := RequestFor(g, challenge, form);
    var o := Signer.GatewayExecute(j.signer, q, a, w).1;
    if o.Returned? && Accepted(o.result.status) {
      AcceptedIsForRequest(j.signer, q, a, w);
      assert AgreesWith(q, g, challenge);
    }
  }

  lemma SignerKeeps(s: Signer.State, c: Signer.Call)
    requires Safety.Inv(Safety.CoreOf(s)) && HashesAgree(s) && Evidence.PayloadsStored(s)
    ensures HashesAgree(Signer.Step(s, c)) && Evidence.PayloadsStored(Signer.Step(s, c))
  {
    StepHashes(s, c);
    Evidence.PayloadsKeep(s, c);
  }

  lemma StepLinked(g: Client.Config, j: Joint, e: Event)
    requires Linked(g, j)
    ensures Linked(g, Step(g, j, e))
  {
    StepKeeps(g, j, e);
    match e
    case SignerEvent(c) => SignerKeeps(j.signer, c);
    case ClientEvent(c, form, a, w) =>
      var challenge := ChallengeOf(j.client, c);
      if challenge.None? || !Consults(g, j.client, c) {
        ClientKeepsScope(g, j.client, Answered(c, Client.SignerRaised));
        ClientKeepsAsked(g, j.client, Answered(c, Client.SignerRaised));
      } else {
        var q := RequestFor(g, challenge.value, form);
        var call := Answered(c, ReplyOf(Signer.GatewayExecute(j.signer, q, a, w).1));
        GatewayAnswersCall(g, j, c, form, a, w);
        ClientKeepsScope(g, j.client, call);
        ClientKeepsAsked(g, j.client, call);
        SignerKeeps(j.signer, Signer.ExecuteCall(q, a, w));
      }
  }

  lemma {:induction false} EveryRunLinked(g: Client.Config, events: seq<Event>)
    ensures Linked(g, Run(g, events))
    decreases |events|
  {
    if events == [] {
      EveryRunKeeps(g, []);
    } else {
      EveryRunLinked(g, events[..|events| - 1]);
      StepLinked(g, Run(g, events[..|events| - 1]), events[|events| - 1]);
    }
  }

  /**
   * Over any interleaving of the client's calls with anyone else's calls of the Signer: behind each proof the provider
   * got there is an accepted submission whose payload pays exactly the amount of the proof's challenge, on devnet from
   * the challenge's source account to its recipient account.
   */
  lemma EveryProofPaysItsChallenge(g: Client.Config, events: seq<Event>, b: Client.Submission)
    requires b in Run(g, events).client.submissions
    ensures b.idempotencyKey in Run(g, events).client.sessions
    ensures var j := Run(g, events);
      exists x :: x in j.signer.submissions && SubmittedFor(x, b)
                  && PaysFor(x.payload, j.client.sessions[b.idempotencyKey].challenge)
  {
    var j := Run(g, events);
    EveryRunLinked(g, events);
    EveryProofWasSubmitted(g, events, b);
    var x :| x in j.signer.submissions && SubmittedFor(x, b);
    assert Evidence.PayloadStored(j.signer, x);
    assert AskedFor(j.client, b);
    CarriedPays(x.payload, b.signer.requestHash.payload, j.client.sessions[b.idempotencyKey].challenge);
  }
}
