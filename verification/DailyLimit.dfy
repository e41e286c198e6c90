/** One client, one Signer, one day: any number of payments succeed, whatever the daily limit of the profile. */
module DailyLimit {
  import opened Results
  import opened Networks
  import opened Texts
  import opened SignerTypes
  import opened SignerPipeline
  import Profiles = PaymentProfile
  import Policy = MppPolicy
  import Client = MppClientSpec
  import Signer = SignerSpec
  import Replay = SignerReplay

  const PROGRAM := "LOCAL_TEST_PROGRAM"

  /** Payment, Task and day are each limited to 10 units. */
  function SampleConfig(): Client.Config {
    Client.Config(Profiles.SampleProfile().(programs := [PROGRAM]), Policy.Devnet, true, [], [])
  }

  function SampleChallenge(key: string, amount: nat): Client.Challenge {
    Client.Challenge(None, key, "svc", "task", "run", "trace", "corr", key, key, Local, "LOCAL_TEST_T", None,
                     Some(PROGRAM), "shop", None, None, amount, 30)
  }

  function SampleForm(key: string, hash: string, version: string, amount: nat): Request {
    Request("request", key, hash, "decision", version, "", "", "", "", "", "", "", "", "agent", "wallet",
            Replay.ZeroKey(), 1, Local, "LOCAL", PROGRAM, "LOCAL_TEST_T", None, None, None, amount, 30,
            10, 10, 10, 0, 0)
  }

  function SampleRequest(key: string, hash: string, version: string, amount: nat): Request {
    RequestFor(SampleConfig(), SampleChallenge(key, amount), SampleForm(key, hash, version, amount))
  }

  function SampleAuthorization(key: string, hash: string, version: string): Authorization {
    Authorization(key, "mpp-payment-" + key, "decision", version, None, hash, "engine", 0, 30, Issued)
  }

  function SignerWorld(key: string): World {
    World(0, 0, Some(Wallet("wallet", "agent", Local, "LOCAL", Replay.ZeroKey(), 1, ActiveWallet)), {}, true,
          BlockhashUnreachable, Reply(Submitted, Some("signature-" + key), None))
  }

  /** What the Signer answers when its next fresh number is `id`; the reservation takes that number. */
  function LocalResult(id: nat, q: Request, a: Authorization, w: World): SignerResult
    requires w.reply.Reply?
  {
    SignerResult(id + 1, q.requestId, a.id, q.paymentId, Digest(q), Submitted, q.network, q.cluster, id + 2,
                 w.reply.signature, None, w.now, w.completed)
  }

  function LocalReply(id: nat, q: Request, a: Authorization, w: World): Client.SignerReply
    requires w.reply.Reply?
  {
    Client.SignerReturned(LocalResult(id, q, a, w), Some(ReceiptOf(q, LocalResult(id, q, a, w), w.now)))
  }

  function SampleReply(id: nat, key: string, hash: string, version: string, amount: nat): Client.SignerReply {
    LocalReply(id, SampleRequest(key, hash, version, amount), SampleAuthorization(key, hash, version), SignerWorld(key))
  }

  /** The provider answers 200 with the receipt of the proof. */
  function ClientWorld(id: nat, key: string): Client.World {
    var receipt :=
      Client.ProviderReceipt("receipt", "mpp-payment-" + key, key, "request", id + 1, "signature-" + key);
    Client.World(0, {}, true, true, Client.SignerRaised, Client.Response(200, Some(receipt)))
  }

  function PayEvent(id: nat, key: string, hash: string, version: string, amount: nat): Event {
    ClientEvent(Client.PayCall(SampleChallenge(key, amount), ClientWorld(id, key)),
                SampleForm(key, hash, version, amount), SampleAuthorization(key, hash, version), SignerWorld(key))
  }

  /** One payment per key; each uses three fresh numbers of the Signer. */
  function Payments(keys: seq<string>, hash: string, version: string, amount: nat): seq<Event> {
    if keys == [] then []
    else
      var before := keys[..|keys| - 1];
      Payments(before, hash, version, amount) + [PayEvent(3 * |before|, keys[|before|], hash, version, amount)]
  }

  // ----- One payment

  predicate UnknownToClient(s: Client.State, key: string) {
    key !in s.sessions && (key, key) !in s.challengeKeys
  }

  predicate UnknownToSigner(s: Signer.State, key: string) {
    && key !in s.results && ("wallet", key) !in s.nonces && key !in s.ledger.reservations
    && key !in s.registry.authorizations && key !in s.registry.revoked && key !in s.registry.consumed
  }

  predicate Unknown(j: Joint, key: string) {
    UnknownToClient(j.client, key) && UnknownToSigner(j.signer, key)
  }

  lemma SampleIsAllowed(key: string, amount: nat)
    requires 0 < amount <= 10
    ensures var c := Client.ContextOf(SampleConfig(), SampleChallenge(key, amount), true, None);
      Policy.EvaluateContext(c, {}, 0).Allow?
  {
    var c := Client.ContextOf(SampleConfig(), SampleChallenge(key, amount), true, None);
    assert Upper("ACTIVE") == "ACTIVE";
    assert Folded("shop")[0] == 's';
    assert !Policy.InternalRecipient("shop");
    assert Policy.Boundary(c, {}, 0).None?;
    assert Policy.ProfileVerdict(c, SampleConfig().profile, 0).decision.Allow?;
  }

  /**
   * What the Signer has learnt from one accepted payment: one key, nonce and authorization, and nothing of any other.
   */
  predicate Learns(s: Signer.State, t: Signer.State, key: string) {
    && t.results.Keys == s.results.Keys + {key} && t.nonces.Keys == s.nonces.Keys + {("wallet", key)}
    && t.ledger.reservations.Keys == s.ledger.reservations.Keys + {key}
    && t.registry.authorizations.Keys == s.registry.authorizations.Keys + {key}
    && t.registry.revoked == s.registry.revoked && t.registry.consumed == s.registry.consumed + {key}
    && t.nextId == s.nextId + 3
  }

  /** The request passes every check of the Signer that does not look at its ledgers. */
  predicate PassesChecks(q: Request, a: Authorization, w: World) {
    && q.authorizationId == a.id && q.authorizationHash == a.hash && q.paymentId == a.paymentId
    && q.policyDecisionId == a.policyDecisionId && q.policyVersion == a.policyVersion
    && a.status.Issued? && a.expiresAt > w.now && q.expiresAt > w.now
    && w.wallet.Some? && WalletMismatch(w.wallet.value, q).None? && !StopActive(w.stops, q)
    && q.amountUnits <= q.perPaymentLimit && q.amountUnits + q.taskSpent <= q.perTaskLimit
    && q.amountUnits + q.dailySpent <= q.dailyLimit
  }

  function Admitted(s: Signer.State, q: Request): Signer.State {
    s.(ledger := s.ledger.(reservations :=
         s.ledger.reservations[q.idempotencyKey := Reservation(Digest(q), q.amountUnits, s.nextId)]),
       nextId := s.nextId + 1, nonces := s.nonces[(q.walletId, q.nonce) := Digest(q)])
  }

  lemma FreshIsAdmitted(s: Signer.State, q: Request, a: Authorization, w: World)
    requires PassesChecks(q, a, w) && q.idempotencyKey !in s.ledger.reservations
    requires a.id in s.registry.authorizations && s.registry.authorizations[a.id] == a
    requires a.id !in s.registry.revoked && a.id !in s.registry.consumed
    ensures Signer.Admit(s, q, a, w) == Success(Admitted(s, q))
  {
    assert Unusable(s.registry, a, q, w.now).None?;
  }

  predicate AnswersLocally(q: Request, w: World) {
    && q.network.Local? && w.keyReadable && w.reply.Reply? && w.reply.status.Submitted?
  }

  lemma LocalIsSubmitted(s: Signer.State, q: Request, a: Authorization, w: World)
    requires AnswersLocally(q, w) && q.idempotencyKey in s.ledger.reservations
    requires a.id in s.registry.authorizations && a.id !in s.registry.revoked
    ensures var (t, o) := Signer.Perform(s, q, a, w);
      var result := SignerResult(s.nextId, q.requestId, a.id, q.paymentId, Digest(q), Submitted, q.network, q.cluster,
                                 s.nextId + 1, w.reply.signature, None, w.now, w.completed);
      && o == Signer.Returned(result, ReceiptOf(q, result, w.now))
      && t.results.Keys == s.results.Keys + {q.idempotencyKey} && t.nonces == s.nonces
      && t.ledger.reservations == s.ledger.reservations
      && t.registry == s.registry.(consumed := s.registry.consumed + {a.id}) && t.nextId == s.nextId + 2
  {
  }

  function Registered(s: Signer.State, a: Authorization): Signer.State {
    s.(registry := s.registry.(authorizations := s.registry.authorizations[a.id := a]))
  }

  lemma LocalSigns(s: Signer.State, q: Request, a: Authorization, w: World)
    requires UnknownToSigner(s, q.idempotencyKey) && PassesChecks(q, a, w) && AnswersLocally(q, w)
    requires a.id == q.nonce == q.idempotencyKey && q.walletId == "wallet"
    ensures var (t, o) := Signer.GatewayExecute(s, q, a, w);
      ReplyOf(o) == LocalReply(s.nextId, q, a, w) && Learns(s, t, q.idempotencyKey)
  {
    var s0 := Registered(s, a);
    var s1 := s0.(audit := s0.audit + [RequestReceived(q.requestId)]);
    FreshIsAdmitted(s1, q, a, w);
    LocalIsSubmitted(Admitted(s1, q), q, a, w);
    assert Signer.RegisterIn(s, a) == Success(s0);
    assert Signer.Execute(s0, q, a, w) == Signer.Perform(Admitted(s1, q), q, a, w);
  }

  lemma SamplePasses(key: string, hash: string, version: string, amount: nat)
    requires 0 < amount <= 10
    ensures var q := SampleRequest(key, hash, version, amount);
      && PassesChecks(q, SampleAuthorization(key, hash, version), SignerWorld(key))
      && AnswersLocally(q, SignerWorld(key))
      && q.idempotencyKey == q.nonce == key && q.walletId == "wallet" && q.network.Local? && q.cluster == "LOCAL"
  {
  }

  lemma SignerSigns(s: Signer.State, key: string, hash: string, version: string, amount: nat)
    requires UnknownToSigner(s, key) && 0 < amount <= 10
    ensures var q, a := SampleRequest(key, hash, version, amount), SampleAuthorization(key, hash, version);
      var (t, o) := Signer.GatewayExecute(s, q, a, SignerWorld(key));
      ReplyOf(o) == SampleReply(s.nextId, key, hash, version, amount) && Learns(s, t, key)
  {
    SamplePasses(key, hash, version, amount);
    LocalSigns(s, SampleRequest(key, hash, version, amount), SampleAuthorization(key, hash, version), SignerWorld(key));
  }

  /** What a payment that succeeds at once leaves in the client. */
  predicate Pays(s: Client.State, t: Client.State, o: Client.Outcome, c: Client.Challenge) {
    && o.Success? && o.value.status.Succeeded?
    && t.sessions.Keys == s.sessions.Keys + {c.idempotencyKey}
    && t.sessions[c.idempotencyKey].challenge == c && t.sessions[c.idempotencyKey].result == Some(o.value)
    && t.sessions - {c.idempotencyKey} == s.sessions - {c.idempotencyKey}
    && t.challengeKeys.Keys == s.challengeKeys.Keys + {(c.challengeId, c.nonce)}
  }

  /** A Signer result and receipt that become a proof the provider confirms. */
  predicate Confirmed(c: Client.Challenge, w: Client.World) {
    && w.requestBuilds && w.signer.SignerReturned? && Accepted(w.signer.result.status) && w.signer.receipt.Some?
    && var proof := Client.ProofOf(c, w.signer.result, w.signer.receipt.value);
      proof.Some? && Client.ProviderConfirms(proof.value, w)
  }

  lemma ConfirmedPays(s: Client.State, session: Client.Session, d: Profiles.Decision, w: Client.World)
    requires Confirmed(session.challenge, w)
    ensures var (t, o) := Client.ExecuteAndRetry(s, session, d, w);
      && o.Success? && o.value.status.Succeeded? && o.value.signerReply == Some(w.signer)
      && t.challengeKeys == s.challengeKeys
      && t.sessions == s.sessions[session.challenge.idempotencyKey :=
           session.(result := Some(o.value), sequence := session.sequence + 1)]
  {
  }

  lemma AllowedPays(g: Client.Config, s: Client.State, c: Client.Challenge, w: Client.World)
    requires c.idempotencyKey !in s.sessions && (c.challengeId, c.nonce) !in s.challengeKeys && w.paymentValid
    requires g.phase.Devnet? && g.serviceRegistered && !Client.ProfileMismatch(g, c) && !Client.ScopeMismatch(g, c)
    requires Policy.EvaluateContext(Client.ContextOf(g, c, true, None), w.stops, w.now).Allow? && Confirmed(c, w)
    ensures var (t, o) := Client.Pay(g, s, c, w);
      Pays(s, t, o, c) && o.value.signerReply == Some(w.signer)
  {
    var session := Client.Session(c, None, None, 0);
    var s1 := s.(challengeKeys := s.challengeKeys[(c.challengeId, c.nonce) := c.idempotencyKey],
                 sessions := s.sessions[c.idempotencyKey := session]);
    ConfirmedPays(s1, session.(decision := Some(Profiles.Allow)), Profiles.Allow, w);
    assert Client.Pay(g, s, c, w)
      == Client.ExecuteAndRetry(s1, session.(decision := Some(Profiles.Allow)), Profiles.Allow, w);
  }

  lemma SampleIsConfirmed(key: string, hash: string, version: string, amount: nat, id: nat)
    ensures Confirmed(SampleChallenge(key, amount),
                      ClientWorld(id, key).(signer := SampleReply(id, key, hash, version, amount)))
  {
  }

  lemma SampleFits(key: string, amount: nat)
    ensures var g, c := SampleConfig(), SampleChallenge(key, amount);
      g.phase.Devnet? && g.serviceRegistered && !Client.ProfileMismatch(g, c) && !Client.ScopeMismatch(g, c)
  {
  }

  function PaidWorld(id: nat, key: string, hash: string, version: string, amount: nat): (w: Client.World)
    ensures w.paymentValid && w.now == 0 && w.stops == {}
    ensures w.signer == SampleReply(id, key, hash, version, amount)
  {
    ClientWorld(id, key).(signer := SampleReply(id, key, hash, version, amount))
  }

  lemma ClientPays(s: Client.State, key: string, hash: string, version: string, amount: nat, id: nat)
    requires UnknownToClient(s, key) && 0 < amount <= 10
    ensures var c, w := SampleChallenge(key, amount), PaidWorld(id, key, hash, version, amount);
      var (t, o) := Client.Pay(SampleConfig(), s, c, w);
      Pays(s, t, o, c) && o.value.signerReply == Some(w.signer)
  {
    var c, w := SampleChallenge(key, amount), PaidWorld(id, key, hash, version, amount);
    SampleIsAllowed(key, amount);
    SampleFits(key, amount);
    SampleIsConfirmed(key, hash, version, amount, id);
    AllowedPays(SampleConfig(), s, c, w);
  }

  lemma RaisedDoesNotSucceed(g: Client.Config, s: Client.State, c: Client.Challenge, w: Client.World)
    requires c.idempotencyKey !in s.sessions && w.signer.SignerRaised?
    ensures var o := Client.Pay(g, s, c, w).1;
      o.Success? ==> !o.value.status.Succeeded?
  {
  }

  /** The key's payment succeeded. */
  predicate Paid(s: Client.State, key: string, amount: nat) {
    && key in s.sessions && s.sessions[key].challenge == SampleChallenge(key, amount)
    && s.sessions[key].result.Some? && s.sessions[key].result.value.status.Succeeded?
  }

  lemma PaymentConsults(s: Client.State, key: string, hash: string, version: string, amount: nat, id: nat)
    requires UnknownToClient(s, key) && 0 < amount <= 10
    ensures Consults(SampleConfig(), s, Client.PayCall(SampleChallenge(key, amount), ClientWorld(id, key)))
  {
    var g, c, reply := SampleConfig(), SampleChallenge(key, amount), SampleReply(id, key, hash, version, amount);
    var call := Client.PayCall(c, ClientWorld(id, key));
    ClientPays(s, key, hash, version, amount, id);
    RaisedDoesNotSucceed(g, s, c, ClientWorld(id, key));
    assert Client.Step(g, s, Answered(call, reply)) != Client.Step(g, s, Answered(call, Client.SignerRaised));
  }

  lemma PaymentSteps(j: Joint, key: string, hash: string, version: string, amount: nat)
    requires Unknown(j, key) && 0 < amount <= 10
    ensures var j' := Step(SampleConfig(), j, PayEvent(j.signer.nextId, key, hash, version, amount));
      var c, w := SampleChallenge(key, amount), PaidWorld(j.signer.nextId, key, hash, version, amount);
      Pays(j.client, j'.client, Client.Pay(SampleConfig(), j.client, c, w).1, c) && Learns(j.signer, j'.signer, key)
  {
    SignerSigns(j.signer, key, hash, version, amount);
    ClientPays(j.client, key, hash, version, amount, j.signer.nextId);
    PaymentConsults(j.client, key, hash, version, amount, j.signer.nextId);
  }

  lemma OthersPaid(s: Client.State, t: Client.State, key: string, other: string, amount: nat)
    requires t.sessions - {key} == s.sessions - {key} && other != key && Paid(s, other, amount)
    ensures Paid(t, other, amount)
  {
    assert other in s.sessions - {key};
    assert other in t.sessions && t.sessions[other] == (t.sessions - {key})[other] == (s.sessions - {key})[other];
  }

  lemma OthersUnknown(j: Joint, j': Joint, key: string, other: string)
    requires Learns(j.signer, j'.signer, key) && other != key && Unknown(j, other)
    requires j'.client.sessions.Keys == j.client.sessions.Keys + {key}
    requires j'.client.challengeKeys.Keys == j.client.challengeKeys.Keys + {(key, key)}
    ensures Unknown(j', other)
  {
  }

  /** The key is paid, with three numbers of the supply, and every other one is as fresh or as paid as it was. */
  ghost predicate PaidOnce(j: Joint, j': Joint, key: string, amount: nat) {
      && Paid(j'.client, key, amount) && j'.signer.nextId == j.signer.nextId + 3
      && (forall other :: other != key && Unknown(j, other) ==> Unknown(j', other))
      && (forall other :: other != key && Paid(j.client, other, amount) ==> Paid(j'.client, other, amount))
  }

  /**
   * Whatever happened before, a payment under fresh identifiers succeeds, and leaves all others as fresh or as paid as
   * they were.
   */
  lemma FreshPaymentSucceeds(j: Joint, key: string, hash: string, version: string, amount: nat)
    requires Unknown(j, key) && 0 < amount <= 10
    ensures var j' := Step(SampleConfig(), j, PayEvent(j.signer.nextId, key, hash, version, amount));
      PaidOnce(j, j', key, amount)
  {
    var j' := Step(SampleConfig(), j, PayEvent(j.signer.nextId, key, hash, version, amount));
    PaymentSteps(j, key, hash, version, amount);
    forall other | other != key && Unknown(j, other)
      ensures Unknown(j', other)
    {
      OthersUnknown(j, j', key, other);
    }
    forall other | other != key && Paid(j.client, other, amount)
      ensures Paid(j'.client, other, amount)
    {
      OthersPaid(j.client, j'.client, key, other, amount);
    }
  }

  // ----- Many payments

  /** Exactly the keys were used, and each was paid. */
  ghost predicate AllPaid(j: Joint, keys: seq<string>, amount: nat) {
    && j.signer.nextId == 3 * |keys|
    && (forall n :: 0 <= n < |keys| ==> Paid(j.client, keys[n], amount))
    && (forall other :: other !in keys ==> Unknown(j, other))
  }

  lemma OneMore(j: Joint, j': Joint, keys: seq<string>, key: string, amount: nat)
    requires AllPaid(j, keys, amount) && key !in keys && PaidOnce(j, j', key, amount)
    ensures AllPaid(j', keys + [key], amount)
  {
    forall n | 0 <= n < |keys|
      ensures Paid(j'.client, keys[n], amount)
    {
      assert keys[n] != key && Paid(j.client, keys[n], amount);
    }
  }

  lemma OneMorePaid(j: Joint, keys: seq<string>, key: string, hash: string, version: string, amount: nat)
    requires AllPaid(j, keys, amount) && key !in keys && 0 < amount <= 10
    ensures AllPaid(Step(SampleConfig(), j, PayEvent(3 * |keys|, key, hash, version, amount)), keys + [key], amount)
  {
    FreshPaymentSucceeds(j, key, hash, version, amount);
    OneMore(j, Step(SampleConfig(), j, PayEvent(3 * |keys|, key, hash, version, amount)), keys, key, amount);
  }

  lemma StartIsUnpaid(amount: nat)
    ensures AllPaid(START, [], amount)
  {
  }

  lemma RunGrows(events: seq<Event>, e: Event)
    ensures Run(SampleConfig(), events + [e]) == Step(SampleConfig(), Run(SampleConfig(), events), e)
  {
    assert (events + [e])[..|events + [e]| - 1] == events;
  }

  lemma NextPaid(events: seq<Event>, keys: seq<string>, key: string, hash: string, version: string, amount: nat)
    requires AllPaid(Run(SampleConfig(), events), keys, amount) && key !in keys && 0 < amount <= 10
    ensures AllPaid(Run(SampleConfig(), events + [PayEvent(3 * |keys|, key, hash, version, amount)]), keys + [key],
                    amount)
  {
    RunGrows(events, PayEvent(3 * |keys|, key, hash, version, amount));
    OneMorePaid(Run(SampleConfig(), events), keys, key, hash, version, amount);
  }

  predicate Distinct(keys: seq<string>) {
    forall m, n :: 0 <= m < n < |keys| ==> keys[m] != keys[n]
  }

  lemma DistinctLast(keys: seq<string>)
    requires keys != [] && Distinct(keys)
    ensures Distinct(keys[..|keys| - 1]) && keys[|keys| - 1] !in keys[..|keys| - 1]
    ensures keys == keys[..|keys| - 1] + [keys[|keys| - 1]]
  {
  }

  lemma {:induction false} PaymentsSucceed(keys: seq<string>, hash: string, version: string, amount: nat)
    requires 0 < amount <= 10 && Distinct(keys)
    ensures AllPaid(Run(SampleConfig(), Payments(keys, hash, version, amount)), keys, amount)
    decreases |keys|
  {
    if keys == [] {
      StartIsUnpaid(amount);
    } else {
      var before := keys[..|keys| - 1];
      DistinctLast(keys);
      PaymentsSucceed(before, hash, version, amount);
      NextPaid(Payments(before, hash, version, amount), before, keys[|before|], hash, version, amount);
    }
  }

  /** What the client has spent successfully under the keys. */
  function Spent(s: Client.State, keys: seq<string>): int {
    if keys == [] then 0
    else
      var last := keys[|keys| - 1];
      Spent(s, keys[..|keys| - 1])
      + if last in s.sessions && s.sessions[last].result.Some? && s.sessions[last].result.value.status.Succeeded?
        then s.sessions[last].challenge.amount else 0
  }

  lemma {:induction false} SpentOnPaid(s: Client.State, keys: seq<string>, amount: nat)
    requires forall n :: 0 <= n < |keys| ==> Paid(s, keys[n], amount)
    ensures Spent(s, keys) == |keys| * amount
    decreases |keys|
  {
    if keys != [] {
      SpentOnPaid(s, keys[..|keys| - 1], amount);
    }
  }

  /**
   * For every amount up to the limits and every number of distinct keys there is a run, all on one day and one Task, in
   * which the policy engine, the Signer and the provider accept each payment: together they exceed the daily and the
   * Task limit as soon as their number does not fit.
   */
  lemma DailyLimitExceeded(keys: seq<string>, hash: string, version: string, amount: nat)
    requires 0 < amount <= 10 && Distinct(keys)
    ensures var g, j := SampleConfig(), Run(SampleConfig(), Payments(keys, hash, version, amount));
      && Profiles.Valid(g.profile) && g.profile.daily == g.profile.perTask == 10
      && Spent(j.client, keys) == |keys| * amount
  {
    PaymentsSucceed(keys, hash, version, amount);
    SpentOnPaid(Run(SampleConfig(), Payments(keys, hash, version, amount)).client, keys, amount);
  }
}
