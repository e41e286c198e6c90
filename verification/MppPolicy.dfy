/** The MPP Policy Engine, and its agreement with the budget ledgers that must honour what it allows. */
module MppPolicy {
  import opened Results
  import opened Networks
  import opened PaymentProfile
  import opened Texts
  import Ledger = BudgetLedger
  import Sql = BudgetSql

  datatype Phase = LocalPhase | Devnet | Testnet | Mainnet

  datatype Context = Context(
    paymentId: string, idempotencyKey: string, taskId: string, runId: string, traceId: string, correlationId: string,
    agentId: string, serviceId: string, programId: Option<string>, recipient: string, recipientKind: string,
    network: string, token: string, amount: int, purpose: string, expiresAt: int, phase: Phase,
    profile: Option<Profile>, serviceRegistered: bool, profileAllows: bool, taskBound: bool, runBound: bool,
    agentStatus: string, providerId: Option<string>, providerStatus: string, mppStatus: string, signerStatus: string,
    taskSpent: int, dailySpent: int, budgetAvailable: Option<int>,
    forceOwnerApproval: bool, profileChangeRequested: bool, walletChangeRequested: bool, networkChangeRequested: bool,
    programUpgradeRequested: bool, ownerAuthorityOperation: bool, rewardOrTreasuryOperation: bool,
    ownerApprovalId: Option<string>, approvalVerified: bool,
    allowlistExceptionRequiresApproval: bool, overLimitRequiresApproval: bool)

  predicate InternalRecipient(recipient: string) {
    var folded := Folded(recipient);
    || "agent:" <= folded || "agent-" <= folded || "owner:" <= folded || "owner-" <= folded
    || "treasury:" <= folded || "treasury-" <= folded || "ledger:" <= folded || "ledger-" <= folded
  }

  predicate Running(status: string) {
    Upper(status) == "ACTIVE"
  }

  predicate MppPhase(p: Phase) {
    p.Devnet? || p.Testnet?
  }

  /** An active stop control, as pairs of target and identifier. */
  predicate Stopped(stops: set<(string, string)>, c: Context) {
    || ("MPP", "*") in stops
    || ("PAYMENT", c.paymentId) in stops
    || ("AGENT", c.agentId) in stops
    || ("RUN", c.runId) in stops
    || ("PROVIDER", if c.providerId.Some? && c.providerId.value != "" then c.providerId.value else "*") in stops
    || ("SIGNER", "*") in stops
  }

  /** The reason texts that contain "outside", "exceeds" or "limit". */
  predicate ExceptionCandidate(r: Reason) {
    || r.ServiceOutside? || r.RecipientOutside? || r.NetworkOutside? || r.TokenOutside? || r.PurposeOutside?
    || r.ProgramOutside? || r.ExceedsPayment? || r.ExceedsTask? || r.ExceedsDaily? || r.ExceedsExpiry?
  }

  function RequestOf(c: Context, n: Network, now: int): PaymentRequest {
    PaymentRequest(c.agentId, c.serviceId, c.recipient, n, c.token, c.amount, c.purpose, Some(c.expiresAt), c.programId,
                   c.taskSpent, c.dailySpent, now)
  }

  predicate FlagsNeedOwner(c: Context) {
    || c.forceOwnerApproval || c.profileChangeRequested || c.walletChangeRequested || c.networkChangeRequested
    || c.programUpgradeRequested || c.ownerAuthorityOperation || c.rewardOrTreasuryOperation
  }

  function ContextRequest(c: Context, now: int): PaymentRequest {
    RequestOf(c, if c.network == "LOCAL" then Local else SolanaDevnet, now)
  }

  function ProfileVerdict(c: Context, p: Profile, now: int): Evaluation {
    Evaluate(p, ContextRequest(c, now))
  }

  /** The guards in front of the profile; None when they all pass. */
  function Boundary(c: Context, stops: set<(string, string)>, now: int): Option<Decision> {
    if !c.taskBound || !c.runBound then Some(Deny)
    else if c.correlationId == "" || c.traceId == "" then Some(Deny)
    else if c.recipientKind != "SERVICE" then Some(Deny)
    else if c.recipient == c.agentId || InternalRecipient(c.recipient) then Some(Deny)
    else if c.purpose != "SERVICE_PAYMENT" then Some(Deny)
    else if c.network != "LOCAL" && c.network != "SOLANA_DEVNET" then Some(Deny)
    else if !MppPhase(c.phase) then Some(Deny)
    else if c.expiresAt <= now then Some(Deny)
    else if !Running(c.agentStatus) || !Running(c.providerStatus) then Some(Deny)
    else if !Running(c.mppStatus) || !Running(c.signerStatus) then Some(Deny)
    else if !c.serviceRegistered then Some(RequireOwnerApproval)
    else if Stopped(stops, c) then Some(Deny)
    else if !c.profileAllows then Some(RequireOwnerApproval)
    else if c.profile.None? || !c.profile.value.status.Active? || !c.profile.value.rotation.Current? then Some(Deny)
    else None
  }

  function EvaluateContext(c: Context, stops: set<(string, string)>, now: int): Decision {
    var boundary := Boundary(c, stops, now);
    if boundary.Some? then boundary.value
    else
      var p := c.profile.value;
      var verdict := ProfileVerdict(c, p, now);
      var exempted := ExceptionCandidate(verdict.reason)
        && (c.allowlistExceptionRequiresApproval || c.overLimitRequiresApproval);
      if verdict.decision.Deny? && !exempted then Deny
      else if verdict.decision.Deny? && !c.approvalVerified then RequireOwnerApproval
      else
        var overBudget := c.budgetAvailable.Some? && c.amount > c.budgetAvailable.value;
        var approvalRequired := FlagsNeedOwner(c) || p.risk.High? || p.risk.Critical?
          || verdict.decision.RequireOwnerApproval?;
        if overBudget && !c.approvalVerified then RequireOwnerApproval
        else if !overBudget && approvalRequired && !c.approvalVerified then RequireOwnerApproval
        else if c.approvalVerified && c.ownerApprovalId.None? then Deny
        else Allow
  }

  // ----- What ALLOW means

  /**
   * Without a verified approval the engine allows exactly what the profile allows, inside the boundary and with nothing
   * raised to the Owner.
   */
  lemma AllowExactly(c: Context, stops: set<(string, string)>, now: int)
    requires !c.approvalVerified
    ensures EvaluateContext(c, stops, now).Allow? <==>
      && Boundary(c, stops, now).None?
      && ProfileVerdict(c, c.profile.value, now).decision.Allow?
      && !FlagsNeedOwner(c) && !c.profile.value.risk.High? && !c.profile.value.risk.Critical?
      && (c.budgetAvailable.Some? ==> c.amount <= c.budgetAvailable.value)
  {
  }

  predicate Exempts(c: Context) {
    c.allowlistExceptionRequiresApproval || c.overLimitRequiresApproval
  }

  /**
   * With a verified approval: ALLOW exactly when every guard passes, the approval has an identifier, and the profile
   * refuses the payment, if at all, for one of its exception reasons.
   */
  lemma ApprovedAllowExactly(c: Context, stops: set<(string, string)>, now: int)
    requires c.approvalVerified
    ensures EvaluateContext(c, stops, now).Allow? <==>
      && Boundary(c, stops, now).None? && c.ownerApprovalId.Some?
      && (ProfileVerdict(c, c.profile.value, now).decision.Deny? ==>
            Exempts(c) && ExceptionCandidate(ProfileVerdict(c, c.profile.value, now).reason))
  {
  }

  /**
   * What the Owner's approval can change: it turns REQUIRE_OWNER_APPROVAL into ALLOW, unless that came from an
   * unregistered Service or the registry's own flag, and changes no other decision.
   */
  lemma ApprovalLiftsExactly(c: Context, stops: set<(string, string)>, now: int, id: string)
    requires !c.approvalVerified
    ensures var d, approved := EvaluateContext(c, stops, now),
        c.(approvalVerified := true, ownerApprovalId := Some(id));
      EvaluateContext(approved, stops, now)
      == if d.RequireOwnerApproval? && c.serviceRegistered && c.profileAllows then Allow else d
  {
    var approved := c.(approvalVerified := true, ownerApprovalId := Some(id));
    assert Boundary(approved, stops, now) == Boundary(c, stops, now);
    if Boundary(c, stops, now).None? {
      assert ProfileVerdict(approved, c.profile.value, now) == ProfileVerdict(c, c.profile.value, now);
    }
  }

  // ----- When narrowing a profile loosens a decision

  /** The request lies inside the profile's allowlists; a missing allowlist of programs is not looked at yet. */
  predicate InScope(p: Profile, r: PaymentRequest) {
    && p.serviceId == r.serviceId && r.serviceId in p.services
    && p.recipient == r.recipient && r.recipient in p.recipients
    && r.network == p.network && r.token in p.tokens && r.purpose in p.purposes
    && (p.programs != [] ==> r.programId.Some? && r.programId.value in p.programs)
  }

  predicate WellFormed(p: Profile, r: PaymentRequest) {
    (p.programs == [] ==> r.programId.None?) && r.amount > 0
  }

  predicate InLimits(p: Profile, r: PaymentRequest) {
    r.amount <= p.perPayment && r.amount + r.taskSpent <= p.perTask && r.amount + r.dailySpent <= p.daily
  }

  predicate Timely(r: PaymentRequest) {
    r.taskSpent >= 0 && r.dailySpent >= 0 && (r.expiresAt.Some? ==> r.expiresAt.value > r.now)
  }

  predicate InExpiry(p: Profile, r: PaymentRequest) {
    r.expiresAt.Some? ==> r.expiresAt.value - r.now <= p.maxExpirySeconds
  }

  /** Refusals that no approval lifts: those that do not come from an allowlist, a limit or the allowed expiry. */
  predicate RefusedForGood(p: Profile, r: PaymentRequest) {
    || p.expiresAt <= r.now || p.agentId != r.agentId
    || (InScope(p, r) &&
          (|| !WellFormed(p, r)
           || (InLimits(p, r) && (!Timely(r) || (InExpiry(p, r) && p.mode.DenyAll?)))))
  }

  /**
   * Refusals an approval may lift: outside an allowlist, above a limit or too long to expire, with nothing worse found
   * first.
   */
  predicate RefusedForNow(p: Profile, r: PaymentRequest) {
    && p.expiresAt > r.now && p.agentId == r.agentId
    && (|| !InScope(p, r)
        || (WellFormed(p, r) && (!InLimits(p, r) || (Timely(r) && !InExpiry(p, r)))))
  }

  lemma RefusalKinds(p: Profile, r: PaymentRequest)
    requires p.status.Active? && p.rotation.Current?
    ensures RefusedForGood(p, r) <==> Evaluate(p, r).decision.Deny? && !ExceptionCandidate(Evaluate(p, r).reason)
    ensures RefusedForNow(p, r) <==> Evaluate(p, r).decision.Deny? && ExceptionCandidate(Evaluate(p, r).reason)
  {
  }

  /**
   * A narrower profile allows an approved payment that the current one does not exactly when every guard passes, the
   * approval has an identifier, exceptions are open to approval, the current profile refuses the payment for good and
   * the narrower one only for now: the tightened list, limit or expiry is found before the refusal that no approval
   * lifts.
   */
  lemma NarrowingLoosensExactly(c: Context, next: Profile, stops: set<(string, string)>, now: int)
    requires c.profile.Some? && Valid(c.profile.value) && Valid(next) && Narrows(c.profile.value, next)
    requires c.approvalVerified
    ensures var r := ContextRequest(c, now);
      (!EvaluateContext(c, stops, now).Allow? && EvaluateContext(c.(profile := Some(next)), stops, now).Allow?)
      <==>
      && Boundary(c, stops, now).None? && c.ownerApprovalId.Some? && Exempts(c)
      && RefusedForGood(c.profile.value, r) && RefusedForNow(next, r)
  {
    var d, r := c.(profile := Some(next)), ContextRequest(c, now);
    ApprovedAllowExactly(c, stops, now);
    ApprovedAllowExactly(d, stops, now);
    assert Boundary(d, stops, now) == Boundary(c, stops, now);
    NarrowerDecides(c.profile.value, next, r);
    if Boundary(c, stops, now).None? {
      assert ProfileVerdict(c, c.profile.value, now) == Evaluate(c.profile.value, r);
      assert ProfileVerdict(d, next, now) == Evaluate(next, r);
      RefusalKinds(c.profile.value, r);
      RefusalKinds(next, r);
    }
  }

  /** What a usable profile allows on its own: inside every list, limit and time, and approved automatically. */
  predicate LetsPass(p: Profile, r: PaymentRequest) {
    && p.expiresAt > r.now && p.agentId == r.agentId
    && InScope(p, r) && WellFormed(p, r) && InLimits(p, r) && Timely(r) && InExpiry(p, r)
    && p.mode.AutoAllow? && r.amount <= p.autoLimit
  }

  lemma LetsPassExactly(p: Profile, r: PaymentRequest)
    requires p.status.Active? && p.rotation.Current?
    ensures Evaluate(p, r).decision.Allow? <==> LetsPass(p, r)
  {
  }

  predicate Risky(p: Profile) {
    p.risk.High? || p.risk.Critical?
  }

  /** Nothing but the profile's risk level is left to raise the payment to the Owner. */
  predicate OwnerNotNeeded(c: Context) {
    !FlagsNeedOwner(c) && (c.budgetAvailable.Some? ==> c.amount <= c.budgetAvailable.value)
  }

  /**
   * An update that passes the gate without an approval newly allows an unapproved payment exactly when the new profile
   * lets it pass, nothing else needs the Owner, the new risk level is below HIGH, and either the old one was not or the
   * update re-targets, re-activates, rotates or empties the program allowlist of the profile.
   */
  lemma UpdateLoosensExactly(c: Context, next: Profile, stops: set<(string, string)>, now: int)
    requires c.profile.Some? && Valid(c.profile.value) && Valid(next)
    requires !Expands(c.profile.value, next) && c.profile.value.agentId == next.agentId
    requires !c.approvalVerified
    ensures var d := c.(profile := Some(next));
      (!EvaluateContext(c, stops, now).Allow? && EvaluateContext(d, stops, now).Allow?)
      <==>
      && Boundary(d, stops, now).None? && LetsPass(next, ContextRequest(c, now)) && OwnerNotNeeded(c) && !Risky(next)
      && (Risky(c.profile.value) || Reopens(c.profile.value, next))
  {
    var d, r := c.(profile := Some(next)), ContextRequest(c, now);
    AllowExactly(c, stops, now);
    AllowExactly(d, stops, now);
    if Boundary(d, stops, now).None? {
      assert ProfileVerdict(d, next, now) == Evaluate(next, r);
      LetsPassExactly(next, r);
      LooserExactly(c.profile.value, next, r);
      if Boundary(c, stops, now).None? {
        assert ProfileVerdict(c, c.profile.value, now) == Evaluate(c.profile.value, r);
      }
    }
  }

  /** For a narrower profile only a risk level lowered below HIGH is left: the update gate does not look at it. */
  lemma LowerRiskLoosensExactly(c: Context, next: Profile, stops: set<(string, string)>, now: int)
    requires c.profile.Some? && Valid(c.profile.value) && Valid(next) && Narrows(c.profile.value, next)
    requires !c.approvalVerified
    ensures
      (!EvaluateContext(c, stops, now).Allow? && EvaluateContext(c.(profile := Some(next)), stops, now).Allow?)
      <==>
      && Boundary(c, stops, now).None? && LetsPass(next, ContextRequest(c, now)) && OwnerNotNeeded(c)
      && Risky(c.profile.value) && !Risky(next)
  {
    UpdateLoosensExactly(c, next, stops, now);
    assert Boundary(c.(profile := Some(next)), stops, now) == Boundary(c, stops, now);
  }

  function SampleContext(p: Profile): Context {
    Context("pay", "key", "task", "run", "trace", "corr", "agent", "svc", Some("prog"), "shop", "SERVICE", "LOCAL",
            "LOCAL_TEST_T", 5, "SERVICE_PAYMENT", 30, Devnet, Some(p), true, true, true, true, "ACTIVE", None, "ACTIVE",
            "ACTIVE", "ACTIVE", 0, 0, None, false, false, false, false, false, false, false, Some("approval"), false,
            true, true)
  }

  /**
   * So it happens: a profile that refuses every payment denies one within its limits even with an approval, and a lower
   * payment limit turns that into ALLOW.
   */
  lemma TighterLimitOverridesRefusal()
    ensures var p := SampleProfile().(mode := DenyAll, autoLimit := 0);
      var q := p.(perPayment := 3);
      && Valid(p) && Valid(q) && Narrows(p, q)
      && EvaluateContext(SampleContext(p).(approvalVerified := true), {}, 0).Deny?
      && EvaluateContext(SampleContext(q).(approvalVerified := true), {}, 0).Allow?
  {
    var p := SampleProfile().(mode := DenyAll, autoLimit := 0);
    var q := p.(perPayment := 3);
    assert Upper("ACTIVE") == "ACTIVE";
    assert Folded("shop")[0] == 's';
    assert !InternalRecipient("shop");
    assert Boundary(SampleContext(p).(approvalVerified := true), {}, 0).None?;
    assert Boundary(SampleContext(q).(approvalVerified := true), {}, 0).None?;
    assert ProfileVerdict(SampleContext(p).(approvalVerified := true), p, 0) == Denied(ConfiguredToDeny);
    assert ProfileVerdict(SampleContext(q).(approvalVerified := true), q, 0) == Denied(ExceedsPayment);
  }

  /** Whatever the profile, the Owner may give it any other risk level without an approval request. */
  lemma RiskPassesGate(p: Profile, risk: RiskLevel)
    requires Valid(p)
    ensures var q := p.(risk := risk, version := p.version + 1);
      Update(p, UpdateCommand(q, p.version, None, true), {}) == Success(q)
  {
  }

  /** So it happens: such an update turns a payment that needed the Owner into one that is allowed. */
  lemma LoweredRiskLoosens()
    ensures var p := SampleProfile().(risk := High);
      var q := p.(risk := Low, version := 2);
      && Valid(p) && Narrows(p, q)
      && Update(p, UpdateCommand(q, 1, None, true), {}) == Success(q)
      && EvaluateContext(SampleContext(p), {}, 0).RequireOwnerApproval?
      && EvaluateContext(SampleContext(q), {}, 0).Allow?
  {
    var p := SampleProfile().(risk := High);
    var q := p.(risk := Low, version := 2);
    RiskPassesGate(p, Low);
    assert Upper("ACTIVE") == "ACTIVE";
    assert Folded("shop")[0] == 's';
    assert !InternalRecipient("shop");
    assert Boundary(SampleContext(p), {}, 0).None?;
    assert Boundary(SampleContext(q), {}, 0).None?;
    assert ProfileVerdict(SampleContext(p), p, 0).decision.Allow?;
    assert ProfileVerdict(SampleContext(q), q, 0).decision.Allow?;
  }

  // ----- Agreement with the ledgers

  function LimitsOf(p: Profile): Ledger.Limits {
    Ledger.Limits(p.id, p.version, p.perPayment, p.perTask, p.daily)
  }

  function OrderOf(c: Context, now: int): Ledger.Order {
    Ledger.Order(c.paymentId, c.idempotencyKey, c.taskId, c.agentId, c.amount, now)
  }

  /** The context carries the spend the ledger reports at the same instant. */
  predicate ReadsSpend(c: Context, b: Ledger.Budget, now: int) {
    c.profile.Some?
      && (c.taskSpent, c.dailySpent) == Ledger.CurrentSpend(b, c.profile.value.id, c.taskId, c.agentId, now)
  }

  /** What the engine allows on the ledger's own figures, the ledger reserves. */
  lemma AllowedIsReserved(c: Context, stops: set<(string, string)>, now: int, b: Ledger.Budget)
    requires ReadsSpend(c, b, now) && !c.approvalVerified && EvaluateContext(c, stops, now).Allow?
    requires c.idempotencyKey !in b.reservations
    ensures var (b', reply) := Ledger.Reserve(b, LimitsOf(c.profile.value), OrderOf(c, now));
      && reply.Success? && !reply.value.1
      && c.idempotencyKey in b'.reservations && b'.reservations[c.idempotencyKey].amount == c.amount
  {
    AllowExactly(c, stops, now);
  }

  /** The database ledger reserves it as well, unless the payment identifier was already used. */
  lemma AllowedIsReservedInDatabase(c: Context, stops: set<(string, string)>, now: int, s: Ledger.Budget)
    requires ReadsSpend(c, s, now) && !c.approvalVerified && EvaluateContext(c, stops, now).Allow?
    requires c.idempotencyKey !in s.reservations && Valid(c.profile.value)
    requires Sql.RowsAllowed(s)
    ensures Sql.SqlReserve(s, LimitsOf(c.profile.value), OrderOf(c, now)).1.Success?
      <==> Sql.PaymentUnused(s, c.paymentId)
  {
    AllowExactly(c, stops, now);
  }
}
