/** What a decision of the policy engine says about the payment, field by field. */
module AllowedPayments {
  import opened Results
  import opened Networks
  import opened Texts
  import opened PaymentProfile
  import opened MppPolicy

  /** Recipients that begin like this, in any case, are not third parties. */
  const INTERNAL := {"agent:", "agent-", "owner:", "owner-", "treasury:", "treasury-", "ledger:", "ledger-"}

  /** The stop controls that concern a payment; one without a provider is concerned by a stop of them all. */
  function ControlsOf(c: Context): set<(string, string)> {
    {("MPP", "*"), ("PAYMENT", c.paymentId), ("AGENT", c.agentId), ("RUN", c.runId), ("SIGNER", "*"),
     ("PROVIDER", if c.providerId.None? || c.providerId.value == "" then "*" else c.providerId.value)}
  }

  /** Task, Run, trace and purpose of the payment are in order, and its Service is a third party. */
  predicate WellAddressed(c: Context) {
    && c.taskBound && c.runBound && c.correlationId != "" && c.traceId != ""
    && c.purpose == "SERVICE_PAYMENT" && c.network in {"LOCAL", "SOLANA_DEVNET"}
    && c.recipientKind == "SERVICE" && c.recipient != c.agentId
    && (forall prefix :: prefix in INTERNAL ==> !(prefix <= Folded(c.recipient)))
  }

  /** The phase allows devnet payments, the challenge has not expired and all four parties are active. */
  predicate InOperation(c: Context, now: int) {
    && c.phase in {Devnet, Testnet} && now < c.expiresAt
    && Upper(c.agentStatus) == "ACTIVE" && Upper(c.providerStatus) == "ACTIVE"
    && Upper(c.mppStatus) == "ACTIVE" && Upper(c.signerStatus) == "ACTIVE"
  }

  predicate UsableProfile(c: Context) {
    c.profile.Some? && c.profile.value.status.Active? && c.profile.value.rotation.Current?
  }

  /** Nothing in front of the profile holds the payment back. */
  predicate Unhindered(c: Context, stops: set<(string, string)>, now: int) {
    && WellAddressed(c) && InOperation(c, now) && c.serviceRegistered && stops !! ControlsOf(c)
    && c.profileAllows && UsableProfile(c)
  }

  /** The payment lies within the profile's lists, limits and times. */
  predicate WithinProfile(c: Context, p: Profile, now: int) {
    && now < p.expiresAt && c.agentId == p.agentId
    && c.serviceId == p.serviceId && c.serviceId in p.services
    && c.recipient == p.recipient && c.recipient in p.recipients
    && c.network == Networks.Name(p.network) && c.token in p.tokens && c.purpose in p.purposes
    && (if p.programs == [] then c.programId.None? else c.programId.Some? && c.programId.value in p.programs)
    && 0 < c.amount <= p.perPayment
    && 0 <= c.taskSpent <= p.perTask - c.amount && 0 <= c.dailySpent <= p.daily - c.amount
    && now < c.expiresAt <= now + p.maxExpirySeconds
  }

  /** The payment asks for nothing that only the Owner may grant. */
  predicate Ordinary(c: Context) {
    && !c.forceOwnerApproval && !c.profileChangeRequested && !c.walletChangeRequested && !c.networkChangeRequested
    && !c.programUpgradeRequested && !c.ownerAuthorityOperation && !c.rewardOrTreasuryOperation
    && (c.budgetAvailable.Some? ==> c.amount <= c.budgetAvailable.value)
  }

  lemma ExternalRecipient(recipient: string)
    ensures InternalRecipient(recipient) <==> exists prefix :: prefix in INTERNAL && prefix <= Folded(recipient)
  {
    if InternalRecipient(recipient) {
      var folded := Folded(recipient);
      var prefix :|
        && prefix in ["agent:", "agent-", "owner:", "owner-", "treasury:", "treasury-", "ledger:", "ledger-"]
        && prefix <= folded;
      assert prefix in INTERNAL;
    }
  }

  lemma StopsConcern(stops: set<(string, string)>, c: Context)
    ensures Stopped(stops, c) <==> !(stops !! ControlsOf(c))
  {
    if !(stops !! ControlsOf(c)) {
      var pair :| pair in stops && pair in ControlsOf(c);
    }
  }

  /** The guards let a payment through, or raise it to the Owner, exactly on these conditions. */
  lemma GuardsExactly(c: Context, stops: set<(string, string)>, now: int)
    ensures Boundary(c, stops, now).None? <==> Unhindered(c, stops, now)
    ensures Boundary(c, stops, now) == Some(RequireOwnerApproval) <==>
      && WellAddressed(c) && InOperation(c, now)
      && (!c.serviceRegistered || (stops !! ControlsOf(c) && !c.profileAllows))
    ensures Boundary(c, stops, now) != Some(Allow)
  {
    ExternalRecipient(c.recipient);
    StopsConcern(stops, c);
  }

  lemma VerdictExactly(c: Context, p: Profile, now: int)
    requires p.status.Active? && p.rotation.Current? && c.network in {"LOCAL", "SOLANA_DEVNET"}
    ensures var d := ProfileVerdict(c, p, now).decision;
      && (d.Allow? <==> WithinProfile(c, p, now) && p.mode.AutoAllow? && c.amount <= p.autoLimit)
      && (d.Deny? <==> !WithinProfile(c, p, now) || p.mode.DenyAll?)
  {
  }

  /**
   * Without an approval a payment is allowed exactly when nothing hinders it, it lies within the profile and its limit
   * for automatic approval, the profile's risk is below HIGH and nothing is asked that only the Owner may grant.
   */
  lemma AllowedExactly(c: Context, stops: set<(string, string)>, now: int)
    requires !c.approvalVerified
    ensures EvaluateContext(c, stops, now).Allow? <==>
      && Unhindered(c, stops, now) && WithinProfile(c, c.profile.value, now) && Ordinary(c)
      && c.profile.value.mode.AutoAllow? && c.amount <= c.profile.value.autoLimit
      && c.profile.value.risk in {Low, Medium}
  {
    GuardsExactly(c, stops, now);
    AllowExactly(c, stops, now);
    if Unhindered(c, stops, now) {
      VerdictExactly(c, c.profile.value, now);
    }
  }

  /** The profile does not refuse the payment, or only for a reason that was opened to approval. */
  predicate Approvable(c: Context, p: Profile, now: int) {
    || (WithinProfile(c, p, now) && !p.mode.DenyAll?)
    || ((c.allowlistExceptionRequiresApproval || c.overLimitRequiresApproval)
        && RefusedForNow(p, ContextRequest(c, now)))
  }

  /**
   * With one, exactly when nothing hinders it, the approval has an identifier and the profile leaves it to approval.
   */
  lemma ApprovedExactly(c: Context, stops: set<(string, string)>, now: int)
    requires c.approvalVerified
    ensures EvaluateContext(c, stops, now).Allow? <==>
      Unhindered(c, stops, now) && c.ownerApprovalId.Some? && Approvable(c, c.profile.value, now)
  {
    GuardsExactly(c, stops, now);
    ApprovedAllowExactly(c, stops, now);
    if Unhindered(c, stops, now) {
      VerdictExactly(c, c.profile.value, now);
      RefusalKinds(c.profile.value, ContextRequest(c, now));
    }
  }

  /** And the Owner is asked exactly when that could help; every other payment is denied. */
  lemma AskedExactly(c: Context, stops: set<(string, string)>, now: int)
    ensures EvaluateContext(c, stops, now).RequireOwnerApproval? <==>
      && WellAddressed(c) && InOperation(c, now)
      && (|| !c.serviceRegistered
          || (stops !! ControlsOf(c)
              && (|| !c.profileAllows
                  || (UsableProfile(c) && !c.approvalVerified && Approvable(c, c.profile.value, now)
                      && !EvaluateContext(c, stops, now).Allow?))))
  {
    GuardsExactly(c, stops, now);
    if Unhindered(c, stops, now) {
      VerdictExactly(c, c.profile.value, now);
      RefusalKinds(c.profile.value, ContextRequest(c, now));
    }
  }

  /** A stop control in force denies every payment to a registered Service, approved or not. */
  lemma StopDenies(c: Context, stops: set<(string, string)>, now: int)
    requires c.serviceRegistered && !(stops !! ControlsOf(c))
    ensures EvaluateContext(c, stops, now).Deny?
  {
    GuardsExactly(c, stops, now);
  }
}
