/** Agent Payment Profiles: the pure profile policy, the expansion check, and what an update can loosen. */
module PaymentProfile {
  import opened Results
  import opened Networks

  datatype ProfileStatus = Draft | Active | Disabled | Suspended | ExpiredProfile | RevokedProfile
  datatype ApprovalMode = AutoAllow | OwnerApproval | DenyAll
  datatype RiskLevel = Low | Medium | High | Critical
  datatype RotationState = Current | Pending | Retired | RevokedRotation

  datatype Profile = Profile(
    id: string, agentId: string, version: int, network: Network, serviceId: string, recipient: string,
    tokens: seq<string>, mints: seq<string>, services: seq<string>, recipients: seq<string>, programs: seq<string>,
    purposes: seq<string>, risk: RiskLevel, mode: ApprovalMode,
    perPayment: int, perTask: int, daily: int, autoLimit: int, maxExpirySeconds: int, expiresAt: int,
    status: ProfileStatus, rotation: RotationState)

  datatype PaymentRequest = PaymentRequest(
    agentId: string, serviceId: string, recipient: string, network: Network, token: string, amount: int,
    purpose: string, expiresAt: Option<int>, programId: Option<string>, taskSpent: int, dailySpent: int, now: int)

  datatype Decision = Deny | RequireOwnerApproval | Allow

  datatype Reason =
    | NotActive | RotationNotCurrent | ProfileExpired | DifferentAgent | ServiceOutside | RecipientOutside
    | NetworkOutside
    | TokenOutside | PurposeOutside | ProgramOutside | NoAllowlistedProgram | AmountNotPositive | ExceedsPayment
    | ExceedsTask | ExceedsDaily | NegativeSpend | ChallengeExpired | ExceedsExpiry | ConfiguredToDeny
    | NeedsOwner | WithinLimits

  datatype Evaluation = Evaluation(decision: Decision, reason: Reason)

  /** How permissive a decision is. */
  function Rank(d: Decision): int {
    match d
    case Deny => 0
    case RequireOwnerApproval => 1
    case Allow => 2
  }

  function Denied(reason: Reason): Evaluation {
    Evaluation(Deny, reason)
  }

  function Evaluate(p: Profile, r: PaymentRequest): Evaluation {
    if !p.status.Active? then Denied(NotActive)
    else if !p.rotation.Current? then Denied(RotationNotCurrent)
    else if p.expiresAt <= r.now then Denied(ProfileExpired)
    else if p.agentId != r.agentId then Denied(DifferentAgent)
    else if p.serviceId != r.serviceId || r.serviceId !in p.services then Denied(ServiceOutside)
    else if p.recipient != r.recipient || r.recipient !in p.recipients then Denied(RecipientOutside)
    else if r.network != p.network then Denied(NetworkOutside)
    else if r.token !in p.tokens then Denied(TokenOutside)
    else if r.purpose !in p.purposes then Denied(PurposeOutside)
    else if p.programs != [] && (r.programId.None? || r.programId.value !in p.programs) then Denied(ProgramOutside)
    else if p.programs == [] && r.programId.Some? then Denied(NoAllowlistedProgram)
    else if r.amount <= 0 then Denied(AmountNotPositive)
    else if r.amount > p.perPayment then Denied(ExceedsPayment)
    else if r.amount + r.taskSpent > p.perTask then Denied(ExceedsTask)
    else if r.amount + r.dailySpent > p.daily then Denied(ExceedsDaily)
    else if r.taskSpent < 0 || r.dailySpent < 0 then Denied(NegativeSpend)
    else if r.expiresAt.Some? && r.expiresAt.value <= r.now then Denied(ChallengeExpired)
    else if r.expiresAt.Some? && r.expiresAt.value - r.now > p.maxExpirySeconds then Denied(ExceedsExpiry)
    else if p.mode.DenyAll? then Denied(ConfiguredToDeny)
    else if p.mode.OwnerApproval? || r.amount > p.autoLimit then Evaluation(RequireOwnerApproval, NeedsOwner)
    else Evaluation(Allow, WithinLimits)
  }

  /** The contract every stored profile has passed. */
  predicate Valid(p: Profile) {
    && p.serviceId in p.services && p.recipient in p.recipients
    && p.purposes == ["SERVICE_PAYMENT"]
    && 0 < p.perPayment <= p.perTask <= p.daily
    && 0 <= p.autoLimit <= p.perPayment
    && 0 < p.maxExpirySeconds <= 86400
    && p.version >= 1
  }

  predicate Subset(a: seq<string>, b: seq<string>) {
    forall x :: x in a ==> x in b
  }

  function ModeOrder(m: ApprovalMode): int {
    match m
    case DenyAll => 0
    case OwnerApproval => 1
    case AutoAllow => 2
  }

  /** Whether a replacement broadens the envelope, as the update gate checks it. */
  predicate Expands(current: Profile, next: Profile) {
    || current.network != next.network
    || !Subset(next.tokens, current.tokens)
    || !Subset(next.mints, current.mints)
    || !Subset(next.services, current.services)
    || !Subset(next.recipients, current.recipients)
    || !Subset(next.programs, current.programs)
    || next.perPayment > current.perPayment
    || next.perTask > current.perTask
    || next.daily > current.daily
    || next.autoLimit > current.autoLimit
    || next.maxExpirySeconds > current.maxExpirySeconds
    || next.expiresAt > current.expiresAt
    || ModeOrder(next.mode) > ModeOrder(current.mode)
  }

  // ----- Monotonicity

  /**
   * Changes the gate lets through although they can open something: a re-targeted, re-activated or program-free
   * profile.
   */
  predicate Reopens(current: Profile, next: Profile) {
    || current.serviceId != next.serviceId
    || current.recipient != next.recipient
    || !current.status.Active?
    || !current.rotation.Current?
    || (current.programs != [] && next.programs == [])
  }

  /** Pointwise: it decides a request more permissively exactly when it does not deny it and is one of those changes. */
  lemma LooserExactly(current: Profile, next: Profile, r: PaymentRequest)
    requires Valid(current) && Valid(next)
    requires !Expands(current, next) && current.agentId == next.agentId
    ensures Rank(Evaluate(next, r).decision) > Rank(Evaluate(current, r).decision)
      <==> !Evaluate(next, r).decision.Deny? && Reopens(current, next)
  {
    var d, d' := Evaluate(current, r).decision, Evaluate(next, r).decision;
    if !d'.Deny? {
      assert r.serviceId in current.services && r.recipient in current.recipients && r.token in current.tokens;
      assert r.programId.Some? ==> r.programId.value in current.programs;
      if Reopens(current, next) {
        assert d.Deny?;
      } else {
        assert current.programs == [] <==> next.programs == [] by {
          if next.programs != [] {
            assert next.programs[0] in current.programs;
          }
        }
        assert !d.Deny?;
      }
    }
  }

  predicate Looser(current: Profile, next: Profile, r: PaymentRequest) {
    Rank(Evaluate(next, r).decision) > Rank(Evaluate(current, r).decision)
  }

  /** A profile that is usable and lets something pass. */
  predicate CanAllow(p: Profile) {
    p.status.Active? && p.rotation.Current? && p.tokens != [] && !p.mode.DenyAll?
  }

  /** A request for one unit, a second before the profile expires. */
  function SmallestRequest(p: Profile): PaymentRequest
    requires p.tokens != []
  {
    PaymentRequest(p.agentId, p.serviceId, p.recipient, p.network, p.tokens[0], 1, "SERVICE_PAYMENT", Some(p.expiresAt),
                   if p.programs == [] then None else Some(p.programs[0]), 0, 0, p.expiresAt - 1)
  }

  /**
   * A replacement that is no expansion decides some request more permissively exactly when it re-targets, re-activates
   * or re-rotates the profile or empties its program allowlist, and can allow anything at all.
   */
  lemma LoosensExactly(current: Profile, next: Profile)
    requires Valid(current) && Valid(next)
    requires !Expands(current, next) && current.agentId == next.agentId
    ensures (exists r :: Looser(current, next, r)) <==> Reopens(current, next) && CanAllow(next)
  {
    forall r | Looser(current, next, r)
      ensures Reopens(current, next) && CanAllow(next)
    {
      LooserExactly(current, next, r);
    }
    if Reopens(current, next) && CanAllow(next) {
      LooserExactly(current, next, SmallestRequest(next));
      assert Looser(current, next, SmallestRequest(next));
    }
  }

  predicate Narrows(current: Profile, next: Profile) {
    && !Expands(current, next) && current.agentId == next.agentId
    && current.serviceId == next.serviceId && current.recipient == next.recipient
    && current.status == next.status && current.rotation == next.rotation
    && (current.programs == [] <==> next.programs == [])
  }

  lemma NarrowerDecides(current: Profile, next: Profile, r: PaymentRequest)
    requires Valid(current) && Valid(next) && Narrows(current, next)
    ensures Rank(Evaluate(next, r).decision) <= Rank(Evaluate(current, r).decision)
  {
    LooserExactly(current, next, r);
  }

  /** Over any chain of narrowing updates no request is ever decided more permissively than at the start. */
  lemma {:induction false} ChainNarrows(chain: seq<Profile>, r: PaymentRequest)
    requires |chain| > 0 && forall i :: 0 <= i < |chain| ==> Valid(chain[i])
    requires forall i :: 0 <= i < |chain| - 1 ==> Narrows(chain[i], chain[i + 1])
    ensures Rank(Evaluate(chain[|chain| - 1], r).decision) <= Rank(Evaluate(chain[0], r).decision)
    decreases |chain|
  {
    if |chain| > 1 {
      ChainNarrows(chain[..|chain| - 1], r);
      assert Narrows(chain[|chain| - 2], chain[|chain| - 2 + 1]);
      NarrowerDecides(chain[|chain| - 2], chain[|chain| - 1], r);
    }
  }

  function SampleProfile(): Profile {
    Profile("p", "agent", 1, Local, "svc", "shop", ["LOCAL_TEST_T"], [], ["svc"], ["shop"], ["prog"],
            ["SERVICE_PAYMENT"], Low, AutoAllow, 10, 10, 10, 10, 60, 1000, Active, Current)
  }

  /**
   * Emptying the program allowlist is not an expansion, yet it turns a denied request without a program into an allowed
   * one.
   */
  lemma EmptyingProgramsLoosens()
    ensures var p, q := SampleProfile(), SampleProfile().(programs := []);
      var r := PaymentRequest("agent", "svc", "shop", Local, "LOCAL_TEST_T", 5, "SERVICE_PAYMENT", Some(30), None, 0, 0,
                              0);
      Valid(p) && Valid(q) && !Expands(p, q) && Evaluate(p, r).decision.Deny? && Evaluate(q, r).decision.Allow?
  {
  }

  // ----- The versioned update

  datatype UpdateError =
    | VersionChanged | AgentIsImmutable | ApprovalRequired | ApprovalMissing | NotOwner | InvalidProfile
    | ProfileUnknown | ProfileExists | MustStartAtOne | AgentUnknown | ReasonMissing | ActivatesExpired

  datatype UpdateCommand = UpdateCommand(
    replacement: Profile, expectedVersion: int, approvalId: Option<string>, byOwner: bool)

  /** `approved` holds the identifiers of the Owner-approved requests that target this profile. */
  function Update(current: Profile, u: UpdateCommand, approved: set<string>): Result<Profile, UpdateError> {
    if !u.byOwner then Failure(NotOwner)
    else if !Valid(u.replacement) then Failure(InvalidProfile)
    else if current.version != u.expectedVersion || u.replacement.version != u.expectedVersion + 1 then
      Failure(VersionChanged)
    else if current.agentId != u.replacement.agentId then Failure(AgentIsImmutable)
    else if Expands(current, u.replacement) && u.approvalId.None? then Failure(ApprovalRequired)
    else if u.approvalId.Some? && u.approvalId.value !in approved then Failure(ApprovalMissing)
    else Success(u.replacement.(id := current.id))
  }

  lemma ExpandsTransitive(a: Profile, b: Profile, c: Profile)
    requires !Expands(a, b) && !Expands(b, c)
    ensures !Expands(a, c)
  {
  }
}
