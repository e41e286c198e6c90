/** Which profiles are stored, which updates pass without the Owner's approval, and what such updates can never open. */
module ProfileGate {
  import opened Results
  import opened Networks
  import opened PaymentProfile
  import opened ProfileHistory
  import Policy = MppPolicy
  import Engine = AllowedPayments
  import Client = MppClientSpec
  import Proofs = PaidProofs

  // ----- The envelope

  function Elements(s: seq<string>): set<string> {
    set x | x in s
  }

  /** Every list, limit, time and the mode of the one lie within those of the other. */
  predicate Inside(next: Profile, current: Profile) {
    && next.network == current.network
    && Elements(next.tokens) <= Elements(current.tokens) && Elements(next.mints) <= Elements(current.mints)
    && Elements(next.services) <= Elements(current.services)
    && Elements(next.recipients) <= Elements(current.recipients)
    && Elements(next.programs) <= Elements(current.programs)
    && next.perPayment <= current.perPayment && next.perTask <= current.perTask && next.daily <= current.daily
    && next.autoLimit <= current.autoLimit && next.maxExpirySeconds <= current.maxExpirySeconds
    && next.expiresAt <= current.expiresAt
    && (next.mode.AutoAllow? ==> current.mode.AutoAllow?) && (current.mode.DenyAll? ==> next.mode.DenyAll?)
  }

  lemma SubsetIsIncluded(a: seq<string>, b: seq<string>)
    ensures Subset(a, b) <==> Elements(a) <= Elements(b)
  {
    if Elements(a) <= Elements(b) {
      forall x | x in a
        ensures x in b
      {
        assert x in Elements(a);
      }
    }
  }

  /** The gate calls an update an expansion exactly when it leaves the envelope. */
  lemma ExpandsExactly(current: Profile, next: Profile)
    ensures Expands(current, next) <==> !Inside(next, current)
  {
    SubsetIsIncluded(next.tokens, current.tokens);
    SubsetIsIncluded(next.mints, current.mints);
    SubsetIsIncluded(next.services, current.services);
    SubsetIsIncluded(next.recipients, current.recipients);
    SubsetIsIncluded(next.programs, current.programs);
  }

  /** A payment within a narrower profile is within the one before. */
  lemma NarrowerIsWithin(c: Policy.Context, current: Profile, next: Profile, now: int)
    requires Valid(current) && Valid(next) && Narrows(current, next) && Engine.WithinProfile(c, next, now)
    ensures Engine.WithinProfile(c, current, now)
  {
  }

  /**
   * A challenge in the client's scope under a narrower profile, its mint included, is in scope under the one before.
   */
  lemma NarrowerIsInScope(g: Client.Config, c: Client.Challenge, next: Profile)
    requires Narrows(g.profile, next) && Proofs.InScopeOf(g.(profile := next), c)
    ensures Proofs.InScopeOf(g, c)
  {
  }

  // ----- The commands

  /** What the profile contract demands of every stored profile. */
  predicate WellFormed(p: Profile) {
    && p.serviceId in p.services && p.recipient in p.recipients && p.purposes == ["SERVICE_PAYMENT"]
    && 0 < p.perPayment && p.perPayment <= p.perTask && p.perTask <= p.daily
    && 0 <= p.autoLimit && p.autoLimit <= p.perPayment
    && 1 <= p.maxExpirySeconds && p.maxExpirySeconds <= 24 * 60 * 60 && 1 <= p.version
  }

  /** The command stores this profile under its identifier as one more version; nothing else changes. */
  predicate Stores(s: Store, t: Store, reply: Reply, p: Profile, change: ChangeType, approvalId: Option<string>) {
    && reply == Success(p) && t.rows == s.rows[p.id := p]
    && |t.versions| == |s.versions| + 1 && t.versions[..|s.versions|] == s.versions
    && t.versions[|s.versions|] == VersionRow(p, change, approvalId)
  }

  lemma CreatesExactly(s: Store, p: Profile, byOwner: bool, agents: set<string>)
    ensures var (t, reply) := Step(s, Create(p, byOwner, agents));
      && (reply.Success? <==>
            byOwner && WellFormed(p) && p.version == 1 && p.id !in s.rows && p.agentId in agents)
      && (if reply.Success? then Stores(s, t, reply, p, Created, None) else t == s)
  {
  }

  /**
   * An update by the Owner takes effect exactly when it is well formed, one version on, for the same Agent, and either
   * inside the stored envelope or under an approval on record; an approval that is named must be on record anyway.
   */
  lemma UpdatesExactly(s: Store, u: UpdateCommand, approved: set<string>)
    requires Consistent(s)
    ensures var (t, reply) := Step(s, Replace(u, approved));
      var p := u.replacement;
      && (reply.Success? <==>
            && u.byOwner && WellFormed(p) && p.id in s.rows && s.rows[p.id].version == u.expectedVersion
            && p.version == u.expectedVersion + 1 && p.agentId == s.rows[p.id].agentId
            && (if u.approvalId.None? then Inside(p, s.rows[p.id]) else u.approvalId.value in approved))
      && (if reply.Success? then Stores(s, t, reply, p, Updated, u.approvalId) else t == s)
  {
    if u.replacement.id in s.rows {
      ExpandsExactly(s.rows[u.replacement.id], u.replacement);
      assert Recorded(s, u.replacement.id);
    }
  }

  /** A status change and a rotation change nothing but status or rotation state, and the version by one. */
  lemma StatusExactly(s: Store, id: string, status: ProfileStatus, version: int, byOwner: bool, reason: bool, now: int)
    requires Consistent(s)
    ensures var (t, reply) := Step(s, SetStatus(id, status, version, byOwner, reason, now));
      && (reply.Success? <==>
            && byOwner && reason && id in s.rows && s.rows[id].version == version
            && (status == Active ==> now < s.rows[id].expiresAt))
      && (if reply.Success? then
            Stores(s, t, reply, s.rows[id].(status := status, version := version + 1), StatusChanged, None)
          else t == s)
  {
    if id in s.rows {
      assert Recorded(s, id);
    }
  }

  lemma RotatesExactly(s: Store, id: string, version: int, byOwner: bool)
    requires Consistent(s)
    ensures var (t, reply) := Step(s, Rotate(id, version, byOwner));
      && (reply.Success? <==> byOwner && id in s.rows && s.rows[id].version == version)
      && (if reply.Success? then
            Stores(s, t, reply, s.rows[id].(rotation := Current, version := version + 1), Rotated, None)
          else t == s)
  {
    if id in s.rows {
      assert Recorded(s, id);
    }
  }
}
