/** The profile repository updated in place, row by row. */
module ProfileRepository {
  import opened Results
  import opened PaymentProfile
  import opened ProfileHistory

  lemma Grows(history: seq<Command>, c: Command)
    ensures Run(history + [c]) == Step(Run(history), c).0
  {
    assert (history + [c])[..|history + [c]| - 1] == history;
  }

  class AgentPaymentProfileRepository {
    var rows: map<string, Profile>
    var versions: seq<VersionRow>
    ghost var history: seq<Command>

    function Contents(): Store
      reads this
    {
      Store(rows, versions)
    }

    /** The rows are those that the commands so far lead to. */
    ghost predicate Reached()
      reads this
    {
      Contents() == Run(history)
    }

    constructor ()
      ensures Reached() && history == []
    {
      rows, versions, history := map[], [], [];
    }

    /** Stores a profile and appends the version that records it. */
    method Write(p: Profile, change: ChangeType, approvalId: Option<string>)
      modifies this`rows, this`versions
      ensures rows == old(rows)[p.id := p] && versions == old(versions) + [VersionRow(p, change, approvalId)]
    {
      rows := rows[p.id := p];
      versions := versions + [VersionRow(p, change, approvalId)];
    }

    method CreateProfile(profile: Profile, byOwner: bool, agents: set<string>) returns (reply: Reply)
      requires Reached()
      modifies this
      ensures Reached() && history == old(history) + [Create(profile, byOwner, agents)]
      ensures (Contents(), reply) == Step(old(Contents()), Create(profile, byOwner, agents))
    {
      EveryRunConsistent(history);
      Grows(history, Create(profile, byOwner, agents));
      history := history + [Create(profile, byOwner, agents)];
      if !Valid(profile) {
        return Failure(InvalidProfile);
      }
      if !byOwner {
        return Failure(NotOwner);
      }
      if profile.version != 1 {
        return Failure(MustStartAtOne);
      }
      if profile.id in rows {
        return Failure(ProfileExists);
      }
      if profile.agentId !in agents {
        return Failure(AgentUnknown);
      }
      Write(profile, Created, None);
      return Success(profile);
    }

    method ReplaceAs(u: UpdateCommand, approved: set<string>, change: ChangeType) returns (reply: Reply)
      requires Consistent(Contents())
      modifies this`rows, this`versions
      ensures !u.byOwner ==> reply == Failure(NotOwner)
      ensures u.byOwner && !Valid(u.replacement) ==> reply == Failure(InvalidProfile)
      ensures u.byOwner && Valid(u.replacement) ==>
        reply == if u.replacement.id !in old(rows) then Failure(ProfileUnknown)
          else Update(old(rows)[u.replacement.id], u, approved)
      ensures Contents() == if reply.Failure? then old(Contents()) else
        Store(old(rows)[u.replacement.id := reply.value],
              old(versions) + [VersionRow(reply.value, change, u.approvalId)])
    {
      if !u.byOwner {
        return Failure(NotOwner);
      }
      if !Valid(u.replacement) {
        return Failure(InvalidProfile);
      }
      if u.replacement.id !in rows {
        return Failure(ProfileUnknown);
      }
      assert Recorded(Contents(), u.replacement.id);
      var current := rows[u.replacement.id];
      if current.version != u.expectedVersion || u.replacement.version != u.expectedVersion + 1 {
        return Failure(VersionChanged);
      }
      if current.agentId != u.replacement.agentId {
        return Failure(AgentIsImmutable);
      }
      if Expands(current, u.replacement) && u.approvalId.None? {
        return Failure(ApprovalRequired);
      }
      if u.approvalId.Some? && u.approvalId.value !in approved {
        return Failure(ApprovalMissing);
      }
      Write(u.replacement, change, u.approvalId);
      return Success(u.replacement);
    }

    method UpdateProfile(u: UpdateCommand, approved: set<string>) returns (reply: Reply)
      requires Reached()
      modifies this
      ensures Reached() && history == old(history) + [Replace(u, approved)]
      ensures (Contents(), reply) == Step(old(Contents()), Replace(u, approved))
    {
      EveryRunConsistent(history);
      Grows(history, Replace(u, approved));
      history := history + [Replace(u, approved)];
      assert Recorded(Contents(), u.replacement.id);
      reply := ReplaceAs(u, approved, Updated);
    }

    method ChangeStatus(id: string, status: ProfileStatus, expectedVersion: int, byOwner: bool, reasonGiven: bool,
                        now: int)
      returns (reply: Reply)
      requires Reached()
      modifies this
      ensures Reached() && history == old(history) + [SetStatus(id, status, expectedVersion, byOwner, reasonGiven, now)]
      ensures (Contents(), reply)
        == Step(old(Contents()), SetStatus(id, status, expectedVersion, byOwner, reasonGiven, now))
    {
      EveryRunConsistent(history);
      Grows(history, SetStatus(id, status, expectedVersion, byOwner, reasonGiven, now));
      history := history + [SetStatus(id, status, expectedVersion, byOwner, reasonGiven, now)];
      if !byOwner {
        return Failure(NotOwner);
      }
      if !reasonGiven {
        return Failure(ReasonMissing);
      }
      if id !in rows {
        return Failure(ProfileUnknown);
      }
      var current := rows[id];
      if current.version != expectedVersion {
        return Failure(VersionChanged);
      }
      if status.Active? && current.expiresAt <= now {
        return Failure(ActivatesExpired);
      }
      var updated := current.(status := status, version := current.version + 1);
      Write(updated, StatusChanged, None);
      return Success(updated);
    }

    method RotateProfile(id: string, expectedVersion: int, byOwner: bool) returns (reply: Reply)
      requires Reached()
      modifies this
      ensures Reached() && history == old(history) + [Rotate(id, expectedVersion, byOwner)]
      ensures (Contents(), reply) == Step(old(Contents()), Rotate(id, expectedVersion, byOwner))
    {
      EveryRunConsistent(history);
      Grows(history, Rotate(id, expectedVersion, byOwner));
      history := history + [Rotate(id, expectedVersion, byOwner)];
      if !byOwner {
        return Failure(NotOwner);
      }
      if id !in rows {
        return Failure(ProfileUnknown);
      }
      var current := rows[id];
      if current.version != expectedVersion {
        return Failure(VersionChanged);
      }
      assert Recorded(Contents(), id);
      assert Valid(HistoryOf(versions, id)[current.version - 1].profile);
      reply := ReplaceAs(UpdateCommand(current.(version := expectedVersion + 1, rotation := Current), expectedVersion,
                                       None, byOwner),
                         {}, Rotated);
    }
  }
}
