/**
 * Stored payment profiles and their version history, over any run of creations, updates, status changes and rotations.
 */
module ProfileHistory {
  import opened Results
  import opened PaymentProfile

  datatype ChangeType = Created | Updated | StatusChanged | Rotated
  datatype VersionRow = VersionRow(profile: Profile, change: ChangeType, approvalId: Option<string>)
  datatype Store = Store(rows: map<string, Profile>, versions: seq<VersionRow>)

  type Reply = Result<Profile, UpdateError>

  const EMPTY := Store(map[], [])

  datatype Command =
    | Create(profile: Profile, byOwner: bool, agents: set<string>)
    | Replace(update: UpdateCommand, approved: set<string>)
    | SetStatus(id: string, status: ProfileStatus, expectedVersion: int, byOwner: bool, reasonGiven: bool, now: int)
    | Rotate(id: string, expectedVersion: int, byOwner: bool)

  /** The row a command writes, from the row it finds; nothing is written when it fails. */
  function Decide(s: Store, c: Command): Result<VersionRow, UpdateError> {
    match c
    case Create(profile, byOwner, agents) =>
      if !Valid(profile) then Failure(InvalidProfile)
      else if !byOwner then Failure(NotOwner)
      else if profile.version != 1 then Failure(MustStartAtOne)
      else if profile.id in s.rows then Failure(ProfileExists)
      else if profile.agentId !in agents then Failure(AgentUnknown)
      else Success(VersionRow(profile, Created, None))
    case Replace(u, approved) =>
      if !u.byOwner then Failure(NotOwner)
      else if !Valid(u.replacement) then Failure(InvalidProfile)
      else if u.replacement.id !in s.rows then Failure(ProfileUnknown)
      else
        var next :- Update(s.rows[u.replacement.id], u, approved);
        Success(VersionRow(next, Updated, u.approvalId))
    case SetStatus(id, status, expectedVersion, byOwner, reasonGiven, now) =>
      if !byOwner then Failure(NotOwner)
      else if !reasonGiven then Failure(ReasonMissing)
      else if id !in s.rows then Failure(ProfileUnknown)
      else
        var current := s.rows[id];
        if current.version != expectedVersion then Failure(VersionChanged)
        else if status.Active? && current.expiresAt <= now then Failure(ActivatesExpired)
        else Success(VersionRow(current.(status := status, version := current.version + 1), StatusChanged, None))
    case Rotate(id, expectedVersion, byOwner) =>
      if !byOwner then Failure(NotOwner)
      else if id !in s.rows then Failure(ProfileUnknown)
      else
        var current := s.rows[id];
        if current.version != expectedVersion then Failure(VersionChanged)
        else
          var replacement := current.(version := expectedVersion + 1, rotation := Current);
          var next :- Update(current, UpdateCommand(replacement, expectedVersion, None, byOwner), {});
          Success(VersionRow(next, Rotated, None))
  }

  function Step(s: Store, c: Command): (Store, Reply) {
    var row := Decide(s, c);
    if row.Failure? then (s, Failure(row.error))
    else
      var p := row.value.profile;
      (Store(s.rows[p.id := p], s.versions + [row.value]), Success(p))
  }

  function RunFrom(s: Store, commands: seq<Command>): Store {
    if commands == [] then s else Step(RunFrom(s, commands[..|commands| - 1]), commands[|commands| - 1]).0
  }

  function Run(commands: seq<Command>): Store {
    RunFrom(EMPTY, commands)
  }

  /** The versions of one profile, oldest first. */
  function HistoryOf(versions: seq<VersionRow>, id: string): seq<VersionRow> {
    if versions == [] then []
    else
      var before, last := HistoryOf(versions[..|versions| - 1], id), versions[|versions| - 1];
      if last.profile.id == id then before + [last] else before
  }

  /** A history without gaps: version n is entry n - 1, and an entry without an approval expands nothing. */
  ghost predicate Gapless(h: seq<VersionRow>) {
    && (forall i :: 0 <= i < |h| ==> h[i].profile.version == i + 1 && Valid(h[i].profile))
    && (forall i, j :: 0 <= i < j < |h| && j == i + 1 && h[j].approvalId.None? ==> !Expands(h[i].profile, h[j].profile))
  }

  /** The stored row of one profile, if there is one, is the end of its history. */
  ghost predicate Recorded(s: Store, id: string) {
    var h := HistoryOf(s.versions, id);
    && Gapless(h)
    && (id in s.rows ==> h != [] && h[|h| - 1].profile == s.rows[id] && s.rows[id].id == id)
    && (id !in s.rows ==> h == [])
  }

  ghost predicate Consistent(s: Store) {
    forall id :: Recorded(s, id)
  }

  lemma HistoryAfter(versions: seq<VersionRow>, row: VersionRow, id: string)
    ensures HistoryOf(versions + [row], id)
      == if row.profile.id == id then HistoryOf(versions, id) + [row] else HistoryOf(versions, id)
  {
    assert (versions + [row])[..|versions|] == versions;
  }

  /** What every accepted command writes, compared with the row it replaces. */
  lemma DecisionFollows(s: Store, c: Command)
    requires Consistent(s) && Decide(s, c).Success?
    ensures var row := Decide(s, c).value;
      && Valid(row.profile)
      && (row.profile.id !in s.rows ==> row.profile.version == 1)
      && (row.profile.id in s.rows ==>
            && row.profile.version == s.rows[row.profile.id].version + 1
            && (row.approvalId.None? ==> !Expands(s.rows[row.profile.id], row.profile)))
  {
    if !c.Create? {
      var id := if c.Replace? then c.update.replacement.id else c.id;
      var h := HistoryOf(s.versions, id);
      assert Recorded(s, id) && Valid(h[|h| - 1].profile);
    }
  }

  /** A history grows by one row that follows its last one. */
  lemma GaplessGrows(h: seq<VersionRow>, row: VersionRow)
    requires Gapless(h) && Valid(row.profile) && row.profile.version == |h| + 1
    requires h != [] && row.approvalId.None? ==> !Expands(h[|h| - 1].profile, row.profile)
    ensures Gapless(h + [row])
  {
  }

  lemma StepKeeps(s: Store, c: Command)
    requires Consistent(s)
    ensures Consistent(Step(s, c).0)
  {
    if Decide(s, c).Success? {
      var row := Decide(s, c).value;
      DecisionFollows(s, c);
      RowKeeps(s, row);
    }
  }

  lemma RowKeeps(s: Store, row: VersionRow)
    requires Consistent(s) && Valid(row.profile)
    requires row.profile.id !in s.rows ==> row.profile.version == 1
    requires row.profile.id in s.rows ==>
      && row.profile.version == s.rows[row.profile.id].version + 1
      && (row.approvalId.None? ==> !Expands(s.rows[row.profile.id], row.profile))
    ensures Consistent(Store(s.rows[row.profile.id := row.profile], s.versions + [row]))
  {
    var t := Store(s.rows[row.profile.id := row.profile], s.versions + [row]);
    forall id
      ensures Recorded(t, id)
    {
      assert Recorded(s, id);
      HistoryAfter(s.versions, row, id);
      if row.profile.id == id {
        GaplessGrows(HistoryOf(s.versions, id), row);
      }
    }
  }

  /**
   * After any run each stored profile has a history whose entries are numbered 1, 2, 3 ... without gap or duplicate,
   * that ends in the stored row, and in which a version without an approval expands nothing over the one before it.
   */
  lemma {:induction false} EveryRunConsistent(commands: seq<Command>)
    ensures Consistent(Run(commands))
    decreases |commands|
  {
    if commands != [] {
      EveryRunConsistent(commands[..|commands| - 1]);
      StepKeeps(Run(commands[..|commands| - 1]), commands[|commands| - 1]);
    }
  }

  /** Between two versions with no approval in between, the envelope has not grown. */
  lemma {:induction false} NoApprovalNoExpansion(commands: seq<Command>, id: string, i: nat, j: nat)
    requires i <= j < |HistoryOf(Run(commands).versions, id)|
    requires forall k :: i < k <= j ==> HistoryOf(Run(commands).versions, id)[k].approvalId.None?
    ensures var h := HistoryOf(Run(commands).versions, id); !Expands(h[i].profile, h[j].profile)
    decreases j
  {
    EveryRunConsistent(commands);
    var h := HistoryOf(Run(commands).versions, id);
    assert Recorded(Run(commands), id);
    if i < j {
      NoApprovalNoExpansion(commands, id, i, j - 1);
      var previous, next := h[j - 1], h[j];
      assert next.approvalId.None? && !Expands(previous.profile, next.profile);
      ExpandsTransitive(h[i].profile, previous.profile, next.profile);
    }
  }

  // ----- Versions over every kind of command

  /** How many commands of the run wrote a row of the profile. */
  function Written(commands: seq<Command>, id: string): nat {
    if commands == [] then 0
    else
      var before := commands[..|commands| - 1];
      var row := Decide(Run(before), commands[|commands| - 1]);
      Written(before, id) + if row.Success? && row.value.profile.id == id then 1 else 0
  }

  /** A profile's version counts the creation, updates, status changes and rotations that took effect. */
  lemma {:induction false} VersionCountsCommands(commands: seq<Command>, id: string)
    ensures var s := Run(commands);
      if id in s.rows then s.rows[id].version == Written(commands, id) else Written(commands, id) == 0
    decreases |commands|
  {
    if commands != [] {
      var before, last := commands[..|commands| - 1], commands[|commands| - 1];
      VersionCountsCommands(before, id);
      EveryRunConsistent(before);
      if Decide(Run(before), last).Success? {
        DecisionFollows(Run(before), last);
      }
    }
  }

  /** The profile a command changes and the version it expects; a creation expects none. */
  function Expects(c: Command): Option<(string, int)> {
    match c
    case Create(_, _, _) => None
    case Replace(u, _) => Some((u.replacement.id, u.expectedVersion))
    case SetStatus(id, _, expectedVersion, _, _, _) => Some((id, expectedVersion))
    case Rotate(id, expectedVersion, _) => Some((id, expectedVersion))
  }

  lemma TakesEffectAt(s: Store, c: Command)
    requires Consistent(s) && Expects(c).Some? && Step(s, c).1.Success?
    ensures var (id, version) := Expects(c).value;
      && id in s.rows && s.rows[id].version == version
      && id in Step(s, c).0.rows && Step(s, c).0.rows[id].version == version + 1
  {
    DecisionFollows(s, c);
    assert Recorded(s, Expects(c).value.0);
  }

  lemma {:induction false} VersionsNeverFall(s: Store, commands: seq<Command>, id: string)
    requires Consistent(s) && id in s.rows
    ensures var t := RunFrom(s, commands);
      Consistent(t) && id in t.rows && t.rows[id].version >= s.rows[id].version
    decreases |commands|
  {
    if commands != [] {
      var t := RunFrom(s, commands[..|commands| - 1]);
      VersionsNeverFall(s, commands[..|commands| - 1], id);
      StepKeeps(t, commands[|commands| - 1]);
      if Decide(t, commands[|commands| - 1]).Success? {
        DecisionFollows(t, commands[|commands| - 1]);
      }
    }
  }

  /**
   * Of all commands prepared for one version of a profile, whatever their kind, at most one ever takes effect: after
   * it any other fails, however many commands of any kind lie between.
   */
  lemma OneEffectPerVersion(before: seq<Command>, first: Command, between: seq<Command>, second: Command)
    requires Expects(first).Some? && Expects(second) == Expects(first)
    requires Step(Run(before), first).1.Success?
    ensures Step(RunFrom(Step(Run(before), first).0, between), second).1.Failure?
  {
    var s := Run(before);
    EveryRunConsistent(before);
    TakesEffectAt(s, first);
    StepKeeps(s, first);
    var t := Step(s, first).0;
    VersionsNeverFall(t, between, Expects(first).value.0);
    if Step(RunFrom(t, between), second).1.Success? {
      TakesEffectAt(RunFrom(t, between), second);
    }
  }
}
