/**
 * Task transitions: one transaction claims the command key, updates the versioned row and appends audit and outbox
 * rows.
 */
module TaskTransitions {
  import opened Results
  import opened Texts

  datatype Task = Task(status: string, progress: int, version: int, updatedAt: int)
  datatype Snapshot = Snapshot(taskId: string, status: string, progress: int, version: int, updatedAt: int)

  datatype Command = Command(
    taskId: string, expectedVersion: int, status: string, progress: int, actorId: string, actorType: string,
    reason: string, correlationId: string, idempotencyKey: string, auditId: string, outboxId: string,
    riskLevel: Option<string>)

  /** The fingerprint covers the whole command and is taken to be free of collisions. */
  datatype Fingerprint = Fingerprint(command: Command)

  datatype Claim = Claim(
    commandName: string, actorId: string, fingerprint: Option<Fingerprint>, response: Option<Snapshot>)

  /** An audit row and its outbox twin, by what they record; `createdAt` is the start of their transaction. */
  datatype LogRow = LogRow(command: Command, before: Snapshot, after: Snapshot, createdAt: int)
  datatype OutboxRow = OutboxRow(
    eventId: string, idempotencyKey: string, taskId: string, before: Snapshot, after: Snapshot)

  datatype Database = Database(
    tasks: map<string, Task>, claims: map<string, Claim>, log: seq<LogRow>, outbox: seq<OutboxRow>)

  /** `databaseFails` stands for every other reason a statement or the commit raises. */
  datatype Env = Env(now: int, mayParticipate: bool, databaseFails: bool)

  datatype TransitionError =
    | RiskLevelMissing | AgentRefused | BoundToAnotherCommand | PredatesFingerprints | BoundToAnotherRequest
    | StillInProgress | TaskNotFound | VersionChanged | DatabaseRefused

  datatype TransitionResult = TransitionResult(task: Snapshot, replayed: bool)
  type Outcome = Result<TransitionResult, TransitionError>

  const NAME := "TRANSITION_TASK"

  predicate IsAgent(actorType: string) {
    Upper(actorType) == "AGENT"
  }

  function SnapshotOf(id: string, t: Task): Snapshot {
    Snapshot(id, t.status, t.progress, t.version, t.updatedAt)
  }

  predicate AuditIdUsed(db: Database, id: string) {
    exists row :: row in db.log && row.command.auditId == id
  }

  predicate OutboxUsed(db: Database, c: Command) {
    exists row :: row in db.outbox && (row.eventId == c.outboxId || row.idempotencyKey == c.idempotencyKey)
  }

  /** What a command gets whose key was claimed before. */
  function Repeated(claim: Claim, c: Command): Outcome {
    if claim.commandName != NAME || claim.actorId != c.actorId then Failure(BoundToAnotherCommand)
    else if claim.fingerprint.None? then Failure(PredatesFingerprints)
    else if claim.fingerprint.value != Fingerprint(c) then Failure(BoundToAnotherRequest)
    else if claim.response.None? then Failure(StillInProgress)
    else Success(TransitionResult(claim.response.value, true))
  }

  function Updated(t: Task, c: Command, now: int): Task {
    Task(c.status, c.progress, t.version + 1, now)
  }

  function NextRow(db: Database, c: Command, now: int): LogRow
    requires c.taskId in db.tasks
  {
    var t := db.tasks[c.taskId];
    LogRow(c, SnapshotOf(c.taskId, t), SnapshotOf(c.taskId, Updated(t, c, now)), now)
  }

  function ClaimOf(row: LogRow): Claim {
    Claim(NAME, row.command.actorId, Some(Fingerprint(row.command)), Some(row.after))
  }

  function Announcement(row: LogRow): OutboxRow {
    OutboxRow(row.command.outboxId, row.command.idempotencyKey, row.command.taskId, row.before, row.after)
  }

  function TaskOf(s: Snapshot): Task {
    Task(s.status, s.progress, s.version, s.updatedAt)
  }

  function Commit(db: Database, row: LogRow): Database {
    Database(db.tasks[row.command.taskId := TaskOf(row.after)],
             db.claims[row.command.idempotencyKey := ClaimOf(row)],
             db.log + [row], db.outbox + [Announcement(row)])
  }

  /** A raised error rolls the whole transaction back. */
  function Transition(db: Database, c: Command, e: Env): (Database, Outcome) {
    if IsAgent(c.actorType) && c.riskLevel.None? then (db, Failure(RiskLevelMissing))
    else if IsAgent(c.actorType) && !e.mayParticipate then (db, Failure(AgentRefused))
    else if c.idempotencyKey in db.claims then (db, Repeated(db.claims[c.idempotencyKey], c))
    else if c.taskId !in db.tasks then (db, Failure(TaskNotFound))
    else if db.tasks[c.taskId].version != c.expectedVersion then (db, Failure(VersionChanged))
    else if e.databaseFails || AuditIdUsed(db, c.auditId) || OutboxUsed(db, c) then (db, Failure(DatabaseRefused))
    else
      var row := NextRow(db, c, e.now);
      (Commit(db, row), Success(TransitionResult(row.after, false)))
  }

  predicate Fresh(o: Outcome) {
    o.Success? && !o.value.replayed
  }

  datatype Call = Call(command: Command, env: Env)

  function RunFrom(db: Database, calls: seq<Call>): Database {
    if calls == [] then db
    else
      var last := calls[|calls| - 1];
      Transition(RunFrom(db, calls[..|calls| - 1]), last.command, last.env).0
  }

  /** Tasks as they were created, before any command. */
  predicate Initial(db: Database) {
    db.claims == map[] && db.log == [] && db.outbox == []
  }

  /** The audit rows of one task, in the order they were committed. */
  function HistoryOf(log: seq<LogRow>, id: string): seq<LogRow> {
    if log == [] then []
    else
      var before, last := HistoryOf(log[..|log| - 1], id), log[|log| - 1];
      if last.command.taskId == id then before + [last] else before
  }

  /** The task as history `h` records it after its first `n` rows. */
  function After(first: Snapshot, h: seq<LogRow>, n: nat): Snapshot
    requires n <= |h|
  {
    if n == 0 then first else h[n - 1].after
  }

  /** Each row starts where the one before it ended, one version on. */
  ghost predicate Linked(first: Snapshot, h: seq<LogRow>) {
    forall i :: 0 <= i < |h| ==>
      && h[i].before == After(first, h, i)
      && h[i].before.version == first.version + i
      && h[i].after.version == first.version + i + 1
      && h[i].before.taskId == h[i].after.taskId == h[i].command.taskId == first.taskId
  }

  ghost predicate TaskFollows(start: Database, db: Database, id: string)
    requires id in start.tasks
  {
    var first, h := SnapshotOf(id, start.tasks[id]), HistoryOf(db.log, id);
    && id in db.tasks
    && Linked(first, h)
    && SnapshotOf(id, db.tasks[id]) == After(first, h, |h|)
    && db.tasks[id].version == first.version + |h|
  }

  /** Every claim is complete and belongs to exactly the audit row its command wrote. */
  ghost predicate ClaimsMatch(claims: map<string, Claim>, log: seq<LogRow>) {
    && (forall i :: 0 <= i < |log| ==>
          log[i].command.idempotencyKey in claims && claims[log[i].command.idempotencyKey] == ClaimOf(log[i]))
    && (forall key :: key in claims ==> exists i :: 0 <= i < |log| && log[i].command.idempotencyKey == key)
  }

  ghost predicate KeysDistinct(log: seq<LogRow>) {
    forall i, j :: 0 <= i < j < |log| ==>
      log[i].command.idempotencyKey != log[j].command.idempotencyKey && log[i].command.auditId != log[j].command.auditId
  }

  /** The outbox announces exactly the logged changes, in the same order. */
  ghost predicate OutboxMirrors(outbox: seq<OutboxRow>, log: seq<LogRow>) {
    |outbox| == |log| && forall i :: 0 <= i < |log| ==> outbox[i] == Announcement(log[i])
  }

  ghost predicate TasksFollow(start: Database, db: Database) {
    db.tasks.Keys == start.tasks.Keys && forall id :: id in start.tasks ==> TaskFollows(start, db, id)
  }

  ghost predicate LogMatches(db: Database) {
    ClaimsMatch(db.claims, db.log) && KeysDistinct(db.log) && OutboxMirrors(db.outbox, db.log)
  }

  lemma HistoryAfter(log: seq<LogRow>, row: LogRow, id: string)
    ensures HistoryOf(log + [row], id) == if row.command.taskId == id then HistoryOf(log, id) + [row]
      else HistoryOf(log, id)
  {
    assert (log + [row])[..|log|] == log;
  }

  lemma LinkedGrows(first: Snapshot, h: seq<LogRow>, row: LogRow)
    requires Linked(first, h) && row.before == After(first, h, |h|)
    requires row.before.version == first.version + |h| && row.after.version == row.before.version + 1
    requires row.before.taskId == row.after.taskId == row.command.taskId == first.taskId
    ensures Linked(first, h + [row])
  {
    assert forall i :: 0 <= i <= |h| ==> After(first, h + [row], i) == After(first, h, i);
  }

  lemma TaskKeeps(start: Database, db: Database, c: Command, now: int, id: string)
    requires id in start.tasks && TaskFollows(start, db, id) && c.taskId in db.tasks
    ensures TaskFollows(start, Commit(db, NextRow(db, c, now)), id)
  {
    var row := NextRow(db, c, now);
    HistoryAfter(db.log, row, id);
    if c.taskId == id {
      LinkedGrows(SnapshotOf(id, start.tasks[id]), HistoryOf(db.log, id), row);
    }
  }

  lemma ClaimsKeep(claims: map<string, Claim>, log: seq<LogRow>, row: LogRow)
    requires ClaimsMatch(claims, log) && KeysDistinct(log)
    requires row.command.idempotencyKey !in claims
    requires forall i :: 0 <= i < |log| ==> log[i].command.auditId != row.command.auditId
    ensures ClaimsMatch(claims[row.command.idempotencyKey := ClaimOf(row)], log + [row])
    ensures KeysDistinct(log + [row])
  {
    var claims', log' := claims[row.command.idempotencyKey := ClaimOf(row)], log + [row];
    forall key | key in claims'
      ensures exists i :: 0 <= i < |log'| && log'[i].command.idempotencyKey == key
    {
      if key in claims {
        var i :| 0 <= i < |log| && log[i].command.idempotencyKey == key;
        assert log'[i] == log[i];
      } else {
        assert log'[|log|] == row;
      }
    }
  }

  /** Only a fresh success changes anything, and then it commits the next row under a new key. */
  lemma Effect(db: Database, c: Command, e: Env)
    ensures var (t, o) := Transition(db, c, e);
      if Fresh(o) then
        && c.taskId in db.tasks && c.idempotencyKey !in db.claims && !AuditIdUsed(db, c.auditId)
        && t == Commit(db, NextRow(db, c, e.now))
      else t == db
  {
  }

  lemma StepKeepsTasks(start: Database, db: Database, c: Command, e: Env)
    requires TasksFollow(start, db)
    ensures TasksFollow(start, Transition(db, c, e).0)
  {
    Effect(db, c, e);
    if Fresh(Transition(db, c, e).1) {
      var t := Commit(db, NextRow(db, c, e.now));
      forall id | id in start.tasks
        ensures TaskFollows(start, t, id)
      {
        TaskKeeps(start, db, c, e.now, id);
      }
    }
  }

  lemma StepKeepsLog(db: Database, c: Command, e: Env)
    requires LogMatches(db)
    ensures LogMatches(Transition(db, c, e).0)
  {
    Effect(db, c, e);
    if Fresh(Transition(db, c, e).1) {
      forall i | 0 <= i < |db.log|
        ensures db.log[i].command.auditId != c.auditId
      {
        assert db.log[i] in db.log;
      }
      ClaimsKeep(db.claims, db.log, NextRow(db, c, e.now));
    }
  }

  /**
   * After any run every task's audit rows link its first snapshot to its current one, and its version is the initial
   * one plus the number of rows.
   */
  lemma {:induction false} EveryRunLinked(start: Database, calls: seq<Call>)
    requires Initial(start)
    ensures TasksFollow(start, RunFrom(start, calls))
    decreases |calls|
  {
    if calls != [] {
      var last := calls[|calls| - 1];
      EveryRunLinked(start, calls[..|calls| - 1]);
      StepKeepsTasks(start, RunFrom(start, calls[..|calls| - 1]), last.command, last.env);
    }
  }

  /** After any run claims, audit rows and outbox rows match one to one, and no key or audit id occurs twice. */
  lemma {:induction false} EveryRunMatches(start: Database, calls: seq<Call>)
    requires Initial(start)
    ensures LogMatches(RunFrom(start, calls))
    decreases |calls|
  {
    if calls != [] {
      var last := calls[|calls| - 1];
      EveryRunMatches(start, calls[..|calls| - 1]);
      StepKeepsLog(RunFrom(start, calls[..|calls| - 1]), last.command, last.env);
    }
  }

  // ----- At most once

  /** Later states keep every claim and never lower a version. */
  ghost predicate Extends(db: Database, later: Database) {
    && (forall key :: key in db.claims ==> key in later.claims && later.claims[key] == db.claims[key])
    && (forall id :: id in db.tasks ==> id in later.tasks && later.tasks[id].version >= db.tasks[id].version)
    && db.log <= later.log
  }

  lemma {:induction false} RunExtends(db: Database, calls: seq<Call>)
    ensures Extends(db, RunFrom(db, calls))
    decreases |calls|
  {
    if calls != [] {
      RunExtends(db, calls[..|calls| - 1]);
    }
  }

  /** Once a command has taken effect no other command with the same expected version ever does. */
  lemma OneEffectPerVersion(db: Database, c: Command, e: Env, between: seq<Call>, other: Command, e': Env)
    requires Fresh(Transition(db, c, e).1)
    requires other.taskId == c.taskId && other.expectedVersion == c.expectedVersion
    ensures !Fresh(Transition(RunFrom(Transition(db, c, e).0, between), other, e').1)
  {
    RunExtends(Transition(db, c, e).0, between);
  }

  /**
   * Once a command has taken effect, whoever sends its key again changes nothing: the same command gets the recorded
   * snapshot back (unless its Agent may no longer act), any other gets an error.
   */
  lemma RepeatsChangeNothing(db: Database, c: Command, e: Env, between: seq<Call>, again: Command, e': Env)
    requires Fresh(Transition(db, c, e).1) && again.idempotencyKey == c.idempotencyKey
    ensures var later := RunFrom(Transition(db, c, e).0, between);
      var (t, o) := Transition(later, again, e');
      && t == later
      && (again != c ==> o.Failure?)
      && (again == c ==> o == if IsAgent(c.actorType) && !e'.mayParticipate then Failure(AgentRefused)
                             else Success(TransitionResult(Transition(db, c, e).1.value.task, true)))
  {
    RunExtends(Transition(db, c, e).0, between);
  }
}
