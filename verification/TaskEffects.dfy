/** What a task transition leaves in each table, column by column. */
module TaskEffects {
  import opened Results
  import opened Texts
  import opened TaskTransitions

  /** Nobody used the command's key, audit identifier or outbox identifier before. */
  ghost predicate Unused(db: Database, c: Command) {
    && c.idempotencyKey !in db.claims
    && (forall row :: row in db.log ==> row.command.auditId != c.auditId)
    && (forall row :: row in db.outbox ==> row.eventId != c.outboxId && row.idempotencyKey != c.idempotencyKey)
  }

  /** An Agent names a risk level and takes part in the Task; anyone else need not. */
  predicate MayAct(c: Command, e: Env) {
    Upper(c.actorType) == "AGENT" ==> c.riskLevel.Some? && e.mayParticipate
  }

  /** Exactly then a command takes effect. */
  ghost predicate Effective(db: Database, c: Command, e: Env) {
    && MayAct(c, e) && Unused(db, c) && !e.databaseFails
    && c.taskId in db.tasks && db.tasks[c.taskId].version == c.expectedVersion
  }

  lemma EffectiveExactly(db: Database, c: Command, e: Env)
    ensures Fresh(Transition(db, c, e).1) <==> Effective(db, c, e)
    ensures !Effective(db, c, e) ==> Transition(db, c, e).0 == db
  {
  }

  /** The task row has the command's status and progress, one version on, at the time of the transaction. */
  predicate Carried(t: Task, c: Command, now: int) {
    t.status == c.status && t.progress == c.progress && t.version == c.expectedVersion + 1 && t.updatedAt == now
  }

  /** A snapshot says of the task what its row says. */
  predicate Shows(s: Snapshot, id: string, t: Task) {
    && s.taskId == id && s.status == t.status && s.progress == t.progress && s.version == t.version
    && s.updatedAt == t.updatedAt
  }

  /** The audit row tells the change from the old row to the new one. */
  predicate Tells(row: LogRow, c: Command, was: Task, becomes: Task, now: int) {
    row.command == c && row.createdAt == now && Shows(row.before, c.taskId, was) && Shows(row.after, c.taskId, becomes)
  }

  /**
   * An effective command changes its own task, to what it asks for, and no other one; it adds one audit row that tells
   * the change, one outbox row that announces it and one completed claim, and answers with the new row.
   */
  lemma EffectExactly(db: Database, c: Command, e: Env)
    requires Effective(db, c, e)
    ensures var (t, o) := Transition(db, c, e);
      && c.taskId in t.tasks && Carried(t.tasks[c.taskId], c, e.now)
      && t.tasks == db.tasks[c.taskId := t.tasks[c.taskId]]
      && o.Success? && !o.value.replayed && Shows(o.value.task, c.taskId, t.tasks[c.taskId])
      && |t.log| == |db.log| + 1 && t.log[..|db.log|] == db.log
      && Tells(t.log[|db.log|], c, db.tasks[c.taskId], t.tasks[c.taskId], e.now)
      && |t.outbox| == |db.outbox| + 1 && t.outbox[..|db.outbox|] == db.outbox
      && var (row, sent) := (t.log[|db.log|], t.outbox[|db.outbox|]);
        && sent.eventId == c.outboxId && sent.idempotencyKey == c.idempotencyKey && sent.taskId == c.taskId
        && sent.before == row.before && sent.after == row.after
        && c.idempotencyKey in t.claims && t.claims == db.claims[c.idempotencyKey := t.claims[c.idempotencyKey]]
        && t.claims[c.idempotencyKey].actorId == c.actorId
        && t.claims[c.idempotencyKey].response == Some(o.value.task)
  {
    EffectiveExactly(db, c, e);
  }

  /** What a command gets whose key is on record: the stored answer again, if the record is its own and complete. */
  lemma RepeatedExactly(claim: Claim, c: Command)
    ensures var own := claim.commandName == "TRANSITION_TASK" && claim.actorId == c.actorId;
      && (Repeated(claim, c).Success? <==>
            own && claim.fingerprint.Some? && claim.fingerprint.value.command == c && claim.response.Some?)
      && (Repeated(claim, c).Success? ==>
            Repeated(claim, c).value.replayed && Repeated(claim, c).value.task == claim.response.value)
      && (Repeated(claim, c) == Failure(BoundToAnotherCommand) <==> !own)
      && (Repeated(claim, c) == Failure(BoundToAnotherRequest) <==>
            own && claim.fingerprint.Some? && claim.fingerprint.value.command != c)
  {
  }

  /** Why any other command fails, in the order of the checks, unless its key has the very same command on record. */
  lemma FailsExactly(db: Database, c: Command, e: Env)
    requires !Effective(db, c, e)
    ensures Transition(db, c, e).1 ==
      if Upper(c.actorType) == "AGENT" && c.riskLevel.None? then Failure(RiskLevelMissing)
      else if !MayAct(c, e) then Failure(AgentRefused)
      else if c.idempotencyKey in db.claims then Repeated(db.claims[c.idempotencyKey], c)
      else if c.taskId !in db.tasks then Failure(TaskNotFound)
      else if db.tasks[c.taskId].version != c.expectedVersion then Failure(VersionChanged)
      else Failure(DatabaseRefused)
  {
  }

  // ----- Over runs

  /** Every audit row ends in what its command asked for. */
  ghost predicate RowsCarry(log: seq<LogRow>) {
    forall i :: 0 <= i < |log| ==>
      var row := log[i];
      && row.after.taskId == row.command.taskId && row.after.status == row.command.status
      && row.after.progress == row.command.progress && row.after.version == row.command.expectedVersion + 1
      && row.after.updatedAt == row.createdAt
  }

  lemma {:induction false} EveryRunCarries(start: Database, calls: seq<Call>)
    requires Initial(start)
    ensures RowsCarry(RunFrom(start, calls).log)
    decreases |calls|
  {
    if calls != [] {
      var db, last := RunFrom(start, calls[..|calls| - 1]), calls[|calls| - 1];
      EveryRunCarries(start, calls[..|calls| - 1]);
      EffectiveExactly(db, last.command, last.env);
      if Effective(db, last.command, last.env) {
        EffectExactly(db, last.command, last.env);
        var t := Transition(db, last.command, last.env).0;
        assert forall i :: 0 <= i < |db.log| ==> t.log[i] == t.log[..|db.log|][i];
      }
    }
  }

  lemma {:induction false} HistoryIsLogged(log: seq<LogRow>, id: string)
    ensures forall row :: row in HistoryOf(log, id) ==> row in log && row.command.taskId == id
    decreases |log|
  {
    if log != [] {
      HistoryIsLogged(log[..|log| - 1], id);
    }
  }

  /** The end of a linked history is the task's row. */
  lemma LastRowShows(start: Database, db: Database, id: string)
    requires id in start.tasks && TaskFollows(start, db, id)
    ensures var h := HistoryOf(db.log, id);
      && id in db.tasks
      && (h == [] ==> db.tasks[id] == start.tasks[id])
      && (h != [] ==> Shows(h[|h| - 1].after, id, db.tasks[id]))
  {
  }

  /** After any run a task has the status and progress of the last effective command on it, or its first ones. */
  lemma LastCommandCarries(start: Database, calls: seq<Call>, id: string)
    requires Initial(start) && id in start.tasks
    ensures var db, h := RunFrom(start, calls), HistoryOf(RunFrom(start, calls).log, id);
      && id in db.tasks
      && if h == [] then db.tasks[id] == start.tasks[id]
         else Carried(db.tasks[id], h[|h| - 1].command, h[|h| - 1].createdAt) && h[|h| - 1].command.taskId == id
  {
    EveryRunLinked(start, calls);
    EveryRunCarries(start, calls);
    var db := RunFrom(start, calls);
    var h := HistoryOf(db.log, id);
    HistoryIsLogged(db.log, id);
    LastRowShows(start, db, id);
    if h != [] {
      assert h[|h| - 1] in db.log;
    }
  }
}
