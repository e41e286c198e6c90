/** The task repository in place: statements on the rows of one transaction, commit or rollback, and paged replay. */
module TaskRepository {
  import opened Results
  import opened AuditValues
  import opened AuditLog
  import opened TaskTransitions
  import opened TaskReplay
  import Spec = TaskReplay

  function PageOf<T>(all: seq<T>, limit: nat, offset: nat): seq<T> {
    if |all| <= offset then [] else if |all| <= offset + limit then all[offset..] else all[offset..offset + limit]
  }

  /** A page carries on where the pages before it stopped, and a short one ends the listing. */
  lemma PageExtends<T>(all: seq<T>, limit: nat, offset: nat)
    requires limit > 0 && offset <= |all|
    ensures var page := PageOf(all, limit, offset);
      && offset + |page| <= |all| && all[..offset] + page == all[..offset + |page|]
      && (|page| < limit ==> all[..offset + |page|] == all)
  {
  }

  lemma Grows(start: Database, history: seq<Call>, c: Command, e: Env)
    ensures RunFrom(start, history + [Call(c, e)]) == Transition(RunFrom(start, history), c, e).0
  {
    assert (history + [Call(c, e)])[..|history + [Call(c, e)]| - 1] == history;
  }

  class TaskRepository {
    var committed: Database
    var tasks: map<string, Task>
    var claims: map<string, Claim>
    var log: seq<LogRow>
    var outbox: seq<OutboxRow>
    ghost const start: Database
    ghost var history: seq<Call>

    function Working(): Database
      reads this
    {
      Database(tasks, claims, log, outbox)
    }

    ghost predicate Idle()
      reads this
    {
      Working() == committed
    }

    /** No transaction is open, and the rows are those the commands so far lead to from the first ones. */
    ghost predicate Reached()
      reads this
    {
      Idle() && committed == RunFrom(start, history)
    }

    constructor (start: Database)
      ensures this.start == start && Reached() && history == []
    {
      this.start := start;
      committed, tasks, claims, log, outbox := start, start.tasks, start.claims, start.log, start.outbox;
      history := [];
    }

    method CommitTransaction()
      modifies this`committed
      ensures Idle() && committed == old(Working())
    {
      committed := Working();
    }

    method Rollback()
      modifies this`tasks, this`claims, this`log, this`outbox
      ensures Idle()
    {
      tasks, claims, log, outbox := committed.tasks, committed.claims, committed.log, committed.outbox;
    }

    /** Inserts the key, or answers from the row that has it. */
    method ClaimIdempotency(c: Command) returns (replay: Option<Outcome>)
      modifies this`claims
      ensures c.idempotencyKey in old(claims) ==>
        claims == old(claims) && replay == Some(Repeated(old(claims)[c.idempotencyKey], c))
      ensures c.idempotencyKey !in old(claims) ==>
        replay.None? && claims == old(claims)[c.idempotencyKey := Claim(NAME, c.actorId, Some(Fingerprint(c)), None)]
    {
      if c.idempotencyKey !in claims {
        claims := claims[c.idempotencyKey := Claim(NAME, c.actorId, Some(Fingerprint(c)), None)];
        return None;
      }
      var existing := claims[c.idempotencyKey];
      if existing.commandName != NAME || existing.actorId != c.actorId {
        return Some(Failure(BoundToAnotherCommand));
      }
      if existing.fingerprint.None? {
        return Some(Failure(PredatesFingerprints));
      }
      if existing.fingerprint.value != Fingerprint(c) {
        return Some(Failure(BoundToAnotherRequest));
      }
      if existing.response.None? {
        return Some(Failure(StillInProgress));
      }
      return Some(Success(TransitionResult(existing.response.value, true)));
    }

    /** UPDATE ... WHERE id AND version. */
    method UpdateTask(c: Command, now: int) returns (after: Option<Snapshot>)
      modifies this`tasks
      ensures after.Some? <==> c.taskId in old(tasks) && old(tasks)[c.taskId].version == c.expectedVersion
      ensures after.None? ==> tasks == old(tasks)
      ensures after.Some? ==>
        && tasks == old(tasks)[c.taskId := Updated(old(tasks)[c.taskId], c, now)]
        && after.value == SnapshotOf(c.taskId, tasks[c.taskId])
    {
      if c.taskId !in tasks || tasks[c.taskId].version != c.expectedVersion {
        return None;
      }
      tasks := tasks[c.taskId := Updated(tasks[c.taskId], c, now)];
      return Some(SnapshotOf(c.taskId, tasks[c.taskId]));
    }

    method AppendTaskAudit(row: LogRow) returns (ok: bool)
      modifies this`log
      ensures ok <==> !AuditIdUsed(old(Working()), row.command.auditId)
      ensures log == if ok then old(log) + [row] else old(log)
    {
      for i := 0 to |log|
        invariant log == old(log)
        invariant forall j :: 0 <= j < i ==> log[j].command.auditId != row.command.auditId
      {
        if log[i].command.auditId == row.command.auditId {
          return false;
        }
      }
      log := log + [row];
      return true;
    }

    method EnqueueTaskEvent(c: Command, row: LogRow) returns (ok: bool)
      requires row.command == c
      modifies this`outbox
      ensures ok <==> !OutboxUsed(old(Working()), c)
      ensures outbox == if ok then old(outbox) + [Announcement(row)] else old(outbox)
    {
      for i := 0 to |outbox|
        invariant outbox == old(outbox)
        invariant forall j :: 0 <= j < i ==>
          outbox[j].eventId != c.outboxId && outbox[j].idempotencyKey != c.idempotencyKey
      {
        if outbox[i].eventId == c.outboxId || outbox[i].idempotencyKey == c.idempotencyKey {
          return false;
        }
      }
      outbox := outbox + [Announcement(row)];
      return true;
    }

    /** Audit, outbox and the response of the claim. */
    method RecordTransition(row: LogRow, e: Env) returns (ok: bool)
      requires row.command.idempotencyKey in claims
      modifies this`claims, this`log, this`outbox
      ensures ok <==>
        && !e.databaseFails
        && !AuditIdUsed(old(Working()), row.command.auditId) && !OutboxUsed(old(Working()), row.command)
      ensures
        var key := row.command.idempotencyKey;
        ok ==>
          && log == old(log) + [row] && outbox == old(outbox) + [Announcement(row)]
          && claims == old(claims)[key := old(claims)[key].(response := Some(row.after))]
    {
      ok := AppendTaskAudit(row);
      if ok {
        ok := EnqueueTaskEvent(row.command, row);
      }
      if ok && e.databaseFails {
        ok := false;
      }
      if ok {
        var claim := claims[row.command.idempotencyKey];
        claims := claims[row.command.idempotencyKey := claim.(response := Some(row.after))];
      }
    }

    /** The statements of one transition, up to the first that raises. */
    method TransitionStatements(c: Command, e: Env) returns (reply: Outcome)
      requires Idle()
      modifies this`tasks, this`claims, this`log, this`outbox
      ensures reply == Transition(committed, c, e).1
      ensures reply.Success? ==> Working() == Transition(committed, c, e).0
    {
      if IsAgent(c.actorType) {
        if c.riskLevel.None? {
          return Failure(RiskLevelMissing);
        }
        if !e.mayParticipate {
          return Failure(AgentRefused);
        }
      }
      var replay := ClaimIdempotency(c);
      if replay.Some? {
        return replay.value;
      }
      if c.taskId !in tasks {
        return Failure(TaskNotFound);
      }
      if tasks[c.taskId].version != c.expectedVersion {
        return Failure(VersionChanged);
      }
      var before := SnapshotOf(c.taskId, tasks[c.taskId]);
      var after := UpdateTask(c, e.now);
      var row := LogRow(c, before, after.value, e.now);
      assert row == NextRow(committed, c, e.now);
      var ok := RecordTransition(row, e);
      if !ok {
        return Failure(DatabaseRefused);
      }
      return Success(TransitionResult(after.value, false));
    }

    /** One unit of work: afterwards the committed rows are those of the specification. */
    method TransitionTask(c: Command, e: Env) returns (reply: Outcome)
      requires Reached()
      modifies this
      ensures Reached() && history == old(history) + [Call(c, e)]
      ensures (committed, reply) == Transition(old(committed), c, e)
    {
      Grows(start, history, c, e);
      history := history + [Call(c, e)];
      reply := TransitionStatements(c, e);
      if reply.Success? {
        CommitTransaction();
      } else {
        Rollback();
      }
    }

    /** SELECT ... WHERE task_id ORDER BY created_at, id LIMIT OFFSET; none when the limit is out of range. */
    method ListAuditEvents(r: Redactor, id: string, limit: int, offset: nat) returns (page: Option<seq<Event>>)
      ensures page.Some? <==> 1 <= limit <= 1000
      ensures page.Some? ==> page.value == PageOf(EventsOf(r, Listed(HistoryOf(log, id))), limit, offset)
    {
      if limit < 1 || limit > 1000 {
        return None;
      }
      return Some(PageOf(EventsOf(r, Listed(HistoryOf(log, id))), limit, offset));
    }

    /** Reads page after page until a short one. */
    method ReadAll(r: Redactor, id: string, limit: int) returns (events: seq<Event>)
      requires 1 <= limit <= 1000
      ensures events == EventsOf(r, Listed(HistoryOf(log, id)))
    {
      ghost var all := EventsOf(r, Listed(HistoryOf(log, id)));
      events := [];
      var offset := 0;
      while true
        invariant 0 <= offset <= |all| && events == all[..offset]
        decreases |all| - offset
      {
        var page := ListAuditEvents(r, id, limit, offset);
        PageExtends(all, limit, offset);
        events := events + page.value;
        if |page.value| < limit {
          break;
        }
        offset := offset + |page.value|;
      }
    }

    /** Whatever the page size, the replay is that of the whole log. */
    method ReplayTask(r: Redactor, id: string, limit: int) returns (reply: Option<Result<Replay, ReplayError>>)
      ensures reply.Some? <==> 1 <= limit <= 1000
      ensures reply.Some? ==> reply.value == Spec.ReplayTask(r, Working(), id)
    {
      if limit < 1 || limit > 1000 {
        return None;
      }
      var events := ReadAll(r, id, limit);
      var replayed := ReplayAuditEvents(r, events);
      return Some(replayed);
    }
  }
}
