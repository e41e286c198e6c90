/** The order in which audit rows are listed, and what an audit event says of its row. */
module TaskListing {
  import opened Results
  import opened AuditValues
  import opened AuditLog
  import opened TaskTransitions
  import opened TaskReplay

  /** At the first place where the texts differ, the one has the smaller character. */
  predicate DiffersAt(a: string, b: string, k: nat) {
    k < |a| && k < |b| && a[..k] == b[..k] && a[k] < b[k]
  }

  lemma DiffersFirst(a: string, b: string, k: nat)
    requires DiffersAt(a, b, k)
    ensures k == 0 || a[0] == b[0]
  {
    if k > 0 {
      assert a[0] == a[..k][0] && b[0] == b[..k][0];
    }
  }

  /** Lexicographic order: the one text begins the other, or is smaller where they first differ. */
  lemma {:induction false} AtMostExactly(a: string, b: string)
    ensures AtMost(a, b) <==> a <= b || exists k: nat :: DiffersAt(a, b, k)
    decreases |a|
  {
    if a != [] && b != [] && a[0] == b[0] {
      AtMostExactly(a[1..], b[1..]);
      assert a == [a[0]] + a[1..] && b == [b[0]] + b[1..];
      assert a <= b <==> a[1..] <= b[1..];
      if k: nat :| DiffersAt(a[1..], b[1..], k) {
        assert a[..k + 1] == [a[0]] + a[1..][..k] && b[..k + 1] == [b[0]] + b[1..][..k];
        assert DiffersAt(a, b, k + 1);
      }
      if k: nat :| DiffersAt(a, b, k) {
        assert k > 0;
        assert a[1..][..k - 1] == a[..k][1..] && b[1..][..k - 1] == b[..k][1..];
        assert DiffersAt(a[1..], b[1..], k - 1);
      }
    } else if a != [] && b != [] {
      assert DiffersAt(a, b, 0) <==> a[0] < b[0];
      forall k: nat | DiffersAt(a, b, k)
        ensures k == 0
      {
        DiffersFirst(a, b, k);
      }
    }
  }

  /** Rows are listed by the start of their transaction and, among equals, by their identifier. */
  lemma OrderedExactly(a: LogRow, b: LogRow)
    ensures Ordered(a, b) <==>
      if a.createdAt == b.createdAt then
        a.command.auditId <= b.command.auditId || exists k: nat :: DiffersAt(a.command.auditId, b.command.auditId, k)
      else a.createdAt < b.createdAt
  {
    AtMostExactly(a.command.auditId, b.command.auditId);
  }

  /** The event names the command's actor, reason and correlation, and its states are the task before and after. */
  lemma EventTells(row: LogRow)
    ensures var e, c := TransitionEvent(row), row.command;
      && e.header.eventId == c.auditId && e.header.actorId == c.actorId && e.header.actorType == c.actorType
      && e.header.targetType == "TASK" && e.header.targetId == c.taskId && e.header.taskId == Some(c.taskId)
      && e.header.correlationId == c.correlationId && e.header.transactionId == Some(c.correlationId)
      && e.header.eventType == "TASK_TRANSITION" && e.header.action == "TRANSITION_TASK"
      && e.header.policyResult == "ALLOW" && e.version == 1 && e.reason == c.reason && e.hash.None?
      && Tells(e.before, row.before) && Tells(e.after, row.after)
  {
  }

  /** The five fields of a snapshot under their column names. */
  predicate Tells(state: AuditState, s: Snapshot) {
    && state.Keys == {"task_id", "status", "progress", "version", "updated_at"}
    && state["task_id"] == Text(s.taskId) && state["status"] == Text(s.status)
    && state["progress"] == Number(s.progress) && state["version"] == Number(s.version)
    && state["updated_at"] == Time(s.updatedAt)
  }
}
