/** Replaying a task from its audit rows: what the listing order must be for the replay to give the current task. */
module TaskReplay {
  import opened Results
  import opened AuditValues
  import opened AuditLog
  import opened TaskTransitions

  // ----- Rows as audit events

  function Shown(s: Snapshot): AuditState {
    map["task_id" := Text(s.taskId), "status" := Text(s.status), "progress" := Number(s.progress),
        "version" := Number(s.version), "updated_at" := Time(s.updatedAt)]
  }

  /** None of the snapshot's field names is one the redactor hides. */
  ghost predicate Readable(r: Redactor) {
    && Stable(r)
    && forall k :: k in {"task_id", "status", "progress", "version", "updated_at"} ==> !r.sensitive(k)
  }

  function TransitionEvent(row: LogRow): Event {
    var c := row.command;
    Event(Header(c.auditId, "TASK_TRANSITION", c.actorId, c.actorType, NAME, "TASK", c.taskId, "ALLOW",
                 c.correlationId, Some(c.correlationId), Some(c.taskId)),
          1, Shown(row.before), Shown(row.after), c.reason, None)
  }

  function EventOf(r: Redactor, row: LogRow): Event {
    StoredRow(r, TransitionEvent(row))
  }

  function EventsOf(r: Redactor, rows: seq<LogRow>): (events: seq<Event>)
    ensures |events| == |rows|
  {
    seq(|rows|, i requires 0 <= i < |rows| => EventOf(r, rows[i]))
  }

  /** A snapshot as the log shows it. */
  function Recorded(r: Redactor, s: Snapshot): AuditState {
    JsonState(r, Shown(s))
  }

  lemma RecordedFacts(r: Redactor, s: Snapshot)
    requires Readable(r)
    ensures SanitizeState(r, Recorded(r, s)) == Recorded(r, s)
    ensures Recorded(r, s) != map[]
    ensures "version" in Recorded(r, s) && Recorded(r, s)["version"] == Number(s.version)
  {
    StateFacts(r, Shown(s));
    assert ShowsNoSecret(r, Object(Shown(s)));
    StoredField(r, Shown(s), "version");
  }

  lemma NotForbidden()
    ensures !Forbidden(NAME)
  {
    var shouted := Texts.Upper(NAME);
    assert |shouted| == 15 && shouted[1] == 'R';
  }

  lemma EventFacts(r: Redactor, row: LogRow)
    requires Readable(r)
    ensures var e := EventOf(r, row);
      && e.header == TransitionEvent(row).header
      && HashPasses(r, e)
      && e.before == Recorded(r, row.before) && e.after == Recorded(r, row.after)
  {
    StoredStates(r, TransitionEvent(row));
    StoredRowPasses(r, TransitionEvent(row));
    SnapshotShowsNoSecret(r, row.before);
    SnapshotShowsNoSecret(r, row.after);
  }

  lemma SnapshotShowsNoSecret(r: Redactor, s: Snapshot)
    ensures ShowsNoSecret(r, Object(Shown(s)))
  {
  }

  function Key(id: string): string {
    "TASK" + ":" + id
  }

  function ReplayRows(r: Redactor, rows: seq<LogRow>): Result<Replay, ReplayError> {
    ReplayFrom(r, NOTHING, EventsOf(r, rows))
  }

  predicate OfTask(rows: seq<LogRow>, id: string) {
    forall i :: 0 <= i < |rows| ==> rows[i].command.taskId == id
  }

  /** Each row shows the state before it as the row before it left it. */
  ghost predicate RowsChained(r: Redactor, rows: seq<LogRow>) {
    forall i :: 0 < i < |rows| ==> Recorded(r, rows[i].before) == Recorded(r, rows[i - 1].after)
  }

  /** A transition's row is never refused by the replay for its action or its hash. */
  lemma RowIsPlain(r: Redactor, row: LogRow)
    requires Readable(r)
    ensures Plain(r, Key(row.command.taskId), EventOf(r, row))
  {
    EventFacts(r, row);
    RecordedFacts(r, row.before);
    RecordedFacts(r, row.after);
    NotForbidden();
  }

  lemma EventsFacts(r: Redactor, id: string, rows: seq<LogRow>)
    requires Readable(r) && OfTask(rows, id)
    ensures AllPlain(r, Key(id), EventsOf(r, rows))
    ensures Chained(EventsOf(r, rows)) <==> RowsChained(r, rows)
    ensures rows != [] ==> EventsOf(r, rows)[|rows| - 1].after == Recorded(r, rows[|rows| - 1].after)
  {
    var events := EventsOf(r, rows);
    forall i | 0 <= i < |rows|
      ensures Plain(r, Key(id), events[i])
      ensures events[i].before == Recorded(r, rows[i].before) && events[i].after == Recorded(r, rows[i].after)
    {
      RowIsPlain(r, rows[i]);
      EventFacts(r, rows[i]);
    }
  }

  lemma RowsReplayIfChained(r: Redactor, id: string, rows: seq<LogRow>)
    requires Readable(r) && OfTask(rows, id)
    ensures ReplayRows(r, rows).Success? <==> RowsChained(r, rows)
  {
    EventsFacts(r, id, rows);
    ReplaysIfChained(r, Key(id), EventsOf(r, rows));
  }

  lemma RowsReplayTo(r: Redactor, id: string, rows: seq<LogRow>)
    requires Readable(r) && OfTask(rows, id) && ReplayRows(r, rows).Success?
    ensures var s := ReplayRows(r, rows).value;
      s.processed == |rows| && (rows != [] ==> s.states == map[Key(id) := Recorded(r, rows[|rows| - 1].after)])
  {
    EventsFacts(r, id, rows);
    ReplaysIfChained(r, Key(id), EventsOf(r, rows));
  }

  ghost predicate VersionsChained(rows: seq<LogRow>) {
    forall i :: 0 < i < |rows| ==> rows[i].before.version == rows[i - 1].after.version
  }

  ghost predicate RowsAmong(p: seq<LogRow>, h: seq<LogRow>) {
    |p| == |h| && forall i :: 0 <= i < |p| ==> p[i] in h
  }

  lemma ChainedVersions(r: Redactor, rows: seq<LogRow>)
    requires Readable(r) && RowsChained(r, rows)
    ensures VersionsChained(rows)
  {
    forall i | 0 < i < |rows|
      ensures rows[i].before.version == rows[i - 1].after.version
    {
      RecordedFacts(r, rows[i].before);
      RecordedFacts(r, rows[i - 1].after);
    }
  }

  /** Of all arrangements of a linked history only the order in which it was committed is chained. */
  lemma OnlyCommitOrderChains(r: Redactor, first: Snapshot, h: seq<LogRow>, p: seq<LogRow>)
    requires Readable(r) && Linked(first, h) && RowsAmong(p, h)
    ensures RowsChained(r, p) <==> p == h
  {
    if RowsChained(r, p) {
      ChainedVersions(r, p);
      OneOrder(first, h, p);
    }
  }

  lemma OneOrder(first: Snapshot, h: seq<LogRow>, p: seq<LogRow>)
    requires Linked(first, h) && RowsAmong(p, h) && VersionsChained(p)
    ensures p == h
  {
    forall i | 0 <= i < |p|
      ensures p[i] == h[i]
    {
      VersionsAdvance(first, h, p, 0);
      VersionsAdvance(first, h, p, i);
      VersionsAdvance(first, h, p, |p| - 1);
      var j := RowAt(first, h, p[i]);
      assert i == j;
    }
  }

  lemma RowAt(first: Snapshot, h: seq<LogRow>, row: LogRow) returns (j: nat)
    requires Linked(first, h) && row in h
    ensures j < |h| && h[j] == row
    ensures row.before.version == first.version + j && row.after.version == row.before.version + 1
  {
    j :| 0 <= j < |h| && h[j] == row;
  }

  lemma {:induction false} VersionsAdvance(first: Snapshot, h: seq<LogRow>, p: seq<LogRow>, i: nat)
    requires Linked(first, h) && RowsAmong(p, h) && VersionsChained(p) && i < |p|
    ensures p[i].before.version == p[0].before.version + i
    ensures first.version <= p[i].before.version < first.version + |h|
    decreases i
  {
    var j := RowAt(first, h, p[i]);
    if i > 0 {
      var k := RowAt(first, h, p[i - 1]);
      VersionsAdvance(first, h, p, i - 1);
    }
  }

  // ----- The listing: ORDER BY created_at, id

  /** Byte order of texts. */
  predicate AtMost(a: string, b: string) {
    a == [] || (b != [] && (a[0] < b[0] || (a[0] == b[0] && AtMost(a[1..], b[1..]))))
  }

  lemma {:induction false} AtMostTotal(a: string, b: string)
    ensures AtMost(a, b) || AtMost(b, a)
    decreases |a|
  {
    if a != [] && b != [] && a[0] == b[0] {
      AtMostTotal(a[1..], b[1..]);
    }
  }

  predicate Ordered(a: LogRow, b: LogRow) {
    a.createdAt < b.createdAt || (a.createdAt == b.createdAt && AtMost(a.command.auditId, b.command.auditId))
  }

  function Insert(sorted: seq<LogRow>, row: LogRow): seq<LogRow> {
    if sorted == [] || Ordered(sorted[|sorted| - 1], row) then sorted + [row]
    else Insert(sorted[..|sorted| - 1], row) + [sorted[|sorted| - 1]]
  }

  function Listed(rows: seq<LogRow>): seq<LogRow> {
    if rows == [] then [] else Insert(Listed(rows[..|rows| - 1]), rows[|rows| - 1])
  }

  ghost predicate InOrder(rows: seq<LogRow>) {
    forall i :: 0 < i < |rows| ==> Ordered(rows[i - 1], rows[i])
  }

  lemma {:induction false} InsertSorts(sorted: seq<LogRow>, row: LogRow)
    requires InOrder(sorted)
    ensures InOrder(Insert(sorted, row))
    ensures var all := Insert(sorted, row);
      |all| == |sorted| + 1 && (all[|sorted|] == row || (sorted != [] && all[|sorted|] == sorted[|sorted| - 1]))
    decreases |sorted|
  {
    if sorted != [] && !Ordered(sorted[|sorted| - 1], row) {
      var init, last := sorted[..|sorted| - 1], sorted[|sorted| - 1];
      assert sorted == init + [last];
      InsertSorts(init, row);
      AtMostTotal(last.command.auditId, row.command.auditId);
      assert Ordered(row, last);
    }
  }

  lemma {:induction false} InsertAdds(sorted: seq<LogRow>, row: LogRow)
    ensures multiset(Insert(sorted, row)) == multiset(sorted) + multiset{row}
    decreases |sorted|
  {
    if sorted != [] {
      assert sorted == sorted[..|sorted| - 1] + [sorted[|sorted| - 1]];
      InsertAdds(sorted[..|sorted| - 1], row);
    }
  }

  /** The listing is the rows, sorted. */
  lemma {:induction false} ListedSorts(rows: seq<LogRow>)
    ensures InOrder(Listed(rows)) && multiset(Listed(rows)) == multiset(rows)
    ensures |Listed(rows)| == |rows|
    decreases |rows|
  {
    if rows != [] {
      var init, last := rows[..|rows| - 1], rows[|rows| - 1];
      assert rows == init + [last];
      ListedSorts(init);
      InsertSorts(Listed(init), last);
      InsertAdds(Listed(init), last);
    }
  }

  lemma {:induction false} ListedKeepsOrder(rows: seq<LogRow>)
    requires InOrder(rows)
    ensures Listed(rows) == rows
    decreases |rows|
  {
    if rows != [] {
      var init, last := rows[..|rows| - 1], rows[|rows| - 1];
      assert rows == init + [last];
      ListedKeepsOrder(init);
    }
  }

  // ----- The theorem

  function ReplayTask(r: Redactor, db: Database, id: string): Result<Replay, ReplayError> {
    ReplayRows(r, Listed(HistoryOf(db.log, id)))
  }

  /**
   * After any run, replaying a task succeeds exactly when its transactions committed in the order in which they began
   * (the order of created_at and id); it then processes one row per version and ends in the task's current snapshot.
   */
  lemma ReplayGivesTask(r: Redactor, start: Database, calls: seq<Call>, id: string)
    requires Readable(r) && Initial(start) && id in start.tasks
    ensures var db := RunFrom(start, calls);
      var h, reply := HistoryOf(db.log, id), ReplayTask(r, db, id);
      && id in db.tasks
      && (reply.Success? <==> InOrder(h))
      && (reply.Success? ==>
            && reply.value.processed == db.tasks[id].version - start.tasks[id].version
            && (h != [] ==> reply.value.states == map[Key(id) := Recorded(r, SnapshotOf(id, db.tasks[id]))]))
  {
    EveryRunLinked(start, calls);
    var db := RunFrom(start, calls);
    assert TaskFollows(start, db, id);
    var first, h := SnapshotOf(id, start.tasks[id]), HistoryOf(db.log, id);
    ListedSorts(h);
    forall i | 0 <= i < |h|
      ensures Listed(h)[i] in h && Listed(h)[i].command.taskId == id
    {
      assert Listed(h)[i] in multiset(Listed(h));
      var j :| 0 <= j < |h| && h[j] == Listed(h)[i];
    }
    OnlyCommitOrderChains(r, first, h, Listed(h));
    RowsReplayIfChained(r, id, Listed(h));
    if InOrder(h) {
      ListedKeepsOrder(h);
      RowsReplayTo(r, id, h);
    }
  }

  /** When the clock advances between transactions every task of every run replays. */
  lemma SerialRunsReplay(r: Redactor, start: Database, calls: seq<Call>, id: string)
    requires Readable(r) && Initial(start) && id in start.tasks
    requires forall i, j :: 0 <= i < j < |calls| ==> calls[i].env.now < calls[j].env.now
    ensures ReplayTask(r, RunFrom(start, calls), id).Success?
  {
    RowsInOrder(start, calls, id);
    ReplayGivesTask(r, start, calls, id);
  }

  lemma {:induction false} RowsInOrder(start: Database, calls: seq<Call>, id: string)
    requires Initial(start)
    requires forall i, j :: 0 <= i < j < |calls| ==> calls[i].env.now < calls[j].env.now
    ensures var h := HistoryOf(RunFrom(start, calls).log, id);
      InOrder(h) && (h != [] ==> calls != [] && h[|h| - 1].createdAt <= calls[|calls| - 1].env.now)
    decreases |calls|
  {
    if calls != [] {
      var before, last := calls[..|calls| - 1], calls[|calls| - 1];
      RowsInOrder(start, before, id);
      var db := RunFrom(start, before);
      Effect(db, last.command, last.env);
      if Fresh(Transition(db, last.command, last.env).1) {
        HistoryAfter(db.log, NextRow(db, last.command, last.env.now), id);
      }
    }
  }

  function SampleCommand(version: int, key: string): Command {
    Command("t", version, "IN_PROGRESS", 10, "owner", "OWNER", "go", "c", key, key, key, None)
  }

  function SampleStart(): Database {
    Database(map["t" := Task("PLANNING", 0, 1, 0)], map[], [], [])
  }

  function SampleCalls(): seq<Call> {
    [Call(SampleCommand(1, "a"), Env(20, true, false)), Call(SampleCommand(2, "b"), Env(10, true, false))]
  }

  lemma SampleRun()
    ensures var one := Commit(SampleStart(), NextRow(SampleStart(), SampleCommand(1, "a"), 20));
      "t" in one.tasks && RunFrom(SampleStart(), SampleCalls()) == Commit(one, NextRow(one, SampleCommand(2, "b"), 10))
  {
    var calls := SampleCalls();
    assert Texts.Upper("OWNER")[0] == 'O';
    assert calls[..1] == [calls[0]] && [calls[0]][..0] == [];
    var one := Commit(SampleStart(), NextRow(SampleStart(), SampleCommand(1, "a"), 20));
    assert RunFrom(SampleStart(), [calls[0]]) == one by {
      assert RunFrom(SampleStart(), []) == SampleStart();
      assert Transition(SampleStart(), calls[0].command, calls[0].env).0 == one;
    }
    assert "a"[0] != "b"[0];
    assert Transition(one, calls[1].command, calls[1].env).0 == Commit(one, NextRow(one, SampleCommand(2, "b"), 10));
  }

  /**
   * Two transactions, the later one to commit having begun first: both succeed, and the task can no longer be replayed.
   */
  lemma InvertedCommitsDoNotReplay(r: Redactor)
    requires Readable(r)
    ensures var db := RunFrom(SampleStart(), SampleCalls());
      && "t" in db.tasks && db.tasks["t"].version == 3
      && ReplayTask(r, db, "t").Failure?
  {
    SampleRun();
    var one := Commit(SampleStart(), NextRow(SampleStart(), SampleCommand(1, "a"), 20));
    HistoryAfter([], one.log[0], "t");
    assert [] + [one.log[0]] == one.log;
    HistoryAfter(one.log, NextRow(one, SampleCommand(2, "b"), 10), "t");
    var h := HistoryOf(RunFrom(SampleStart(), SampleCalls()).log, "t");
    assert !Ordered(h[1 - 1], h[1]);
    ReplayGivesTask(r, SampleStart(), SampleCalls(), "t");
  }
}
