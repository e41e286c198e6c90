/**
 * The migration runner on a database connection: statements change the open transaction, commit and rollback end it.
 */
module MigrationRunner {
  import opened Results
  import opened Migrations
  import Spec = Migrations

  class Connection {
    var committed: Schema
    var pending: Schema

    constructor ()
      ensures committed == pending == EMPTY
    {
      committed, pending := EMPTY, EMPTY;
    }

    method Commit()
      modifies this
      ensures committed == pending == old(pending)
    {
      committed := pending;
    }

    method Rollback()
      modifies this
      ensures committed == pending == old(committed)
    {
      pending := committed;
    }

    method Execute(m: Migration)
      modifies this`pending
      ensures pending == old(pending).(executed := old(pending).executed + [m])
    {
      pending := pending.(executed := pending.executed + [m]);
    }

    /** The version is new; the name must be too. */
    method InsertHistory(m: Migration) returns (ok: bool)
      modifies this`pending
      ensures ok <==> !NameUsed(old(pending).history, m.name)
      ensures pending == if ok then old(pending).(history := old(pending).history[m.version := RecordOf(m)])
        else old(pending)
    {
      var left := pending.history.Keys;
      while left != {}
        invariant left <= pending.history.Keys && pending == old(pending)
        invariant forall v :: v in pending.history && v !in left ==> pending.history[v].name != m.name
        decreases left
      {
        var v :| v in left;
        if pending.history[v].name == m.name {
          return false;
        }
        left := left - {v};
      }
      pending := pending.(history := pending.history[m.version := RecordOf(m)]);
      return true;
    }
  }

  /** max(applied, default=0) */
  method LastVersion(applied: map<nat, Record>) returns (last: nat)
    ensures IsLast(applied, last)
  {
    last := 0;
    var left := applied.Keys;
    var empty := true;
    while left != {}
      invariant left <= applied.Keys && (empty ==> left == applied.Keys && last == 0) && (!empty ==> last in applied)
      invariant forall v :: v in applied && v !in left ==> v <= last
      decreases left
    {
      var v :| v in left;
      if empty || v > last {
        last := v;
      }
      empty := false;
      left := left - {v};
    }
  }

  method FirstVersion(versions: set<nat>) returns (first: nat)
    requires versions != {}
    ensures first in versions && forall v :: v in versions ==> first <= v
  {
    first :| first in versions;
    var left := versions - {first};
    while left != {}
      invariant left <= versions && first in versions
      invariant forall v :: v in versions && v !in left ==> first <= v
      decreases left
    {
      var v :| v in left;
      if v < first {
        first := v;
      }
      left := left - {v};
    }
  }

  method FindMigration(ms: seq<Migration>, version: nat) returns (found: Option<Migration>)
    ensures found.Some? ==> found.value in ms && found.value.version == version
    ensures found.None? <==> !Known(ms, version)
  {
    for i := 0 to |ms|
      invariant forall j :: 0 <= j < i ==> ms[j].version != version
    {
      if ms[i].version == version {
        return Some(ms[i]);
      }
    }
    return None;
  }

  lemma OneFirst(ms: seq<Migration>, history: map<nat, Record>, v: nat, w: nat)
    requires FirstOffender(ms, history, v) && FirstOffender(ms, history, w)
    ensures v == w
  {
    assert !(v < w) && !(w < v);
  }

  /** Checks the applied versions in ascending order and reports the first that does not match its file. */
  method ValidateApplied(ms: seq<Migration>, applied: map<nat, Record>) returns (error: Option<MigrationError>)
    requires Sorted(ms)
    ensures error == Validate(ms, applied)
  {
    var left := applied.Keys;
    while left != {}
      invariant left <= applied.Keys
      invariant forall v, w :: v in applied && v !in left && w in left ==> v < w
      invariant forall v :: v in applied && v !in left ==> !Offends(ms, applied, v)
      decreases left
    {
      var v := FirstVersion(left);
      var found := FindMigration(ms, v);
      if found.None? || found.value.name != applied[v].name || Checksum(found.value.sql) != applied[v].checksum {
        assert Offends(ms, applied, v) by {
          forall m | m in ms && m.version == v
            ensures found.Some? && m == found.value
          {
          }
        }
        assert FirstOffender(ms, applied, v);
        forall w | FirstOffender(ms, applied, w)
          ensures w == v
        {
          OneFirst(ms, applied, v, w);
        }
        return Some(if found.None? then UnknownVersion(v) else ChecksumMismatch(v));
      }
      assert Matches(ms, v, applied[v]);
      left := left - {v};
    }
    return None;
  }

  lemma Grows(start: Schema, history: seq<Op>, op: Op)
    ensures RunFrom(start, history + [op]) == Step(RunFrom(start, history), op).0
  {
    assert (history + [op])[..|history + [op]| - 1] == history;
  }

  class MigrationRunner {
    const connection: Connection
    ghost const start: Schema
    ghost var history: seq<Op>

    ghost predicate Idle()
      reads connection
    {
      connection.pending == connection.committed
    }

    /** No transaction is open, and the schema is the one the runs and baselines so far lead to from the first one. */
    ghost predicate Reached()
      reads this, connection
    {
      Idle() && connection.committed == RunFrom(start, history)
    }

    constructor (connection: Connection)
      requires connection.pending == connection.committed
      ensures this.connection == connection && start == connection.committed
      ensures Reached() && history == []
    {
      this.connection := connection;
      start := connection.committed;
      history := [];
    }

    /** SQL, history row and commit of one migration; any failure rolls back what was not committed. */
    method ApplyOne(m: Migration, fault: Fault) returns (error: Option<MigrationError>)
      requires Idle()
      modifies connection
      ensures Idle()
      ensures var before := old(connection.committed);
        if fault.FailsBeforeCommit? then error == Some(Interrupted) && connection.committed == before
        else if NameUsed(before.history, m.name) then error == Some(NameTaken) && connection.committed == before
        else
          && connection.committed == Applied(before, m)
          && error == if fault.AnswerLost? then Some(Interrupted) else None
    {
      connection.Execute(m);
      if fault.FailsBeforeCommit? {
        connection.Rollback();
        return Some(Interrupted);
      }
      var ok := connection.InsertHistory(m);
      if !ok {
        connection.Rollback();
        return Some(NameTaken);
      }
      connection.Commit();
      return if fault.AnswerLost? then Some(Interrupted) else None;
    }

    method Migrate(ms: seq<Migration>, f: Faults) returns (reply: Outcome)
      requires Reached() && Sorted(ms)
      modifies this, connection
      ensures Reached() && history == old(history) + [MigrateOp(ms, f)]
      ensures (connection.committed, reply) == Spec.Migrate(old(connection.committed), ms, f)
    {
      Grows(start, history, MigrateOp(ms, f));
      history := history + [MigrateOp(ms, f)];
      if f.setupFails {
        return Failure(Interrupted);
      }
      var applied := connection.committed.history;
      var invalid := ValidateApplied(ms, applied);
      if invalid.Some? {
        return Failure(invalid.value);
      }
      var last := LastVersion(applied);
      assert last == Last(applied);
      reply := ApplyFrom(ms, applied, last, f);
    }

    /** The loop over the files, each new one in a transaction of its own. */
    method ApplyFrom(ms: seq<Migration>, before: map<nat, Record>, lastApplied: nat, f: Faults) returns (reply: Outcome)
      requires Idle() && before == connection.committed.history
      modifies connection
      ensures Idle() && (connection.committed, reply) == Apply(old(connection.committed), ms, 0, lastApplied, f)
    {
      var applied, last := before, lastApplied;
      ghost var whole := Apply(connection.committed, ms, 0, last, f);
      for i := 0 to |ms|
        invariant Idle() && applied == connection.committed.history
        invariant Apply(connection.committed, ms, i, last, f) == whole
      {
        var m := ms[i];
        if m.version !in applied {
          if m.version <= last {
            return Failure(OutOfOrder(m.version));
          }
          var error := ApplyOne(m, FaultAt(f, m.version));
          if error.Some? {
            return Failure(error.value);
          }
          applied := applied[m.version := RecordOf(m)];
          last := m.version;
        }
      }
      return Success(applied);
    }

    /** Inserts the missing history rows of a baseline into the open transaction. */
    method InsertBaseline(selected: seq<Migration>) returns (ok: bool)
      modifies connection
      ensures connection.committed == old(connection.committed)
      ensures ok == Stamp(old(connection.pending).history, selected, 0).Some?
      ensures
        var pending := old(connection.pending);
        ok ==> connection.pending == pending.(history := Stamp(pending.history, selected, 0).value)
    {
      ghost var whole := Stamp(connection.pending.history, selected, 0);
      for i := 0 to |selected|
        invariant connection.committed == old(connection.committed)
        invariant connection.pending.executed == old(connection.pending).executed
        invariant Stamp(connection.pending.history, selected, i) == whole
      {
        if selected[i].version !in connection.pending.history {
          ok := connection.InsertHistory(selected[i]);
          if !ok {
            return;
          }
        }
      }
      return true;
    }

    method StampBaseline(ms: seq<Migration>, version: int, f: Faults) returns (reply: Outcome)
      requires Reached() && Sorted(ms)
      modifies this, connection
      ensures Reached() && history == old(history) + [StampOp(ms, version, f)]
      ensures (connection.committed, reply) == Spec.StampBaseline(old(connection.committed), ms, version, f)
    {
      Grows(start, history, StampOp(ms, version, f));
      history := history + [StampOp(ms, version, f)];
      var selected := Selected(ms, version);
      if !Contiguous(selected, version) {
        return Failure(NotContiguous);
      }
      if f.setupFails {
        return Failure(Interrupted);
      }
      var applied := connection.committed.history;
      var invalid := ValidateApplied(ms, applied);
      if invalid.Some? {
        return Failure(invalid.value);
      }
      if exists v :: v in applied && v > version {
        return Failure(OlderThanApplied);
      }
      var ok := InsertBaseline(selected);
      if !ok {
        connection.Rollback();
        return Failure(NameTaken);
      }
      var fault := FaultAt(f, version);
      if fault.FailsBeforeCommit? {
        connection.Rollback();
        return Failure(Interrupted);
      }
      connection.Commit();
      return if fault.AnswerLost? then Failure(Interrupted) else Success(connection.committed.history);
    }
  }
}
