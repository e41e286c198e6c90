/** What is checked before a migration or a baseline, and what a baseline writes. */
module MigrationChecks {
  import opened Results
  import opened Migrations

  /** A file of the directory has this version, and the name and SQL that are on record. */
  ghost predicate OnFile(ms: seq<Migration>, version: nat, record: Record) {
    exists i :: 0 <= i < |ms|
      && ms[i].version == version && ms[i].name == record.name && record.checksum.sql == ms[i].sql
  }

  lemma OnFileMatches(ms: seq<Migration>, version: nat, record: Record)
    ensures OnFile(ms, version, record) <==> Matches(ms, version, record)
  {
    if Matches(ms, version, record) {
      var m :| m in ms && m.version == version && RecordOf(m) == record;
      var i :| 0 <= i < |ms| && ms[i] == m;
      assert ms[i].version == version && ms[i].name == record.name && record.checksum.sql == ms[i].sql;
    }
    if OnFile(ms, version, record) {
      var i :| 0 <= i < |ms|
        && ms[i].version == version && ms[i].name == record.name && record.checksum.sql == ms[i].sql;
      assert ms[i] in ms;
    }
  }

  ghost predicate AllOnFile(ms: seq<Migration>, history: map<nat, Record>, below: nat) {
    forall v :: v in history && v < below ==> OnFile(ms, v, history[v])
  }

  /**
   * The history passes exactly when every applied version is on file; otherwise the lowest one that is not is reported,
   * as unknown when no file has it and as changed when one has.
   */
  lemma ChecksExactly(ms: seq<Migration>, history: map<nat, Record>)
    ensures Validate(ms, history).None? <==> forall v :: v in history ==> OnFile(ms, v, history[v])
    ensures Validate(ms, history).Some? ==> Reports(ms, history, Validate(ms, history).value)
  {
    forall v | v in history
      ensures OnFile(ms, v, history[v]) <==> Matches(ms, v, history[v])
    {
      OnFileMatches(ms, v, history[v]);
    }
    if Validate(ms, history).Some? {
      var w :| FirstOffender(ms, history, w) && Validate(ms, history) == Some(OffenceOf(ms, w));
      KnownExactly(ms, w);
      LowestFirst(ms, history, w);
      assert Validate(ms, history).value.version == w;
    }
  }

  lemma LowestFirst(ms: seq<Migration>, history: map<nat, Record>, first: nat)
    requires FirstOffender(ms, history, first)
    ensures AllOnFile(ms, history, first)
  {
    forall v | v in history && v < first
      ensures OnFile(ms, v, history[v])
    {
      assert !Offends(ms, history, v);
      OnFileMatches(ms, v, history[v]);
    }
  }

  /** The error is about the lowest applied version that is not on file. */
  ghost predicate Reports(ms: seq<Migration>, history: map<nat, Record>, e: MigrationError) {
    && (e.UnknownVersion? || e.ChecksumMismatch?)
    && e.version in history && !OnFile(ms, e.version, history[e.version]) && AllOnFile(ms, history, e.version)
    && (e.UnknownVersion? <==> forall i :: 0 <= i < |ms| ==> ms[i].version != e.version)
  }

  lemma KnownExactly(ms: seq<Migration>, version: nat)
    ensures Known(ms, version) <==> !(forall i :: 0 <= i < |ms| ==> ms[i].version != version)
  {
    if Known(ms, version) {
      var m :| m in ms && m.version == version;
      var i :| 0 <= i < |ms| && ms[i] == m;
    } else {
      forall i | 0 <= i < |ms|
        ensures ms[i].version != version
      {
        assert ms[i] in ms;
      }
    }
  }

  // ----- The baseline

  lemma {:induction false} SelectedIsPrefix(ms: seq<Migration>, version: int, n: nat)
    requires Sorted(ms) && n <= |ms|
    requires forall i :: 0 <= i < n ==> ms[i].version <= version
    requires forall i :: n <= i < |ms| ==> ms[i].version > version
    ensures Selected(ms, version) == ms[..n]
    decreases |ms|
  {
    if ms != [] {
      if n > 0 {
        SelectedIsPrefix(ms[1..], version, n - 1);
        assert ms[..n] == [ms[0]] + ms[1..][..n - 1];
      } else {
        SelectedIsPrefix(ms[1..], version, 0);
      }
    }
  }

  /** The directory begins with the versions 1 to `version`, and none of it lies in between or before. */
  ghost predicate BeginsWith(ms: seq<Migration>, version: int) {
    && 1 <= version <= |ms| && (forall i :: 0 <= i < version ==> ms[i].version == i + 1)
  }

  function CountUpTo(ms: seq<Migration>, version: int): nat {
    if ms == [] || ms[0].version > version then 0 else 1 + CountUpTo(ms[1..], version)
  }

  lemma {:induction false} CountSplits(ms: seq<Migration>, version: int)
    requires Sorted(ms)
    ensures var n := CountUpTo(ms, version);
      && n <= |ms| && (forall i :: 0 <= i < n ==> ms[i].version <= version)
      && forall i :: n <= i < |ms| ==> ms[i].version > version
    decreases |ms|
  {
    if ms != [] && ms[0].version <= version {
      CountSplits(ms[1..], version);
      var n := CountUpTo(ms[1..], version);
      forall i | 0 <= i < |ms|
        ensures if i < n + 1 then ms[i].version <= version else ms[i].version > version
      {
        if i > 0 {
          assert ms[i] == ms[1..][i - 1];
        }
      }
    }
  }

  /** A position with everything up to the version before it and everything above it after. */
  ghost predicate Cuts(ms: seq<Migration>, version: int, n: nat) {
    && n <= |ms| && (forall i :: 0 <= i < n ==> ms[i].version <= version)
    && forall i :: n <= i < |ms| ==> ms[i].version > version
  }

  lemma {:induction false} CountIsCut(ms: seq<Migration>, version: int, n: nat)
    requires Cuts(ms, version, n)
    ensures CountUpTo(ms, version) == n
    decreases |ms|
  {
    if n > 0 {
      CountIsCut(ms[1..], version, n - 1);
    }
  }

  lemma BeginsExactly(ms: seq<Migration>, version: int)
    requires Sorted(ms)
    ensures Contiguous(Selected(ms, version), version) <==> BeginsWith(ms, version)
    ensures BeginsWith(ms, version) ==> Selected(ms, version) == ms[..version]
  {
    var n := CountUpTo(ms, version);
    CountSplits(ms, version);
    SelectedIsPrefix(ms, version, n);
    if BeginsWith(ms, version) {
      assert ms[version - 1].version == version;
      assert forall i :: version <= i < |ms| ==> ms[i].version > ms[version - 1].version;
      CountIsCut(ms, version, version);
      assert forall i :: 0 <= i < version ==> Selected(ms, version)[i] == ms[i];
    }
    if Contiguous(Selected(ms, version), version) {
      assert n == version;
      forall i | 0 <= i < version
        ensures ms[i].version == i + 1
      {
        assert Selected(ms, version)[i] == ms[i];
      }
    }
  }

  /** The file is new, and its name belongs to no row and to no new file before it. */
  ghost predicate NameFree(history: map<nat, Record>, selected: seq<Migration>, i: nat, j: nat)
    requires i <= j < |selected|
  {
    selected[j].version !in history ==>
      && (forall v :: v in history ==> history[v].name != selected[j].name)
      && (forall k :: i <= k < j && selected[k].version !in history ==> selected[k].name != selected[j].name)
  }

  /** The rows a baseline leaves: the old ones, and one for every new file. */
  ghost predicate Stamped(history: map<nat, Record>, selected: seq<Migration>, i: nat, stamped: map<nat, Record>)
    requires i <= |selected|
  {
    && (forall v :: v in history ==> v in stamped && stamped[v] == history[v])
    && (forall j :: i <= j < |selected| ==> selected[j].version in stamped)
    && (forall j :: i <= j < |selected| && selected[j].version !in history ==>
          stamped[selected[j].version] == Record(selected[j].name, Checksum(selected[j].sql)))
    && (forall v :: v in stamped ==> v in history || exists j :: i <= j < |selected| && selected[j].version == v)
  }

  lemma {:induction false} StampsExactly(history: map<nat, Record>, selected: seq<Migration>, i: nat)
    requires i <= |selected| && Sorted(selected)
    ensures Stamp(history, selected, i).Some? <==>
      forall j :: i <= j < |selected| ==> NameFree(history, selected, i, j)
    ensures Stamp(history, selected, i).Some? ==> Stamped(history, selected, i, Stamp(history, selected, i).value)
    decreases |selected| - i
  {
    if i < |selected| {
      var m := selected[i];
      if m.version in history {
        StampsExactly(history, selected, i + 1);
        assert NameFree(history, selected, i, i);
        forall j | i + 1 <= j < |selected|
          ensures NameFree(history, selected, i, j) <==> NameFree(history, selected, i + 1, j)
        {
        }
        if Stamp(history, selected, i + 1).None? {
          var j :| i + 1 <= j < |selected| && !NameFree(history, selected, i + 1, j);
          assert !NameFree(history, selected, i, j);
        }
      } else if NameUsed(history, m.name) {
        assert !NameFree(history, selected, i, i);
      } else {
        var next := history[m.version := RecordOf(m)];
        StampsExactly(next, selected, i + 1);
        assert NameFree(history, selected, i, i);
        forall j | i + 1 <= j < |selected|
          ensures NameFree(history, selected, i, j) <==> NameFree(next, selected, i + 1, j)
        {
          NameFreeMoves(history, selected, i, j);
        }
        if Stamp(next, selected, i + 1).None? {
          var j :| i + 1 <= j < |selected| && !NameFree(next, selected, i + 1, j);
          assert !NameFree(history, selected, i, j);
        }
      }
    }
  }

  lemma NameFreeMoves(history: map<nat, Record>, selected: seq<Migration>, i: nat, j: nat)
    requires Sorted(selected) && i < j < |selected| && selected[i].version !in history
    ensures NameFree(history, selected, i, j) <==>
      NameFree(history[selected[i].version := RecordOf(selected[i])], selected, i + 1, j)
  {
    var next := history[selected[i].version := RecordOf(selected[i])];
    assert selected[i].version != selected[j].version;
    if NameFree(history, selected, i, j) && selected[j].version !in history {
      forall k | i + 1 <= k < j && selected[k].version !in next
        ensures selected[k].name != selected[j].name
      {
        assert selected[k].version !in history;
      }
    }
    if NameFree(next, selected, i + 1, j) && selected[j].version !in history {
      assert selected[j].version !in next;
      forall v | v in history
        ensures history[v].name != selected[j].name
      {
        assert v in next && next[v] == history[v];
      }
      assert next[selected[i].version].name != selected[j].name;
      forall k | i <= k < j && selected[k].version !in history
        ensures selected[k].name != selected[j].name
      {
        if k > i {
          assert selected[k].version != selected[i].version && selected[k].version !in next;
        }
      }
    }
  }

  /** Everything a baseline at this version needs. */
  ghost predicate Baselined(s: Schema, ms: seq<Migration>, version: int) {
    && BeginsWith(ms, version)
    && (forall v :: v in s.history ==> OnFile(ms, v, s.history[v]) && v <= version)
    && (forall j :: 0 <= j < version ==> NameFree(s.history, ms[..version], 0, j))
  }

  /**
   * A baseline changes the history exactly when the directory begins with the versions up to it, every applied version
   * is on file and none lies above it, no new name is taken and its commit goes through; it then has a row for each of
   * those files and runs no SQL.
   */
  lemma BaselinesExactly(s: Schema, ms: seq<Migration>, version: int, f: Faults)
    requires Sorted(ms)
    ensures var (t, reply) := StampBaseline(s, ms, version, f);
      var commits := Baselined(s, ms, version) && !f.setupFails && !FaultAt(f, version).FailsBeforeCommit?;
      && (reply.Success? <==> commits && FaultAt(f, version).NoFault?)
      && (commits ==> t.executed == s.executed && Stamped(s.history, ms[..version], 0, t.history))
      && (reply.Success? ==> reply.value == t.history)
      && (!commits ==> t == s)
      && (reply == Failure(NotContiguous) <==> !BeginsWith(ms, version))
  {
    BeginsExactly(ms, version);
    ChecksExactly(ms, s.history);
    if BeginsWith(ms, version) {
      HistoryFits(s, ms, version);
      StampsExactly(s.history, ms[..version], 0);
      BegunBaseline(s, ms, version, f, Baselined(s, ms, version));
    }
  }

  /** The checks of a baseline whose versions are contiguous come down to one question. */
  lemma BegunBaseline(s: Schema, ms: seq<Migration>, version: int, f: Faults, fits: bool)
    requires Contiguous(Selected(ms, version), version) && version >= 0
    requires var stamped := Stamp(s.history, Selected(ms, version), 0);
      fits <==> Validate(ms, s.history).None? && !(exists v :: v in s.history && v > version) && stamped.Some?
    requires Validate(ms, s.history).Some? ==> Validate(ms, s.history).value != NotContiguous
    ensures var (t, reply) := StampBaseline(s, ms, version, f);
      var commits := fits && !f.setupFails && !FaultAt(f, version).FailsBeforeCommit?;
      && (reply.Success? <==> commits && FaultAt(f, version).NoFault?)
      && (if commits then t == s.(history := Stamp(s.history, Selected(ms, version), 0).value) else t == s)
      && (reply.Success? ==> reply.value == t.history)
      && reply != Failure(NotContiguous)
  {
  }

  lemma HistoryFits(s: Schema, ms: seq<Migration>, version: int)
    requires BeginsWith(ms, version)
    ensures Baselined(s, ms, version) <==>
      && Validate(ms, s.history).None? && !(exists v :: v in s.history && v > version)
      && forall j :: 0 <= j < version ==> NameFree(s.history, ms[..version], 0, j)
  {
    ChecksExactly(ms, s.history);
  }
}
