/** The migration runner: each migration and its history row commit together, and a run may stop anywhere. */
module Migrations {
  import opened Results

  /** SHA-256 of the file, taken to be free of collisions. */
  datatype Checksum = Checksum(sql: string)

  datatype Migration = Migration(version: nat, name: string, sql: string)
  datatype Record = Record(name: string, checksum: Checksum)

  /** The history table, and the migration files whose SQL has been committed, oldest first. */
  datatype Schema = Schema(history: map<nat, Record>, executed: seq<Migration>)

  /** What goes wrong at one migration: an error before its commit, or a commit whose answer is lost. */
  datatype Fault = NoFault | FailsBeforeCommit | AnswerLost

  datatype Faults = Faults(setupFails: bool, at: map<nat, Fault>)

  datatype MigrationError =
    | Interrupted | UnknownVersion(version: nat) | ChecksumMismatch(version: nat) | OutOfOrder(version: nat) | NameTaken
    | NotContiguous | OlderThanApplied

  type Outcome = Result<map<nat, Record>, MigrationError>

  const EMPTY := Schema(map[], [])

  /** What reading the directory guarantees. */
  ghost predicate Sorted(ms: seq<Migration>) {
    forall i, j :: 0 <= i < j < |ms| ==> ms[i].version < ms[j].version
  }

  function RecordOf(m: Migration): Record {
    Record(m.name, Checksum(m.sql))
  }

  function FaultAt(f: Faults, version: nat): Fault {
    if version in f.at then f.at[version] else NoFault
  }

  predicate Known(ms: seq<Migration>, version: nat) {
    exists m :: m in ms && m.version == version
  }

  predicate Matches(ms: seq<Migration>, version: nat, record: Record) {
    exists m :: m in ms && m.version == version && RecordOf(m) == record
  }

  predicate Offends(ms: seq<Migration>, history: map<nat, Record>, version: nat) {
    version in history && !Matches(ms, version, history[version])
  }

  /** The applied versions are checked in ascending order. */
  ghost predicate FirstOffender(ms: seq<Migration>, history: map<nat, Record>, version: nat) {
    Offends(ms, history, version) && forall v :: 0 <= v < version ==> !Offends(ms, history, v)
  }

  function OffenceOf(ms: seq<Migration>, version: nat): MigrationError {
    if Known(ms, version) then ChecksumMismatch(version) else UnknownVersion(version)
  }

  ghost predicate HistoryValid(ms: seq<Migration>, history: map<nat, Record>) {
    forall v :: v in history ==> !Offends(ms, history, v)
  }

  lemma OneFirstOffender(ms: seq<Migration>, history: map<nat, Record>, version: nat)
    requires Offends(ms, history, version)
    ensures exists v :: FirstOffender(ms, history, v)
    decreases version
  {
    if v :| 0 <= v < version && Offends(ms, history, v) {
      OneFirstOffender(ms, history, v);
    } else {
      assert FirstOffender(ms, history, version);
    }
  }

  ghost function Validate(ms: seq<Migration>, history: map<nat, Record>): (error: Option<MigrationError>)
    ensures error.None? <==> HistoryValid(ms, history)
  {
    if HistoryValid(ms, history) then None
    else
      var bad :| bad in history && Offends(ms, history, bad);
      OneFirstOffender(ms, history, bad);
      var v :| FirstOffender(ms, history, v);
      Some(OffenceOf(ms, v))
  }

  predicate NameUsed(history: map<nat, Record>, name: string) {
    exists v :: v in history && history[v].name == name
  }

  function Applied(s: Schema, m: Migration): Schema {
    Schema(s.history[m.version := RecordOf(m)], s.executed + [m])
  }

  /** The loop over the migrations from position `i`, with the highest version applied so far. */
  function Apply(s: Schema, ms: seq<Migration>, i: nat, last: nat, f: Faults): (Schema, Outcome)
    requires i <= |ms|
    decreases |ms| - i
  {
    if i == |ms| then (s, Success(s.history))
    else
      var m := ms[i];
      if m.version in s.history then Apply(s, ms, i + 1, last, f)
      else if m.version <= last then (s, Failure(OutOfOrder(m.version)))
      else if FaultAt(f, m.version).FailsBeforeCommit? then (s, Failure(Interrupted))
      else if NameUsed(s.history, m.name) then (s, Failure(NameTaken))
      else if FaultAt(f, m.version).AnswerLost? then (Applied(s, m), Failure(Interrupted))
      else Apply(Applied(s, m), ms, i + 1, m.version, f)
  }

  ghost predicate IsLast(history: map<nat, Record>, last: nat) {
    && (forall v :: v in history ==> v <= last)
    && (last in history || (last == 0 && history == map[]))
  }

  lemma LastExists(history: map<nat, Record>)
    ensures exists last: nat :: IsLast(history, last)
    decreases |history|
  {
    if history != map[] {
      var v :| v in history;
      var rest := history - {v};
      assert |rest| < |history| by {
        assert rest.Keys < history.Keys && |rest.Keys| == |rest| && |history.Keys| == |history|;
        assert history.Keys == rest.Keys + {v};
      }
      LastExists(rest);
      var last: nat :| IsLast(rest, last);
      var top := if rest == map[] || v > last then v else last;
      assert forall w :: w in history ==> w == v || w in rest;
      assert IsLast(history, top);
    } else {
      assert IsLast(history, 0);
    }
  }

  ghost function Last(history: map<nat, Record>): (last: nat)
    ensures IsLast(history, last)
  {
    LastExists(history);
    var last: nat :| IsLast(history, last);
    last
  }

  ghost function Migrate(s: Schema, ms: seq<Migration>, f: Faults): (Schema, Outcome) {
    if f.setupFails then (s, Failure(Interrupted))
    else if Validate(ms, s.history).Some? then (s, Failure(Validate(ms, s.history).value))
    else Apply(s, ms, 0, Last(s.history), f)
  }

  // ----- Baseline

  function Selected(ms: seq<Migration>, version: int): seq<Migration> {
    if ms == [] then []
    else if ms[0].version <= version then [ms[0]] + Selected(ms[1..], version)
    else Selected(ms[1..], version)
  }

  /** The selected versions are exactly 1, 2, ..., version. */
  predicate Contiguous(selected: seq<Migration>, version: int) {
    && version >= 1 && |selected| == version
    && forall i :: 0 <= i < |selected| ==> selected[i].version == i + 1
  }

  /** The history rows a baseline inserts from position `i` on; none of the SQL runs. */
  function Stamp(history: map<nat, Record>, selected: seq<Migration>, i: nat): Option<map<nat, Record>>
    requires i <= |selected|
    decreases |selected| - i
  {
    if i == |selected| then Some(history)
    else
      var m := selected[i];
      if m.version in history then Stamp(history, selected, i + 1)
      else if NameUsed(history, m.name) then None
      else Stamp(history[m.version := RecordOf(m)], selected, i + 1)
  }

  ghost function StampBaseline(s: Schema, ms: seq<Migration>, version: int, f: Faults): (Schema, Outcome) {
    if !Contiguous(Selected(ms, version), version) then (s, Failure(NotContiguous))
    else if f.setupFails then (s, Failure(Interrupted))
    else if Validate(ms, s.history).Some? then (s, Failure(Validate(ms, s.history).value))
    else if exists v :: v in s.history && v > version then (s, Failure(OlderThanApplied))
    else
      var stamped := Stamp(s.history, Selected(ms, version), 0);
      if stamped.None? then (s, Failure(NameTaken))
      else
        match FaultAt(f, version)
        case FailsBeforeCommit => (s, Failure(Interrupted))
        case AnswerLost => (s.(history := stamped.value), Failure(Interrupted))
        case NoFault => (s.(history := stamped.value), Success(stamped.value))
  }

  // ----- Runs

  datatype Op =
    | MigrateOp(directory: seq<Migration>, faults: Faults)
    | StampOp(directory: seq<Migration>, version: int, faults: Faults)

  ghost function Step(s: Schema, op: Op): (Schema, Outcome) {
    match op
    case MigrateOp(ms, f) => Migrate(s, ms, f)
    case StampOp(ms, version, f) => StampBaseline(s, ms, version, f)
  }

  ghost function RunFrom(s: Schema, ops: seq<Op>): Schema {
    if ops == [] then s else Step(RunFrom(s, ops[..|ops| - 1]), ops[|ops| - 1]).0
  }

  // ----- At most once and in order, whatever the directories hold

  predicate Increasing(ms: seq<Migration>) {
    forall i :: 0 < i < |ms| ==> ms[i - 1].version < ms[i].version
  }

  ghost predicate Inv(s: Schema) {
    && Increasing(s.executed)
    && forall m :: m in s.executed ==> m.version in s.history && s.history[m.version] == RecordOf(m)
  }

  /** History rows stay, and only versions without one were executed since. */
  ghost predicate Extends(s: Schema, t: Schema) {
    && (forall v :: v in s.history ==> v in t.history && t.history[v] == s.history[v])
    && s.executed <= t.executed
    && forall i :: |s.executed| <= i < |t.executed| ==> t.executed[i].version !in s.history
  }

  lemma AppliedKeeps(s: Schema, m: Migration)
    requires Inv(s) && m.version !in s.history && forall v :: v in s.history ==> v < m.version
    ensures Inv(Applied(s, m)) && Extends(s, Applied(s, m))
  {
    if s.executed != [] {
      assert s.executed[|s.executed| - 1] in s.executed;
    }
  }

  lemma {:induction false} ApplyKeeps(s: Schema, ms: seq<Migration>, i: nat, last: nat, f: Faults)
    requires i <= |ms| && Inv(s) && forall v :: v in s.history ==> v <= last
    ensures Inv(Apply(s, ms, i, last, f).0) && Extends(s, Apply(s, ms, i, last, f).0)
    decreases |ms| - i
  {
    if i < |ms| {
      var m := ms[i];
      if m.version in s.history {
        ApplyKeeps(s, ms, i + 1, last, f);
      } else if m.version > last && !FaultAt(f, m.version).FailsBeforeCommit? && !NameUsed(s.history, m.name) {
        AppliedKeeps(s, m);
        if !FaultAt(f, m.version).AnswerLost? {
          ApplyKeeps(Applied(s, m), ms, i + 1, m.version, f);
        }
      }
    }
  }

  lemma {:induction false} StampExtends(history: map<nat, Record>, selected: seq<Migration>, i: nat)
    requires i <= |selected| && Stamp(history, selected, i).Some?
    ensures var stamped := Stamp(history, selected, i).value;
      forall v :: v in history ==> v in stamped && stamped[v] == history[v]
    decreases |selected| - i
  {
    if i < |selected| {
      var m := selected[i];
      StampExtends(if m.version in history then history else history[m.version := RecordOf(m)], selected, i + 1);
    }
  }

  lemma StepKeeps(s: Schema, op: Op)
    requires Inv(s)
    ensures Inv(Step(s, op).0) && Extends(s, Step(s, op).0)
  {
    match op
    case MigrateOp(ms, f) => ApplyKeeps(s, ms, 0, Last(s.history), f);
    case StampOp(ms, version, f) =>
      if Stamp(s.history, Selected(ms, version), 0).Some? {
        StampExtends(s.history, Selected(ms, version), 0);
      }
  }

  /**
   * Whatever runs are made, from whatever directories and wherever they stop, each version is executed at most once
   * and in strictly increasing order, no history row ever changes, and a recorded version is never executed again.
   */
  lemma {:induction false} EveryRunInOrder(s: Schema, ops: seq<Op>)
    requires Inv(s)
    ensures Inv(RunFrom(s, ops)) && Extends(s, RunFrom(s, ops))
    decreases |ops|
  {
    if ops != [] {
      EveryRunInOrder(s, ops[..|ops| - 1]);
      StepKeeps(RunFrom(s, ops[..|ops| - 1]), ops[|ops| - 1]);
    }
  }

  // ----- Resumption, for one directory

  /** The history rows of the first `k` migrations. */
  function Recorded(ms: seq<Migration>, k: nat): map<nat, Record>
    requires k <= |ms|
  {
    if k == 0 then map[] else Recorded(ms, k - 1)[ms[k - 1].version := RecordOf(ms[k - 1])]
  }

  /** The table can hold the first `k` migrations one after the other. */
  ghost predicate Applicable(ms: seq<Migration>, k: nat)
    requires k <= |ms|
  {
    k == 0 || (Applicable(ms, k - 1) && ms[k - 1].version > 0 && !NameUsed(Recorded(ms, k - 1), ms[k - 1].name))
  }

  lemma {:induction false} RecordedVersions(ms: seq<Migration>, k: nat, v: nat)
    requires k <= |ms|
    ensures v in Recorded(ms, k) <==> exists i :: 0 <= i < k && ms[i].version == v
    decreases k
  {
    if k > 0 {
      RecordedVersions(ms, k - 1, v);
    }
  }

  lemma {:induction false} RecordedRows(ms: seq<Migration>, k: nat, i: nat)
    requires Sorted(ms) && k <= |ms| && i < |ms|
    ensures ms[i].version in Recorded(ms, k) <==> i < k
    ensures i < k ==> Recorded(ms, k)[ms[i].version] == RecordOf(ms[i])
    decreases k
  {
    if k > 0 {
      RecordedRows(ms, k - 1, i);
    }
  }

  lemma NameUsedAmong(ms: seq<Migration>, k: nat, name: string)
    requires Sorted(ms) && k <= |ms|
    ensures NameUsed(Recorded(ms, k), name) <==> exists i :: 0 <= i < k && ms[i].name == name
  {
    if i :| 0 <= i < k && ms[i].name == name {
      RecordedRows(ms, k, i);
    }
    if v :| v in Recorded(ms, k) && Recorded(ms, k)[v].name == name {
      RecordedVersions(ms, k, v);
      var i :| 0 <= i < k && ms[i].version == v;
      RecordedRows(ms, k, i);
      assert ms[i].name == name;
    }
  }

  /**
   * That is: no file has version 0, which never exceeds the default of the highest version, and no two share a name.
   */
  lemma {:induction false} ApplicableExactly(ms: seq<Migration>, k: nat)
    requires Sorted(ms) && k <= |ms|
    ensures Applicable(ms, k) <==>
      && (forall i :: 0 <= i < k ==> ms[i].version > 0)
      && (forall i, j :: 0 <= i < j < k ==> ms[i].name != ms[j].name)
    decreases k
  {
    if k > 0 {
      ApplicableExactly(ms, k - 1);
      NameUsedAmong(ms, k - 1, ms[k - 1].name);
    }
  }

  /** The highest recorded version of a prefix is below the next migration's, unless that is version 0. */
  lemma LastOfPrefix(ms: seq<Migration>, k: nat, last: nat)
    requires Sorted(ms) && k < |ms| && IsLast(Recorded(ms, k), last)
    ensures ms[k].version > last <==> ms[k].version > 0
    ensures ms[k].version > 0 ==> IsLast(Recorded(ms, k + 1), ms[k].version)
  {
    RecordedVersions(ms, k, last);
    if last in Recorded(ms, k) {
      var i :| 0 <= i < k && ms[i].version == last;
    }
  }

  /** State `t` is state `s` after the migrations from `k` to `j`. */
  ghost predicate Executes(s: Schema, t: Schema, ms: seq<Migration>, k: nat, j: nat) {
    && k <= j <= |ms| && Applicable(ms, j)
    && t.history == Recorded(ms, j) && t.executed == s.executed + ms[k..j]
  }

  lemma ExecutesOne(s: Schema, ms: seq<Migration>, k: nat)
    requires Executes(s, s, ms, k, k) && k < |ms|
    requires ms[k].version > 0 && !NameUsed(s.history, ms[k].name)
    ensures Executes(s, Applied(s, ms[k]), ms, k, k + 1)
    ensures Executes(Applied(s, ms[k]), Applied(s, ms[k]), ms, k + 1, k + 1)
  {
    assert ms[k..k + 1] == [ms[k]];
  }

  lemma ExecutesThen(s: Schema, t: Schema, u: Schema, ms: seq<Migration>, k: nat, i: nat, j: nat)
    requires Executes(s, t, ms, k, i) && Executes(t, u, ms, i, j)
    ensures Executes(s, u, ms, k, j)
  {
    assert ms[k..i] + ms[i..j] == ms[k..j];
  }

  predicate Commits(s: Schema, m: Migration, last: nat, f: Faults) {
    m.version > last && !FaultAt(f, m.version).FailsBeforeCommit? && !NameUsed(s.history, m.name)
  }

  /** One turn of the loop at a migration that has no row yet. */
  lemma ApplyUnfolds(s: Schema, ms: seq<Migration>, i: nat, last: nat, f: Faults)
    requires i < |ms|
    ensures ms[i].version in s.history ==> Apply(s, ms, i, last, f) == Apply(s, ms, i + 1, last, f)
    ensures ms[i].version !in s.history && !Commits(s, ms[i], last, f) ==>
      Apply(s, ms, i, last, f).0 == s && Apply(s, ms, i, last, f).1.Failure?
    ensures ms[i].version !in s.history && Commits(s, ms[i], last, f) ==>
      if FaultAt(f, ms[i].version).AnswerLost?
      then Apply(s, ms, i, last, f).0 == Applied(s, ms[i]) && Apply(s, ms, i, last, f).1.Failure?
      else Apply(s, ms, i, last, f) == Apply(Applied(s, ms[i]), ms, i + 1, ms[i].version, f)
  {
  }

  /** The loop passes over what is recorded. */
  lemma {:induction false} ApplySkips(s: Schema, ms: seq<Migration>, k: nat, i: nat, last: nat, f: Faults)
    requires Sorted(ms) && i <= k <= |ms| && s.history == Recorded(ms, k)
    ensures Apply(s, ms, i, last, f) == Apply(s, ms, k, last, f)
    decreases k - i
  {
    if i < k {
      RecordedRows(ms, k, i);
      ApplySkips(s, ms, k, i + 1, last, f);
    }
  }

  /** The loop executes some stretch of the migrations from `k` on; all of them if it succeeds. */
  lemma {:induction false} ApplyExecutes(s: Schema, ms: seq<Migration>, k: nat, last: nat, f: Faults) returns (j: nat)
    requires Sorted(ms) && Executes(s, s, ms, k, k)
    ensures Executes(s, Apply(s, ms, k, last, f).0, ms, k, j)
    ensures Apply(s, ms, k, last, f).1.Success? ==> j == |ms|
    decreases |ms| - k
  {
    j := k;
    if k < |ms| {
      ApplyUnfolds(s, ms, k, last, f);
      RecordedRows(ms, k, k);
      if Commits(s, ms[k], last, f) {
        j := k + 1;
        var t := Applied(s, ms[k]);
        ExecutesOne(s, ms, k);
        if !FaultAt(f, ms[k].version).AnswerLost? {
          j := ApplyExecutes(t, ms, k + 1, ms[k].version, f);
          ExecutesThen(s, t, Apply(t, ms, k + 1, ms[k].version, f).0, ms, k, k + 1, j);
        }
      }
    }
  }

  predicate Migrates(op: Op, ms: seq<Migration>) {
    op.MigrateOp? && op.directory == ms
  }

  lemma MigrateExecutes(s: Schema, ms: seq<Migration>, k: nat, f: Faults) returns (j: nat)
    requires Sorted(ms) && Executes(s, s, ms, k, k)
    ensures Executes(s, Migrate(s, ms, f).0, ms, k, j)
    ensures Migrate(s, ms, f).1.Success? ==> j == |ms|
  {
    j := k;
    if !f.setupFails && Validate(ms, s.history).None? {
      ApplySkips(s, ms, k, 0, Last(s.history), f);
      j := ApplyExecutes(s, ms, k, Last(s.history), f);
    }
  }

  lemma ExecutesNothing(s: Schema, t: Schema, ms: seq<Migration>, k: nat, j: nat)
    requires Executes(s, t, ms, k, j)
    ensures Executes(t, t, ms, j, j)
  {
    assert ms[j..j] == [];
  }

  /**
   * Any sequence of runs over one directory, each failing anywhere, executes a stretch of it: what was recorded is
   * skipped, what follows is executed in order, once; after a successful run nothing is missing.
   */
  lemma {:induction false} Resumable(s: Schema, ms: seq<Migration>, k: nat, ops: seq<Op>) returns (j: nat)
    requires Sorted(ms) && Executes(s, s, ms, k, k)
    requires forall n :: 0 <= n < |ops| ==> Migrates(ops[n], ms)
    ensures Executes(s, RunFrom(s, ops), ms, k, j)
    ensures ops != [] && Step(RunFrom(s, ops[..|ops| - 1]), ops[|ops| - 1]).1.Success? ==> j == |ms|
    decreases |ops|
  {
    j := k;
    if ops != [] {
      var op, t := ops[|ops| - 1], RunFrom(s, ops[..|ops| - 1]);
      assert Migrates(op, ms);
      var i := Resumable(s, ms, k, ops[..|ops| - 1]);
      ExecutesNothing(s, t, ms, k, i);
      j := MigrateExecutes(t, ms, i, op.faults);
      ExecutesThen(s, t, RunFrom(s, ops), ms, k, i, j);
    }
  }

  /** Runs that end in a success leave everything recorded, and executed what was missing. */
  lemma FinishesFrom(s: Schema, ms: seq<Migration>, k: nat, ops: seq<Op>)
    requires Sorted(ms) && Executes(s, s, ms, k, k) && ops != []
    requires forall n :: 0 <= n < |ops| ==> Migrates(ops[n], ms)
    requires Step(RunFrom(s, ops[..|ops| - 1]), ops[|ops| - 1]).1.Success?
    ensures RunFrom(s, ops) == Schema(Recorded(ms, |ms|), s.executed + ms[k..])
  {
    var j := Resumable(s, ms, k, ops);
    assert ms[k..j] == ms[k..];
  }

  /**
   * Interrupted runs and a final successful one leave what one uninterrupted run leaves: everything executed once, in
   * order.
   */
  lemma SameAsUninterrupted(ms: seq<Migration>, ops: seq<Op>)
    requires Sorted(ms) && forall n :: 0 <= n < |ops| ==> Migrates(ops[n], ms)
    requires ops != [] && Step(RunFrom(EMPTY, ops[..|ops| - 1]), ops[|ops| - 1]).1.Success?
    ensures RunFrom(EMPTY, ops) == Schema(Recorded(ms, |ms|), ms)
  {
    FinishesFrom(EMPTY, ms, 0, ops);
    assert [] + ms[0..] == ms;
  }

  // ----- When a run succeeds

  const NO_FAULTS := Faults(false, map[])

  lemma {:induction false} FaultlessApply(s: Schema, ms: seq<Migration>, k: nat, last: nat)
    requires Sorted(ms) && Executes(s, s, ms, k, k) && IsLast(s.history, last)
    ensures Apply(s, ms, k, last, NO_FAULTS).1.Success? <==> Applicable(ms, |ms|)
    decreases |ms| - k
  {
    if k < |ms| {
      ApplyUnfolds(s, ms, k, last, NO_FAULTS);
      RecordedRows(ms, k, k);
      LastOfPrefix(ms, k, last);
      if Commits(s, ms[k], last, NO_FAULTS) {
        ExecutesOne(s, ms, k);
        FaultlessApply(Applied(s, ms[k]), ms, k + 1, ms[k].version);
      } else {
        NotApplicable(ms, k + 1, |ms|);
      }
    }
  }

  lemma {:induction false} NotApplicable(ms: seq<Migration>, k: nat, n: nat)
    requires k <= n <= |ms| && !Applicable(ms, k)
    ensures !Applicable(ms, n)
    decreases n
  {
    if k < n {
      NotApplicable(ms, k, n - 1);
    }
  }

  lemma PrefixIsValid(ms: seq<Migration>, k: nat)
    requires Sorted(ms) && k <= |ms|
    ensures HistoryValid(ms, Recorded(ms, k))
  {
    forall v | v in Recorded(ms, k)
      ensures Matches(ms, v, Recorded(ms, k)[v])
    {
      RecordedVersions(ms, k, v);
      var i :| 0 <= i < k && ms[i].version == v;
      RecordedRows(ms, k, i);
      assert ms[i] in ms;
    }
  }

  /** After any interrupted runs a run without faults succeeds, exactly when the directory can be applied at all. */
  lemma FaultlessRunCompletes(ms: seq<Migration>, ops: seq<Op>)
    requires Sorted(ms) && forall n :: 0 <= n < |ops| ==> Migrates(ops[n], ms)
    ensures Migrate(RunFrom(EMPTY, ops), ms, NO_FAULTS).1.Success? <==> Applicable(ms, |ms|)
  {
    var k := Resumable(EMPTY, ms, 0, ops);
    var s := RunFrom(EMPTY, ops);
    ExecutesNothing(EMPTY, s, ms, 0, k);
    PrefixIsValid(ms, k);
    ApplySkips(s, ms, k, 0, Last(s.history), NO_FAULTS);
    FaultlessApply(s, ms, k, Last(s.history));
  }

  // ----- Baselines

  lemma {:induction false} SelectedIsPrefix(ms: seq<Migration>, version: int) returns (n: nat)
    requires Sorted(ms)
    ensures n <= |ms| && Selected(ms, version) == ms[..n]
    ensures forall i :: 0 <= i < |ms| ==> (i < n <==> ms[i].version <= version)
    decreases ms
  {
    n := 0;
    if ms != [] {
      var rest := SelectedIsPrefix(ms[1..], version);
      if ms[0].version <= version {
        n := rest + 1;
        assert [ms[0]] + ms[1..][..rest] == ms[..n];
        forall i | 0 <= i < |ms|
          ensures i < n <==> ms[i].version <= version
        {
          assert i > 0 ==> ms[i] == ms[1..][i - 1];
        }
      } else {
        assert forall i :: 0 < i < |ms| ==> ms[0].version < ms[i].version;
        assert ms[1..] == [] || ms[1..][0].version > version;
      }
    }
  }

  /** Stamping the first `n` migrations over the first `k` leaves exactly the rows of the longer prefix. */
  lemma {:induction false} StampRecords(ms: seq<Migration>, n: nat, k: nat, i: nat)
    requires Sorted(ms) && k <= n <= |ms| && i <= k && Applicable(ms, k)
    requires (forall e :: 0 <= e < n ==> ms[e].version > 0) && Stamp(Recorded(ms, k), ms[..n], i).Some?
    ensures Stamp(Recorded(ms, k), ms[..n], i).value == Recorded(ms, n) && Applicable(ms, n)
    decreases n - i
  {
    if i < n {
      assert ms[..n][i] == ms[i];
      RecordedRows(ms, k, i);
      StampRecords(ms, n, if i < k then k else k + 1, i + 1);
    }
  }

  /** A contiguous selection is a prefix of the directory, as long as its version. */
  lemma ContiguousIsPrefix(ms: seq<Migration>, version: int)
    requires Sorted(ms) && Contiguous(Selected(ms, version), version)
    ensures 1 <= version <= |ms| && Selected(ms, version) == ms[..version]
    ensures forall i :: 0 <= i < version ==> ms[i].version == i + 1
    ensures forall i :: 0 <= i < |ms| ==> (i < version <==> ms[i].version <= version)
  {
    var n := SelectedIsPrefix(ms, version);
    assert forall i :: 0 <= i < n ==> ms[i] == Selected(ms, version)[i];
  }

  predicate TakesEffect(s: Schema, t: Schema, o: Outcome) {
    t != s || o.Success?
  }

  lemma StampEffect(s: Schema, ms: seq<Migration>, version: int, f: Faults)
    ensures var (t, o) := StampBaseline(s, ms, version, f);
      && t.executed == s.executed
      && (TakesEffect(s, t, o) ==>
            && Contiguous(Selected(ms, version), version)
            && (forall v :: v in s.history ==> v <= version)
            && Stamp(s.history, Selected(ms, version), 0) == Some(t.history))
  {
  }

  /** A baseline executes nothing; if it takes effect, exactly the migrations up to its version are recorded. */
  lemma StampMoves(s: Schema, ms: seq<Migration>, k: nat, version: int, f: Faults)
    requires Sorted(ms) && Executes(s, s, ms, k, k)
    ensures var (t, o) := StampBaseline(s, ms, version, f);
      && t.executed == s.executed
      && (TakesEffect(s, t, o) ==>
            && 1 <= version <= |ms| && Executes(t, t, ms, version, version)
            && forall i :: 0 <= i < |ms| ==> (i < version <==> ms[i].version <= version))
  {
    var (t, o) := StampBaseline(s, ms, version, f);
    StampEffect(s, ms, version, f);
    if TakesEffect(s, t, o) {
      ContiguousIsPrefix(ms, version);
      if k > version {
        RecordedRows(ms, k, version);
      }
      StampRecords(ms, version, k, 0);
      assert ms[version..version] == [];
    }
  }

  predicate Uses(op: Op, ms: seq<Migration>) {
    op.directory == ms
  }

  /** Baselines and runs in any order, failing anywhere: the recorded versions are always a prefix of the directory. */
  lemma {:induction false} EveryRunRecordsAPrefix(ms: seq<Migration>, ops: seq<Op>) returns (k: nat)
    requires Sorted(ms) && forall n :: 0 <= n < |ops| ==> Uses(ops[n], ms)
    ensures Executes(RunFrom(EMPTY, ops), RunFrom(EMPTY, ops), ms, k, k)
    decreases |ops|
  {
    k := 0;
    if ops != [] {
      var op, s := ops[|ops| - 1], RunFrom(EMPTY, ops[..|ops| - 1]);
      assert Uses(op, ms);
      k := EveryRunRecordsAPrefix(ms, ops[..|ops| - 1]);
      match op
      case MigrateOp(_, f) =>
        var j := MigrateExecutes(s, ms, k, f);
        ExecutesNothing(s, Step(s, op).0, ms, k, j);
        k := j;
      case StampOp(_, version, f) =>
        StampMoves(s, ms, k, version, f);
        if Step(s, op).0 != s {
          k := version;
        }
    }
  }

  /**
   * After a baseline at `version`, runs that fail anywhere and a final successful one execute exactly the versions
   * above it.
   */
  lemma BaselineThenMigrate(s: Schema, t: Schema, ms: seq<Migration>, k: nat, version: int, f: Faults, ops: seq<Op>)
    requires Sorted(ms) && Executes(s, s, ms, k, k)
    requires StampBaseline(s, ms, version, f) == (t, Success(t.history))
    requires ops != [] && forall n :: 0 <= n < |ops| ==> Migrates(ops[n], ms)
    requires Step(RunFrom(t, ops[..|ops| - 1]), ops[|ops| - 1]).1.Success?
    ensures 1 <= version <= |ms|
    ensures forall i :: 0 <= i < |ms| ==> (i >= version <==> ms[i].version > version)
    ensures RunFrom(t, ops) == Schema(Recorded(ms, |ms|), s.executed + ms[version..])
  {
    StampMoves(s, ms, k, version, f);
    FinishesFrom(t, ms, version, ops);
  }
}
