/** The migration runner: resumable after a failure at any point, even a commit whose outcome nobody heard. */
module Migrations {
  import opened Basics

  /** How a migration file declares itself to automatic deployment. */
  datatype Class = Legacy | Expand(unsafe: bool) | Contract | Undeclared

  datatype Migration = Migration(name: string, sql: string, class_: Class)

  /** What can go wrong in one transaction, besides its SQL being refused. */
  datatype ApplyFault = NoFault | BeginFails | ExecFails | RecordFails | CommitFails | CommitUnheard

  datatype Faults = Faults(ensureTracking: bool, check: nat -> bool, apply: nat -> ApplyFault)

  /** What running SQL text does to a schema, if it is not refused. */
  type Exec<!S> = (S, string) -> Option<S>

  datatype Database<S> = Database(schema: S, recorded: set<string>)

  datatype RunResult = RunResult(applied: seq<string>, skipped: seq<string>, ok: bool)

  predicate Permitted(m: Migration, allowContract: bool) {
    match m.class_
    case Legacy => true
    case Expand(unsafe) => !unsafe
    case Contract => allowContract
    case Undeclared => false
  }

  /** One migration in one transaction: both its SQL and its record take effect, or neither. */
  function ApplySpec<S>(exec: Exec<S>, db: Database<S>, m: Migration, fault: ApplyFault): (Database<S>, bool) {
    var after := exec(db.schema, m.sql);
    if after.None? then (db, false)
    else match fault
      case NoFault => (Database(after.value, db.recorded + {m.name}), true)
      case CommitUnheard => (Database(after.value, db.recorded + {m.name}), false)
      case _ => (db, false)
  }

  /** What a run does about one file. */
  function FileStep<S>(exec: Exec<S>, db: Database<S>, m: Migration, allowContract: bool,
                       checkFails: bool, fault: ApplyFault, sofar: RunResult): (Database<S>, RunResult)
  {
    if m.sql == "" || !Permitted(m, allowContract) || checkFails then (db, sofar.(ok := false))
    else if m.name in db.recorded then (db, sofar.(skipped := sofar.skipped + [m.name]))
    else
      var (db', ok) := ApplySpec(exec, db, m, fault);
      (db', if ok then sofar.(applied := sofar.applied + [m.name]) else sofar.(ok := false))
  }

  /** The rest of a run, from file `k` on. */
  function RunFrom<S>(exec: Exec<S>, db: Database<S>, files: seq<Migration>, allowContract: bool, f: Faults,
                      k: nat, sofar: RunResult): (Database<S>, RunResult)
    requires k <= |files|
    decreases |files| - k
  {
    if k == |files| then (db, sofar)
    else
      var (db', r) := FileStep(exec, db, files[k], allowContract, f.check(k), f.apply(k), sofar);
      if !r.ok then (db', r) else RunFrom(exec, db', files, allowContract, f, k + 1, r)
  }

  function RunSpec<S>(exec: Exec<S>, db: Database<S>, files: seq<Migration>, allowContract: bool, f: Faults)
    : (Database<S>, RunResult)
  {
    if f.ensureTracking then (db, RunResult([], [], false))
    else RunFrom(exec, db, files, allowContract, f, 0, RunResult([], [], true))
  }

  /** Some file of that name may be run: it predates declarations, is an expansion without unsafe statements, or is a
      contraction that has been approved. */
  ghost predicate MayRun(files: seq<Migration>, name: string, allowContract: bool) {
    exists m :: m in files && m.name == name
                && (m.class_ == Legacy || m.class_ == Expand(false) || (m.class_ == Contract && allowContract))
  }

  lemma StepIsPermitted<S>(exec: Exec<S>, db: Database<S>, files: seq<Migration>, k: nat, allowContract: bool,
                           checkFails: bool, fault: ApplyFault, sofar: RunResult)
    requires k < |files|
    ensures var db' := FileStep(exec, db, files[k], allowContract, checkFails, fault, sofar).0;
            forall name :: name in db'.recorded && name !in db.recorded ==> MayRun(files, name, allowContract)
  {
    assert files[k] in files;
  }

  lemma {:induction false} RunIsPermitted<S>(
    exec: Exec<S>, db: Database<S>, files: seq<Migration>, allowContract: bool, f: Faults, k: nat, sofar: RunResult)
    requires k <= |files|
    ensures var db' := RunFrom(exec, db, files, allowContract, f, k, sofar).0;
            forall name :: name in db'.recorded && name !in db.recorded ==> MayRun(files, name, allowContract)
    decreases |files| - k
  {
    if k < |files| {
      StepIsPermitted(exec, db, files, k, allowContract, f.check(k), f.apply(k), sofar);
      var (db', r) := FileStep(exec, db, files[k], allowContract, f.check(k), f.apply(k), sofar);
      RunIsPermitted(exec, db', files, allowContract, f, k + 1, r);
    }
  }

  /** Whatever goes wrong, a run adds to the record only what the policy lets through. */
  lemma OnlyPermittedAreRun<S>(
    exec: Exec<S>, db: Database<S>, files: seq<Migration>, allowContract: bool, f: Faults)
    ensures var db' := RunSpec(exec, db, files, allowContract, f).0;
            forall name :: name in db'.recorded && name !in db.recorded ==> MayRun(files, name, allowContract)
  {
    RunIsPermitted(exec, db, files, allowContract, f, 0, RunResult([], [], true));
  }

  /** The store behind the runner: the schema and the tracking table. */
  class PoolMigrationStore<S> {
    const exec: Exec<S>
    var schema: S
    var recorded: set<string>

    ghost function Contents(): Database<S>
      reads this
    {
      Database(schema, recorded)
    }

    constructor (exec: Exec<S>, schema: S, recorded: set<string>)
      ensures this.exec == exec && Contents() == Database(schema, recorded)
    {
      this.exec := exec;
      this.schema := schema;
      this.recorded := recorded;
    }

    method EnsureTracking(fails: bool) returns (ok: bool)
      ensures ok == !fails
    {
      ok := !fails;
    }

    method IsApplied(name: string, fails: bool) returns (applied: Option<bool>)
      ensures applied == if fails then None else Some(name in recorded)
    {
      applied := if fails then None else Some(name in recorded);
    }

    method Apply(m: Migration, fault: ApplyFault) returns (ok: bool)
      modifies this
      ensures (Contents(), ok) == ApplySpec(exec, old(Contents()), m, fault)
      ensures ok <==> exec(old(schema), m.sql).Some? && fault.NoFault?
      ensures if exec(old(schema), m.sql).Some? && (fault.NoFault? || fault.CommitUnheard?)
              then Some(schema) == exec(old(schema), m.sql) && recorded == old(recorded) + {m.name}
              else schema == old(schema) && recorded == old(recorded)
    {
      if fault.BeginFails? {
        return false;
      }
      var txSchema := exec(schema, m.sql);
      if txSchema.None? || fault.ExecFails? {
        return false;
      }
      var txRecorded := recorded + {m.name};
      if fault.RecordFails? {
        return false;
      }
      if fault.CommitFails? {
        return false;
      }
      schema, recorded := txSchema.value, txRecorded;
      ok := !fault.CommitUnheard?;
    }
  }

  method RunMigrationsWithPolicy<S>(store: PoolMigrationStore<S>, files: seq<Migration>, allowContract: bool, f: Faults)
    returns (result: RunResult)
    modifies store
    ensures (store.Contents(), result) == RunSpec(store.exec, old(store.Contents()), files, allowContract, f)
    ensures f.ensureTracking ==>
              !result.ok && store.recorded == old(store.recorded) && store.schema == old(store.schema)
    ensures forall name :: name in store.recorded && name !in old(store.recorded) ==>
              exists m :: m in files && m.name == name
                          && (|| m.class_ == Legacy || m.class_ == Expand(false)
                              || (m.class_ == Contract && allowContract))
  {
    OnlyPermittedAreRun(store.exec, store.Contents(), files, allowContract, f);
    var ready := store.EnsureTracking(f.ensureTracking);
    if !ready {
      return RunResult([], [], false);
    }
    result := RunResult([], [], true);
    for k := 0 to |files|
      invariant result.ok
      invariant RunFrom(store.exec, store.Contents(), files, allowContract, f, k, result)
             == RunSpec(store.exec, old(store.Contents()), files, allowContract, f)
    {
      var m := files[k];
      if m.sql == "" {
        return result.(ok := false);
      }
      if !Permitted(m, allowContract) {
        return result.(ok := false);
      }
      var applied := store.IsApplied(m.name, f.check(k));
      if applied.None? {
        return result.(ok := false);
      }
      if applied.value {
        result := result.(skipped := result.skipped + [m.name]);
        continue;
      }
      var ok := store.Apply(m, f.apply(k));
      if !ok {
        return result.(ok := false);
      }
      result := result.(applied := result.applied + [m.name]);
    }
  }

  // ---- The schema is the fold of what is recorded ----

  /** Running every migration of a list once, in order. */
  function Fold<S>(exec: Exec<S>, start: S, files: seq<Migration>): Option<S> {
    if files == [] then Some(start)
    else
      match Fold(exec, start, files[..|files| - 1])
      case None => None
      case Some(s) => exec(s, files[|files| - 1].sql)
  }

  predicate DistinctNames(files: seq<Migration>) {
    forall i, j :: 0 <= i < j < |files| ==> files[i].name != files[j].name
  }

  function NamesOf(files: seq<Migration>): set<string> {
    set m | m in files :: m.name
  }

  /** Exactly the first `n` files are recorded, and the schema is what running each of them once, in order, gives. */
  ghost predicate AtPrefix<S>(exec: Exec<S>, start: S, db: Database<S>, all: seq<Migration>, n: nat) {
    && n <= |all|
    && db.recorded == NamesOf(all[..n])
    && Fold(exec, start, all[..n]) == Some(db.schema)
  }

  lemma RecordedBelow<S>(exec: Exec<S>, start: S, db: Database<S>, all: seq<Migration>, n: nat, k: nat)
    requires DistinctNames(all) && AtPrefix(exec, start, db, all, n) && k < |all|
    ensures all[k].name in db.recorded <==> k < n
  {
  }

  lemma PrefixGrows<S>(exec: Exec<S>, start: S, db: Database<S>, all: seq<Migration>, n: nat)
    requires AtPrefix(exec, start, db, all, n) && n < |all| && exec(db.schema, all[n].sql).Some?
    ensures AtPrefix(exec, start, Database(exec(db.schema, all[n].sql).value, db.recorded + {all[n].name}), all, n + 1)
  {
    assert all[..n + 1][..n] == all[..n];
    assert all[..n + 1] == all[..n] + [all[n]];
    assert NamesOf(all[..n + 1]) == NamesOf(all[..n]) + {all[n].name};
  }

  lemma FileKeepsPrefix<S>(
    exec: Exec<S>, start: S, db: Database<S>, all: seq<Migration>, n: nat,
    k: nat, allowContract: bool, checkFails: bool, fault: ApplyFault, sofar: RunResult)
    returns (n': nat)
    requires DistinctNames(all) && AtPrefix(exec, start, db, all, n) && k <= n && k < |all| && sofar.ok
    ensures var (db', r) := FileStep(exec, db, all[k], allowContract, checkFails, fault, sofar);
            AtPrefix(exec, start, db', all, n') && n <= n' && (r.ok ==> k < n')
  {
    n' := n;
    RecordedBelow(exec, start, db, all, n, k);
    var (db', r) := FileStep(exec, db, all[k], allowContract, checkFails, fault, sofar);
    if k == n && db'.recorded != db.recorded {
      PrefixGrows(exec, start, db, all, n);
      n' := n + 1;
    }
  }

  lemma RunFromUnfolds<S>(exec: Exec<S>, db: Database<S>, files: seq<Migration>, allowContract: bool, f: Faults,
                          k: nat, m: Migration, sofar: RunResult)
    requires k < |files| && m == files[k]
    ensures var (db', r) := FileStep(exec, db, m, allowContract, f.check(k), f.apply(k), sofar);
            RunFrom(exec, db, files, allowContract, f, k, sofar)
            == if r.ok then RunFrom(exec, db', files, allowContract, f, k + 1, r) else (db', r)
  {
  }

  /** The rest of a run leaves a prefix that is no shorter, and a successful run covers its whole list. */
  lemma {:induction false} RunFromKeepsPrefix<S>(
    exec: Exec<S>, start: S, db: Database<S>, all: seq<Migration>, n: nat,
    files: seq<Migration>, allowContract: bool, f: Faults, k: nat, sofar: RunResult) returns (n': nat)
    requires DistinctNames(all) && AtPrefix(exec, start, db, all, n) && sofar.ok
    requires files <= all && k <= |files| && k <= n
    ensures var (db', r) := RunFrom(exec, db, files, allowContract, f, k, sofar);
            AtPrefix(exec, start, db', all, n') && n <= n' && (r.ok ==> |files| <= n')
    decreases |files| - k
  {
    n' := n;
    if k < |files| {
      RunFromUnfolds(exec, db, files, allowContract, f, k, all[k], sofar);
      var (db', r) := FileStep(exec, db, all[k], allowContract, f.check(k), f.apply(k), sofar);
      n' := FileKeepsPrefix(exec, start, db, all, n, k, allowContract, f.check(k), f.apply(k), sofar);
      if r.ok {
        n' := RunFromKeepsPrefix(exec, start, db', all, n', files, allowContract, f, k + 1, r);
      }
    }
  }

  function Known(all: seq<Migration>, count: nat): seq<Migration> {
    if count <= |all| then all[..count] else all
  }

  /** One start of the program: how many of the files its release knows, and what goes wrong. */
  datatype Start = Start(count: nat, allowContract: bool, faults: Faults)

  /** The database after any sequence of starts, of older and newer releases alike. */
  function RunAll<S>(exec: Exec<S>, db: Database<S>, all: seq<Migration>, starts: seq<Start>): Database<S> {
    if starts == [] then db
    else
      var last := starts[|starts| - 1];
      var before := RunAll(exec, db, all, starts[..|starts| - 1]);
      RunSpec(exec, before, Known(all, last.count), last.allowContract, last.faults).0
  }

  lemma RunKeepsPrefix<S>(exec: Exec<S>, start: S, db: Database<S>, all: seq<Migration>, n: nat, s: Start)
    returns (n': nat)
    requires DistinctNames(all) && AtPrefix(exec, start, db, all, n)
    ensures var (db', r) := RunSpec(exec, db, Known(all, s.count), s.allowContract, s.faults);
            AtPrefix(exec, start, db', all, n') && n <= n' && (r.ok ==> |Known(all, s.count)| <= n')
  {
    n' := n;
    if !s.faults.ensureTracking {
      var files := Known(all, s.count);
      n' := RunFromKeepsPrefix(exec, start, db, all, n, files, s.allowContract, s.faults, 0, RunResult([], [], true));
    }
  }

  /**
   * Across any sequence of runs with any failures, the recorded migrations are a prefix of the list, never
   * a shorter one than before, and the schema is what running each of them exactly once, in order, gives.
   */
  lemma {:induction false} RunsAreResumable<S>(
    exec: Exec<S>, start: S, db: Database<S>, all: seq<Migration>, n: nat, starts: seq<Start>)
    returns (n': nat)
    requires DistinctNames(all) && AtPrefix(exec, start, db, all, n)
    ensures AtPrefix(exec, start, RunAll(exec, db, all, starts), all, n') && n <= n'
  {
    n' := n;
    if starts != [] {
      var last := starts[|starts| - 1];
      n' := RunsAreResumable(exec, start, db, all, n, starts[..|starts| - 1]);
      n' := RunKeepsPrefix(exec, start, RunAll(exec, db, all, starts[..|starts| - 1]), all, n', last);
    }
  }

  // ---- A run with nothing left in its way finishes the list ----

  const NO_FAULTS := Faults(false, k => false, k => NoFault)

  /** Every file can be run: it has SQL, policy lets it through, and its SQL works on the schema before it. */
  ghost predicate Runnable<S>(exec: Exec<S>, start: S, all: seq<Migration>, allowContract: bool) {
    forall k :: 0 <= k < |all| ==>
      && all[k].sql != ""
      && (all[k].class_ == Legacy || all[k].class_ == Expand(false) || (all[k].class_ == Contract && allowContract))
      && Fold(exec, start, all[..k + 1]).Some?
  }

  lemma CleanFile<S>(
    exec: Exec<S>, start: S, db: Database<S>, all: seq<Migration>, n: nat, allowContract: bool,
    k: nat, sofar: RunResult)
    requires DistinctNames(all) && AtPrefix(exec, start, db, all, n) && Runnable(exec, start, all, allowContract)
    requires k <= n && k < |all| && sofar.ok
    ensures var (db', r) := FileStep(exec, db, all[k], allowContract, false, NoFault, sofar);
            && r.ok && AtPrefix(exec, start, db', all, if k < n then n else n + 1)
            && (k < n ==> db' == db && r.applied == sofar.applied)
  {
    RecordedBelow(exec, start, db, all, n, k);
    if k == n {
      assert all[..k + 1][..k] == all[..k];
      PrefixGrows(exec, start, db, all, n);
    }
  }

  lemma {:induction false} CleanRunFinishes<S>(
    exec: Exec<S>, start: S, db: Database<S>, all: seq<Migration>, n: nat, allowContract: bool,
    k: nat, sofar: RunResult)
    requires DistinctNames(all) && AtPrefix(exec, start, db, all, n) && Runnable(exec, start, all, allowContract)
    requires k <= n && sofar.ok
    ensures var (db', r) := RunFrom(exec, db, all, allowContract, NO_FAULTS, k, sofar);
            && AtPrefix(exec, start, db', all, |all|) && r.ok
            && (n == |all| ==> db' == db && r.applied == sofar.applied)
    decreases |all| - k
  {
    if k < |all| {
      CleanFile(exec, start, db, all, n, allowContract, k, sofar);
      RunFromUnfolds(exec, db, all, allowContract, NO_FAULTS, k, all[k], sofar);
      var (db', r) := FileStep(exec, db, all[k], allowContract, false, NoFault, sofar);
      CleanRunFinishes(exec, start, db', all, if k < n then n else n + 1, allowContract, k + 1, r);
    }
  }

  /**
   * So, whatever failed before, one undisturbed run brings every database to the same schema: each migration of
   * the list run exactly once, in order. Running it again changes nothing and applies nothing.
   */
  lemma RecoveryIsComplete<S>(
    exec: Exec<S>, start: S, all: seq<Migration>, allowContract: bool, starts: seq<Start>)
    requires DistinctNames(all) && Runnable(exec, start, all, allowContract)
    ensures var db := RunAll(exec, Database(start, {}), all, starts);
            var (done, r) := RunSpec(exec, db, all, allowContract, NO_FAULTS);
            && r.ok && done.recorded == NamesOf(all) && Some(done.schema) == Fold(exec, start, all)
            && var (again, r2) := RunSpec(exec, done, all, allowContract, NO_FAULTS);
               r2.ok && again == done && r2.applied == []
  {
    var db := RunAll(exec, Database(start, {}), all, starts);
    assert AtPrefix(exec, start, Database(start, {}), all, 0);
    var n := RunsAreResumable(exec, start, Database(start, {}), all, 0, starts);
    CleanRunFinishes(exec, start, db, all, n, allowContract, 0, RunResult([], [], true));
    var (done, r) := RunSpec(exec, db, all, allowContract, NO_FAULTS);
    assert all[..|all|] == all;
    CleanRunFinishes(exec, start, done, all, |all|, allowContract, 0, RunResult([], [], true));
  }

  /** The file may be run, and its SQL is there and works, unless it has been run already. */
  predicate Passes<S>(exec: Exec<S>, db: Database<S>, m: Migration, allowContract: bool) {
    && m.sql != "" && (m.class_ == Legacy || m.class_ == Expand(false) || (m.class_ == Contract && allowContract))
    && (m.name in db.recorded || exec(db.schema, m.sql).Some?)
  }

  function AfterFile<S>(exec: Exec<S>, db: Database<S>, m: Migration): Database<S> {
    if m.name in db.recorded || exec(db.schema, m.sql).None? then db
    else Database(exec(db.schema, m.sql).value, db.recorded + {m.name})
  }

  /** The database before file `k` when every file before it has passed. */
  function Before<S>(exec: Exec<S>, db: Database<S>, files: seq<Migration>, k: nat): Database<S>
    requires k <= |files|
  {
    if k == 0 then db else AfterFile(exec, Before(exec, db, files, k - 1), files[k - 1])
  }

  /** File `i`, at its turn, passes. */
  predicate PassesAt<S>(exec: Exec<S>, db: Database<S>, files: seq<Migration>, allowContract: bool, i: nat) {
    i < |files| && Passes(exec, Before(exec, db, files, i), files[i], allowContract)
  }

  ghost predicate AllPass<S>(exec: Exec<S>, db: Database<S>, files: seq<Migration>, allowContract: bool, n: nat) {
    forall i :: 0 <= i < n ==> PassesAt(exec, db, files, allowContract, i)
  }

  lemma CleanStep<S>(exec: Exec<S>, db: Database<S>, m: Migration, allowContract: bool, sofar: RunResult)
    requires sofar.ok
    ensures var (db', r) := FileStep(exec, db, m, allowContract, false, NoFault, sofar);
            (r.ok <==> Passes(exec, db, m, allowContract)) && (r.ok ==> db' == AfterFile(exec, db, m))
  {
  }

  lemma {:induction false} CleanRunIs<S>(
    exec: Exec<S>, db: Database<S>, files: seq<Migration>, allowContract: bool, k: nat, sofar: RunResult)
    requires k <= |files| && sofar.ok && AllPass(exec, db, files, allowContract, k)
    ensures var (db', r) := RunFrom(exec, Before(exec, db, files, k), files, allowContract, NO_FAULTS, k, sofar);
            && (r.ok <==> AllPass(exec, db, files, allowContract, |files|))
            && (r.ok ==> db' == Before(exec, db, files, |files|))
    decreases |files| - k
  {
    if k < |files| {
      var m, now := files[k], Before(exec, db, files, k);
      CleanStep(exec, now, m, allowContract, sofar);
      RunFromUnfolds(exec, now, files, allowContract, NO_FAULTS, k, m, sofar);
      var r := FileStep(exec, now, m, allowContract, false, NoFault, sofar).1;
      assert PassesAt(exec, db, files, allowContract, k) <==> r.ok;
      if r.ok {
        CleanRunIs(exec, db, files, allowContract, k + 1, r);
      }
    }
  }

  lemma NamesGrow(files: seq<Migration>, k: nat)
    requires 0 < k <= |files|
    ensures NamesOf(files[..k]) == NamesOf(files[..k - 1]) + {files[k - 1].name}
  {
    assert files[..k] == files[..k - 1] + [files[k - 1]];
  }

  lemma {:induction false} BeforeRecords<S>(exec: Exec<S>, db: Database<S>, files: seq<Migration>, k: nat, allow: bool)
    requires k <= |files| && AllPass(exec, db, files, allow, k)
    ensures Before(exec, db, files, k).recorded == db.recorded + NamesOf(files[..k])
  {
    if k > 0 {
      BeforeRecords(exec, db, files, k - 1, allow);
      assert PassesAt(exec, db, files, allow, k - 1);
      NamesGrow(files, k);
    }
  }

  /** A run in which nothing fails by itself ends well if and only if each file, at its turn, may be run and works, or
      has been run already; and then every file is recorded. */
  lemma CleanRunExactly<S>(exec: Exec<S>, db: Database<S>, files: seq<Migration>, allowContract: bool)
    ensures var (db', r) := RunSpec(exec, db, files, allowContract, NO_FAULTS);
            && (r.ok <==> forall i :: 0 <= i < |files| ==> PassesAt(exec, db, files, allowContract, i))
            && (r.ok ==> db'.recorded == db.recorded + NamesOf(files))
  {
    CleanRunIs(exec, db, files, allowContract, 0, RunResult([], [], true));
    if AllPass(exec, db, files, allowContract, |files|) {
      BeforeRecords(exec, db, files, |files|, allowContract);
      assert files[..|files|] == files;
    }
  }

  // ---- What a run reports ----

  /** The result accounts for the files in order up to where the run stopped; nothing unrecorded is called applied. */
  lemma {:induction false} ReportIsTrue<S>(
    exec: Exec<S>, db: Database<S>, files: seq<Migration>, allowContract: bool, f: Faults,
    k: nat, sofar: RunResult)
    requires k <= |files| && sofar.ok && |sofar.applied| + |sofar.skipped| == k
    requires forall name :: name in sofar.applied + sofar.skipped ==> name in db.recorded
    ensures var (db', r) := RunFrom(exec, db, files, allowContract, f, k, sofar);
            && sofar.applied <= r.applied
            && (forall name :: name in r.applied + r.skipped ==> name in db'.recorded)
            && |r.applied| + |r.skipped| <= |files|
            && (r.ok <==> |r.applied| + |r.skipped| == |files|)
            && (forall name :: name in db'.recorded ==>
                  || name in db.recorded || name in r.applied
                  || (!r.ok && name == files[|r.applied| + |r.skipped|].name))
    decreases |files| - k
  {
    if k < |files| {
      var name := files[k].name;
      var (db', r) := FileStep(exec, db, files[k], allowContract, f.check(k), f.apply(k), sofar);
      if r.ok {
        ReportIsTrue(exec, db', files, allowContract, f, k + 1, r);
        var applied := RunFrom(exec, db', files, allowContract, f, k + 1, r).1.applied;
        assert r.applied != sofar.applied ==> applied[|sofar.applied|] == name;
      }
    }
  }
}
