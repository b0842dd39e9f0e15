/**
 Database migrations and rollbacks: recursion over versions. The state is the whole database, the row that
 stores its version included.
 */
module Migrations {
  import opened Outcomes

  /** The last version that has its own migration and rollback. */
  const LATEST := 5

  /** The migration and the rollback of each version, the UPDATE of the stored version, and what is read as
      the version of a database. */
  datatype Scripts<!S> = Scripts(up: (int, S) -> S, down: (int, S) -> S, update: (int, S) -> S, stored: S -> int)

  function Max(a: int, b: int): int {
    if a > b then a else b
  }

  function Min(a: int, b: int): int {
    if a < b then a else b
  }

  const NO_MIGRATION := Exception(RUNTIME_ERROR, "No specified migration")
  const MISSING_ROLLBACK := Exception(RUNTIME_ERROR, "Missing rollback migrations")

  // ---------------------------------------------------------------------------------------------
  // The meaning of a migration and of a rollback
  // ---------------------------------------------------------------------------------------------

  function LevelUp<S>(scripts: Scripts<S>, version: int, db: S): S {
    scripts.update(version, scripts.up(version, db))
  }

  /** A rollback without a script of its own does nothing. */
  function Undone<S>(scripts: Scripts<S>, version: int, db: S): S {
    if 0 <= version <= LATEST then scripts.down(version, db) else db
  }

  /** Undoing version 0 does not touch the stored version. */
  function LevelDown<S>(scripts: Scripts<S>, version: int, db: S): S {
    var undone := Undone(scripts, version, db);
    if version == 0 then undone else scripts.update(version - 1, undone)
  }

  /** The migrations from `low` through `high`, in ascending order. */
  function Ups<S>(scripts: Scripts<S>, db: S, low: int, high: int): S
    decreases high - low
  {
    if high < low then db else LevelUp(scripts, high, Ups(scripts, db, low, high - 1))
  }

  /** The rollbacks from `high` down through 0. */
  function Downs<S>(scripts: Scripts<S>, db: S, high: int): S
    decreases high + 1
  {
    if high < 0 then db else Downs(scripts, LevelDown(scripts, high, db), high - 1)
  }

  /** Migrating to `target` from `current` applies the missing versions, as far as there are migrations. */
  function Migrated<S>(scripts: Scripts<S>, db: S, target: int, current: int): S {
    Ups(scripts, db, Max(current + 1, 0), Min(target, LATEST))
  }

  /** A target beyond the last migration that is not reached yet cannot be reached. */
  predicate MigrationFails(target: int, current: int) {
    target > LATEST && current < target
  }

  predicate RollbackFails(known: int, current: int) {
    0 <= known < current
  }

  // ---------------------------------------------------------------------------------------------
  // The recursion in place
  // ---------------------------------------------------------------------------------------------

  class Database<S> {
    var data: S

    constructor (data: S)
      ensures this.data == data
    {
      this.data := data;
    }

    method Migrate(scripts: Scripts<S>, target: int, current: int) returns (r: Try<bool>)
      requires target >= -1
      modifies this
      ensures data == Migrated(scripts, old(data), target, current)
      ensures r.Failure? <==> target > 5 && current < target
      ensures r == if MigrationFails(target, current) then Failure(NO_MIGRATION) else Success(0 <= target && current < target)
      decreases target
    {
      if target == -1 {
        return Success(false);
      }
      r := Migrate(scripts, target - 1, current);
      if r.Failure? {
        return;
      }
      if current < target {
        if target > LATEST {
          return Failure(NO_MIGRATION);
        }
        data := scripts.up(target, data);
        data := scripts.update(target, data);
        return Success(true);
      }
    }

    method Rollback(scripts: Scripts<S>, known: int, current: int) returns (r: Try<()>)
      requires known >= -1
      modifies this
      ensures r.Failure? <==> 0 <= known < current
      ensures r == if RollbackFails(known, current) then Failure(MISSING_ROLLBACK) else Success(())
      ensures data == if known == -1 || r.Failure? then old(data) else Downs(scripts, old(data), current)
      decreases known
    {
      if known == -1 {
        return Success(());
      }
      if current == known {
        data := Undone(scripts, known, data);
        if known != 0 {
          data := scripts.update(known - 1, data);
        }
        r := Rollback(scripts, known - 1, current - 1);
      } else if current < known {
        r := Rollback(scripts, known - 1, current);
      } else {
        r := Failure(MISSING_ROLLBACK);
      }
    }
  }

  // ---------------------------------------------------------------------------------------------
  // What is run, and in which order
  // ---------------------------------------------------------------------------------------------

  /** A database that only records what was done to it. */
  datatype Event = Up(version: int) | Down(version: int) | Update(version: int)

  const LOGGED: Scripts<seq<Event>> := Scripts(
    (version, log) => log + [Up(version)],
    (version, log) => log + [Down(version)],
    (version, log) => log + [Update(version)],
    log => -1)

  /** Migrating from `current` to `target` runs, for each version after `current` in ascending order, its
      migration and then the UPDATE to it, and nothing else. */
  lemma {:induction false} MigrationRuns(log: seq<Event>, target: int, current: int)
    requires -1 <= current <= target <= 5
    ensures Migrated(LOGGED, log, target, current) == log + seq(2 * (target - current), i requires 0 <= i =>
              if i % 2 == 0 then Up(current + 1 + i / 2) else Update(current + 1 + i / 2))
    decreases target - current
  {
    if current < target {
      MigrationRuns(log, target - 1, current);
      assert Migrated(LOGGED, log, target, current)
          == Migrated(LOGGED, log, target - 1, current) + [Up(target), Update(target)];
    } else {
      assert log + [] == log;
    }
  }

  /** Rolling back from `current` runs the rollbacks of `current` down to 0, with the UPDATE to the version below
      after each of them but the last, and nothing else. */
  lemma {:induction false} RollbackRuns(log: seq<Event>, current: int)
    requires 0 <= current <= 5
    ensures Downs(LOGGED, log, current) == log + seq(2 * current + 1, i requires 0 <= i =>
              if i % 2 == 0 then Down(current - i / 2) else Update(current - 1 - i / 2))
    decreases current
  {
    if current > 0 {
      RollbackRuns(log + [Down(current), Update(current - 1)], current - 1);
      assert log + [Down(current)] + [Update(current - 1)] == log + [Down(current), Update(current - 1)];
    } else {
      assert Downs(LOGGED, log, 0) == log + [Down(0)];
    }
  }

  // ---------------------------------------------------------------------------------------------
  // Resuming
  // ---------------------------------------------------------------------------------------------

  /** After each migration the UPDATE finds its row, and the version is read back. */
  ghost predicate Recorded<S(!new)>(scripts: Scripts<S>) {
    forall n, s :: 0 <= n <= LATEST ==> scripts.stored(LevelUp(scripts, n, s)) == n
  }

  lemma {:induction false} UpsCompose<S>(scripts: Scripts<S>, db: S, low: int, mid: int, high: int)
    requires low <= mid + 1 <= high + 1
    ensures Ups(scripts, Ups(scripts, db, low, mid), mid + 1, high) == Ups(scripts, db, low, high)
    decreases high - mid
  {
    if mid < high {
      UpsCompose(scripts, db, low, mid, high - 1);
    }
  }

  /** Stopping at any level and migrating again later, from the version read then, is one migration. */
  lemma MigrationResumes<S(!new)>(scripts: Scripts<S>, db: S, mid: int, target: int)
    requires Recorded(scripts) && -1 <= mid <= target && -1 <= scripts.stored(db)
    ensures var start, stopped := scripts.stored(db), Migrated(scripts, db, mid, scripts.stored(db));
      && scripts.stored(stopped) == Max(start, Min(mid, LATEST))
      && Migrated(scripts, stopped, target, scripts.stored(stopped)) == Migrated(scripts, db, target, start)
      && (MigrationFails(target, scripts.stored(stopped)) <==> MigrationFails(target, start))
  {
    var low, middle, high := scripts.stored(db) + 1, Min(mid, LATEST), Min(target, LATEST);
    if low <= middle {
      UpsCompose(scripts, db, low, middle, high);
    }
  }

  // ---------------------------------------------------------------------------------------------
  // Going back
  // ---------------------------------------------------------------------------------------------

  /** From version `low` on, each rollback undoes its migration, with what was recorded around it. */
  ghost predicate InverseFrom<S(!new)>(scripts: Scripts<S>, low: int) {
    forall n, s :: low <= n <= LATEST && scripts.stored(s) == n - 1 ==> LevelDown(scripts, n, LevelUp(scripts, n, s)) == s
  }

  lemma {:induction false} StoredAfterUps<S(!new)>(scripts: Scripts<S>, db: S, low: int, high: int)
    requires Recorded(scripts) && 0 <= low <= high + 1 && high <= LATEST && scripts.stored(db) == low - 1
    ensures scripts.stored(Ups(scripts, db, low, high)) == high
  {
    if low <= high {
      assert Ups(scripts, db, low, high) == LevelUp(scripts, high, Ups(scripts, db, low, high - 1));
    }
  }

  /** Rolling back as far as `low` takes back what was applied from `low` on. */
  lemma {:induction false} DownsInvertUps<S(!new)>(scripts: Scripts<S>, db: S, low: int, high: int)
    requires Recorded(scripts) && InverseFrom(scripts, low)
    requires 0 <= low <= high + 1 && high <= LATEST && scripts.stored(db) == low - 1
    ensures Downs(scripts, Ups(scripts, db, low, high), high) == Downs(scripts, db, low - 1)
    decreases high
  {
    if low <= high {
      StoredAfterUps(scripts, db, low, high - 1);
      DownsInvertUps(scripts, db, low, high - 1);
    }
  }

  /** Rolling back from the stored version, with at least that many known rollbacks, restores the database
      from before all migrations. */
  lemma RollbackInvertsMigration<S(!new)>(scripts: Scripts<S>, db: S, target: int, known: int)
    requires Recorded(scripts) && InverseFrom(scripts, 0)
    requires 0 <= target <= LATEST && target <= known && scripts.stored(db) == -1
    ensures var migrated := Migrated(scripts, db, target, -1);
      && scripts.stored(migrated) == target
      && !RollbackFails(known, target)
      && Downs(scripts, migrated, target) == db
  {
    StoredAfterUps(scripts, db, 0, target);
    DownsInvertUps(scripts, db, 0, target);
  }

  /** An UPDATE of the version overwrites the one before it. */
  ghost predicate Overwrites<S(!new)>(scripts: Scripts<S>) {
    forall m, n, s :: scripts.update(m, scripts.update(n, s)) == scripts.update(m, s)
  }

  /** A rollback undoes only what is there: from a version beyond the last script, it is the rollback from the
      last script, after moving the stored version there. */
  lemma {:induction false} RollbackIgnoresUnknown<S(!new)>(scripts: Scripts<S>, db: S, high: int)
    requires Overwrites(scripts) && high > LATEST
    ensures Downs(scripts, db, high) == Downs(scripts, scripts.update(LATEST, db), LATEST)
    decreases high
  {
    if high > LATEST + 1 {
      RollbackIgnoresUnknown(scripts, scripts.update(high - 1, db), high - 1);
    }
  }

  // ---------------------------------------------------------------------------------------------
  // If the version's row outlives the rollback of version 0
  // ---------------------------------------------------------------------------------------------

  /** Versions above 0 are undone as before; undoing version 0 leaves a database that still records 0. */
  ghost predicate RowSurvives<S(!new)>(scripts: Scripts<S>) {
    && Recorded(scripts) && InverseFrom(scripts, 1)
    && forall s :: scripts.stored(s) == 0 ==> scripts.stored(LevelDown(scripts, 0, s)) == 0
  }

  lemma {:induction false} UpsInjective<S(!new)>(scripts: Scripts<S>, a: S, b: S, low: int, high: int)
    requires Recorded(scripts) && InverseFrom(scripts, low)
    requires 0 <= low <= high + 1 && high <= LATEST && scripts.stored(a) == low - 1 == scripts.stored(b)
    requires Ups(scripts, a, low, high) == Ups(scripts, b, low, high)
    ensures a == b
    decreases high
  {
    if low <= high {
      StoredAfterUps(scripts, a, low, high - 1);
      StoredAfterUps(scripts, b, low, high - 1);
      var x, y := Ups(scripts, a, low, high - 1), Ups(scripts, b, low, high - 1);
      assert LevelDown(scripts, high, LevelUp(scripts, high, x)) == x;
      assert LevelDown(scripts, high, LevelUp(scripts, high, y)) == y;
      UpsInjective(scripts, a, b, low, high - 1);
    }
  }

  /** Then migrating again, from the stored 0, skips version 0. What it yields is what a migration from
      scratch would yield exactly if version 0 has nothing to do on the database left by the rollback. */
  lemma RepeatedMigrationIsFreshExactlyWhen<S(!new)>(scripts: Scripts<S>, db: S, target: int)
    requires RowSurvives(scripts) && 0 <= target <= LATEST && scripts.stored(db) == -1
    ensures var left := Downs(scripts, Migrated(scripts, db, target, -1), target);
      && scripts.stored(left) == 0
      && Migrated(scripts, left, target, scripts.stored(left)) == Ups(scripts, left, 1, target)
      && (Ups(scripts, left, 1, target) == Migrated(scripts, left, target, -1) <==> LevelUp(scripts, 0, left) == left)
  {
    var first := LevelUp(scripts, 0, db);
    assert Ups(scripts, db, 0, 0) == first;
    UpsCompose(scripts, db, 0, 0, target);
    DownsInvertUps(scripts, first, 1, target);
    var left := LevelDown(scripts, 0, first);
    assert Downs(scripts, first, 0) == left;
    UpsCompose(scripts, left, 0, 0, target);
    assert Ups(scripts, left, 0, 0) == LevelUp(scripts, 0, left);
    if Ups(scripts, left, 1, target) == Ups(scripts, LevelUp(scripts, 0, left), 1, target) {
      UpsInjective(scripts, left, LevelUp(scripts, 0, left), 1, target);
    }
  }
}
