/**
  The audit database's schema migrations: one transaction per migration, any statement of which
  may fail, over any number of boots of binaries that know more or fewer migrations.
  */
module Migrations {

  type Migration = string

  /** `applied` is the schema: the migrations in force, in the order they were committed. */
  datatype Db = Db(version: nat, applied: seq<Migration>)

  /** Where one migration's transaction fails, if it does. A failed commit may still have
      reached the disk. */
  datatype Fault =
    | NoFault
    | BeginFails
    | ApplyFails
    | SetVersionFails
    | CommitFails(landed: bool)

  datatype Outcome = Migrated | ReadFailed | Downgrade(current: nat, known: nat) | MigrationFailed(version: nat)

  /** A binary starting up: the migrations it knows, whether it can read the version, and the
      fault its transaction for each version meets. */
  datatype Boot = Boot(known: seq<Migration>, readable: bool, fault: nat -> Fault)

  /** The transaction for migration `v`: both statements land, or neither does. */
  function Transact(db: Db, m: Migration, v: nat, f: Fault): Db {
    if f == NoFault || f == CommitFails(true) then Db(v + 1, db.applied + [m]) else db
  }

  function MigrateFrom(db: Db, boot: Boot, v: nat): (Db, Outcome)
    decreases |boot.known| - v
  {
    if v >= |boot.known| then (db, Migrated)
    else
      var f := boot.fault(v);
      var db' := Transact(db, boot.known[v], v, f);
      if f == NoFault then MigrateFrom(db', boot, v + 1) else (db', MigrationFailed(v + 1))
  }

  function Migrate(db: Db, boot: Boot): (Db, Outcome) {
    if !boot.readable then (db, ReadFailed)
    else if db.version > |boot.known| then (db, Downgrade(db.version, |boot.known|))
    else MigrateFrom(db, boot, db.version)
  }

  class Database {
    var version: nat
    var applied: seq<Migration>

    constructor ()
      ensures Disk() == Db(0, [])
    {
      version, applied := 0, [];
    }

    function Disk(): Db
      reads this
    {
      Db(version, applied)
    }

    method RunMigrations(boot: Boot) returns (outcome: Outcome)
      modifies this
      ensures (Disk(), outcome) == Migrate(old(Disk()), boot)
    {
      if !boot.readable {
        return ReadFailed;
      }
      var current, target := version, |boot.known|;
      if current > target {
        return Downgrade(current, target);
      }
      var v := current;
      while v < target
        invariant current <= v <= target
        invariant MigrateFrom(Disk(), boot, v) == MigrateFrom(old(Disk()), boot, current)
      {
        var f := boot.fault(v);
        if f == BeginFails {
          return MigrationFailed(v + 1);
        }
        // The open transaction's view; nothing of it shows before the commit.
        var txVersion, txApplied := version, applied;
        if f == ApplyFails {
          return MigrationFailed(v + 1);
        }
        txApplied := txApplied + [boot.known[v]];
        if f == SetVersionFails {
          return MigrationFailed(v + 1);
        }
        txVersion := v + 1;
        if f == CommitFails(false) {
          return MigrationFailed(v + 1);
        }
        version, applied := txVersion, txApplied;
        if f == CommitFails(true) {
          return MigrationFailed(v + 1);
        }
        v := v + 1;
      }
      return Migrated;
    }
  }

  /** The database holds the first `version` of the migrations ever written. */
  ghost predicate Consistent(db: Db, all: seq<Migration>) {
    db.version <= |all| && db.applied == all[..db.version]
  }

  /** Boots the files in order. */
  function Boots(db: Db, boots: seq<Boot>): Db
    decreases |boots|
  {
    if boots == [] then db else Boots(Migrate(db, boots[0]).0, boots[1..])
  }

  lemma {:induction false} MigrateFromKeepsConsistent(db: Db, boot: Boot, all: seq<Migration>)
    requires Consistent(db, all) && boot.known <= all && db.version <= |boot.known|
    ensures
      var (db', outcome) := MigrateFrom(db, boot, db.version);
      && Consistent(db', all)
      && db.version <= db'.version <= |boot.known|
      && (outcome == Migrated ==> db'.version == |boot.known|)
      && (outcome.MigrationFailed? ==>
            && 0 < outcome.version
            && boot.fault(outcome.version - 1) != NoFault
            && outcome.version - 1 <= db'.version <= outcome.version)
    decreases |boot.known| - db.version
  {
    var v := db.version;
    if v < |boot.known| {
      assert boot.known[v] == all[v] && all[..v + 1] == all[..v] + [all[v]];
      if boot.fault(v) == NoFault {
        MigrateFromKeepsConsistent(Transact(db, boot.known[v], v, NoFault), boot, all);
      }
    }
  }

  /** One boot: the version only grows, success means fully migrated, failure means a statement of
      the named migration failed, and a database from a newer binary is left as it was. */
  lemma BootKeepsConsistent(db: Db, boot: Boot, all: seq<Migration>)
    requires Consistent(db, all) && boot.known <= all
    ensures
      var (db', outcome) := Migrate(db, boot);
      && Consistent(db', all)
      && db.version <= db'.version
      && (outcome == Migrated <==> boot.readable && db.version <= |boot.known| &&
                                   forall v: nat :: db.version <= v < |boot.known| ==> boot.fault(v) == NoFault)
      && (outcome == Migrated ==> db'.version == |boot.known|)
      && (!boot.readable || db.version > |boot.known| ==> db' == db)
      && (!boot.readable <==> outcome == ReadFailed)
      && (boot.readable && db.version > |boot.known| <==> outcome == Downgrade(db.version, |boot.known|))
  {
    if boot.readable && db.version <= |boot.known| {
      MigrateFromKeepsConsistent(db, boot, all);
      SucceedsExactlyWithoutFaults(db, boot, db.version);
      MigratesOrFails(db, boot, db.version);
    }
  }

  lemma {:induction false} MigratesOrFails(db: Db, boot: Boot, v: nat)
    requires v <= |boot.known|
    ensures MigrateFrom(db, boot, v).1 == Migrated || MigrateFrom(db, boot, v).1.MigrationFailed?
    decreases |boot.known| - v
  {
    if v < |boot.known| && boot.fault(v) == NoFault {
      MigratesOrFails(Transact(db, boot.known[v], v, NoFault), boot, v + 1);
    }
  }

  /** The migration that is named is the first whose transaction met a fault. */
  lemma {:induction false} FailsAtFirstFault(db: Db, boot: Boot, v: nat, n: nat)
    requires v <= |boot.known|
    ensures MigrateFrom(db, boot, v).1 == MigrationFailed(n) <==>
            v < n <= |boot.known| && boot.fault(n - 1) != NoFault
            && forall u: nat :: v <= u < n - 1 ==> boot.fault(u) == NoFault
    decreases |boot.known| - v
  {
    if v < |boot.known| && boot.fault(v) == NoFault {
      FailsAtFirstFault(Transact(db, boot.known[v], v, NoFault), boot, v + 1, n);
    }
  }

  lemma {:induction false} SucceedsExactlyWithoutFaults(db: Db, boot: Boot, v: nat)
    requires v <= |boot.known|
    ensures MigrateFrom(db, boot, v).1 == Migrated <==>
            forall u: nat :: v <= u < |boot.known| ==> boot.fault(u) == NoFault
    decreases |boot.known| - v
  {
    if v < |boot.known| && boot.fault(v) == NoFault {
      SucceedsExactlyWithoutFaults(Transact(db, boot.known[v], v, NoFault), boot, v + 1);
    }
  }

  /** Any sequence of boots of binaries built from one append-only list of migrations, each failing
      wherever it may: the schema is the list's first `version` entries, each applied once. */
  lemma {:induction false} BootsKeepConsistent(db: Db, boots: seq<Boot>, all: seq<Migration>)
    requires Consistent(db, all) && forall b :: b in boots ==> b.known <= all
    ensures Consistent(Boots(db, boots), all)
    ensures db.version <= Boots(db, boots).version
    decreases |boots|
  {
    if boots != [] {
      BootKeepsConsistent(db, boots[0], all);
      BootsKeepConsistent(Migrate(db, boots[0]).0, boots[1..], all);
    }
  }

  /** From a new file: after any boots, one faultless boot of the newest binary completes the schema. */
  lemma CleanBootCompletes(boots: seq<Boot>, all: seq<Migration>, last: Boot)
    requires forall b :: b in boots ==> b.known <= all
    requires last.known == all && last.readable && forall v :: last.fault(v) == NoFault
    ensures Migrate(Boots(Db(0, []), boots), last) == (Db(|all|, all), Migrated)
  {
    BootsKeepConsistent(Db(0, []), boots, all);
    BootKeepsConsistent(Boots(Db(0, []), boots), last, all);
    assert all[..|all|] == all;
  }
}
