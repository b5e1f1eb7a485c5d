/**
 Runs of Registrar requests and administrator commands, in any order and of any
 length.  An operation that panics ends its own process only, so a run goes on
 after it.
 */
module Runs {
  import opened Records
  import opened Naming
  import opened Registry
  import opened Handlers

  type Ops = seq<(Op, int)>

  function Run(db: Store, cfg: Config, ops: Ops): Store
    decreases |ops|
  {
    if ops == [] then db else Run(Step(db, cfg, ops[0].0, ops[0].1).0, cfg, ops[1..])
  }

  // ---- integrity ----

  /** No make-pool of the run runs out of access keys. */
  predicate NeverOrphans(db: Store, cfg: Config, ops: Ops)
    decreases |ops|
  {
    ops == [] ||
    (!OrphansPool(db, cfg, ops[0].0, ops[0].1) && NeverOrphans(Step(db, cfg, ops[0].0, ops[0].1).0, cfg, ops[1..]))
  }

  /** The names without a pool. */
  function Orphans(db: Store): set<string> { db.names.Keys - db.pools.Keys }

  lemma ProbeKeepsOrphans(db: Store, pool: string, probe: Probe, now: int)
    ensures Orphans(ProbeMux(db, pool, probe, now).0) == Orphans(db)
  {
    hide AfterStart;
    if pool in db.pools && probe.Reached? {
      AfterStartFrame(db, pool, probe.start, now);
    }
  }

  lemma RegisteringOnOrphans(db: Store, uid: string, pool: string, path: string, gid: string,
                             key: string, secretKey: string, expiration: int, now: int)
    requires pool !in db.names && pool !in db.pools
    ensures Orphans(NamedPool(db, uid, pool, path, now)) == Orphans(db) + {pool}
    ensures Orphans(RegisteredPool(db, uid, pool, path, gid, key, secretKey, expiration, now)) == Orphans(db)
  {
    assert db.names[pool := PoolName(uid, now)].Keys == db.names.Keys + {pool};
    var r := RegisteredPool(db, uid, pool, path, gid, key, secretKey, expiration, now);
    assert r.pools.Keys == db.pools.Keys + {pool};
  }

  lemma CreatePoolOnOrphans(db: Store, uid: string, path: string, gid: string, nameIds: NameIds, keyIds: KeyIds,
                            secretKey: string, expiration: int, now: int)
    requires db.pools.Keys <= db.names.Keys
    ensures var (r, s, pool) := CreatePool(db, uid, path, gid, nameIds, keyIds, secretKey, expiration, now);
            if path !in db.directories && FirstFresh(nameIds, db.names.Keys).Some? && FirstFresh(keyIds, db.secrets.Keys).None?
            then Orphans(r) == Orphans(db) + {pool} && pool !in Orphans(db)
            else Orphans(r) == Orphans(db)
  {
    hide NamedPool, RegisteredPool, Orphans;
    var name, key := FirstFresh(nameIds, db.names.Keys), FirstFresh(keyIds, db.secrets.Keys);
    if name.Some? {
      assert name.value !in db.names.Keys && name.value !in db.pools.Keys;
      RegisteringOnOrphans(db, uid, name.value, path, gid, if key.Some? then key.value else "", secretKey, expiration, now);
      UnusedIsNoOrphan(db, name.value);
    }
  }

  lemma UnusedIsNoOrphan(db: Store, n: string)
    requires n !in db.names
    ensures n !in Orphans(db)
  {
  }

  lemma MakePoolOnOrphans(db: Store, cfg: Config, op: Op, now: int)
    requires op.MakePool? && db.pools.Keys <= db.names.Keys
    ensures var r := MakePoolEffect(db, cfg, op, now).0;
            if OrphansPool(db, cfg, op, now) then exists n :: n !in Orphans(db) && Orphans(r) == Orphans(db) + {n}
            else Orphans(r) == Orphans(db)
  {
    hide CheckAccess, ProbeMux, CreatePool, Orphans;
    CheckAccessFrame(db, cfg, op.caller, "", false, now);
    var (db1, access) := CheckAccess(db, cfg, op.caller, "", false, now);
    SameOrphans(db, db1);
    CreatePoolOnOrphans(db1, op.caller.uid, op.path, op.gid, op.nameIds, op.keyIds,
                        op.secretKey, now + cfg.poolTerm, now);
    var (db2, created, pool) := CreatePool(db1, op.caller.uid, op.path, op.gid, op.nameIds, op.keyIds,
                                           op.secretKey, now + cfg.poolTerm, now);
    CreatedStatus(db1, op.caller.uid, op.path, op.gid, op.nameIds, op.keyIds, op.secretKey, now + cfg.poolTerm, now);
    ProbeKeepsOrphans(db2, pool, op.probe, now);
  }

  lemma CreatedStatus(db: Store, uid: string, path: string, gid: string, nameIds: NameIds, keyIds: KeyIds,
                      secretKey: string, expiration: int, now: int)
    ensures CreatePool(db, uid, path, gid, nameIds, keyIds, secretKey, expiration, now).1.Okay? <==>
            && path !in db.directories
            && FirstFresh(nameIds, db.names.Keys).Some? && FirstFresh(keyIds, db.secrets.Keys).Some?
  {
    hide FirstFresh, NamedPool, RegisteredPool;
  }

  lemma SameOrphans(db: Store, r: Store)
    requires r.names.Keys == db.names.Keys && r.pools.Keys == db.pools.Keys
    ensures Orphans(r) == Orphans(db)
  {
  }

  lemma RemovalKeepsOrphans(db: Store, gone: set<string>)
    requires gone <= db.pools.Keys
    ensures Orphans(WithoutPools(db, gone)) == Orphans(db)
  {
    hide DropDirectories, DropBuckets, DropSecrets;
    assert (db.names - gone).Keys == db.names.Keys - gone && (db.pools - gone).Keys == db.pools.Keys - gone;
  }

  lemma WithoutUserKeepsOrphans(db: Store, uid: string)
    ensures Orphans(WithoutUser(db, uid)) == Orphans(db)
  {
    hide WithoutPools, Orphans;
    var gone := PoolsOf(db, uid);
    assert gone <= db.pools.Keys;
    RemovalKeepsOrphans(db, gone);
    SameOrphans(WithoutPools(db, gone), WithoutUser(db, uid));
  }

  lemma AddUserKeepsOrphans(db: Store, u: User, now: int)
    ensures Orphans(AddUser(db, u, now).0) == Orphans(db)
  {
    hide AddUser, Orphans;
    AddUserFrame(db, u, now);
    SameOrphans(db, AddUser(db, u, now).0);
  }

  lemma {:induction false} LoadNamesKeepsOrphans(db: Store, command: string, names: seq<string>, now: int)
    ensures Orphans(LoadNames(db, command, names, now).0) == Orphans(db)
    decreases |names|
  {
    hide WithoutUser, AddUser, Orphans;
    if names == [] {
    } else if names[0] !in db.users {
      LoadNamesKeepsOrphans(db, command, names[1..], now);
    } else if command == "DELETE" {
      WithoutUserKeepsOrphans(db, names[0]);
      LoadNamesKeepsOrphans(WithoutUser(db, names[0]), command, names[1..], now);
    } else {
      var u := db.users[names[0]].(enabled := command == "ENABLE");
      AddUserKeepsOrphans(db, u, now);
      LoadNamesKeepsOrphans(AddUser(db, u, now).0, command, names[1..], now);
    }
  }

  lemma LoadRowKeepsOrphans(db: Store, row: seq<string>, now: int)
    ensures Orphans(LoadRow(db, row, now).0) == Orphans(db)
  {
    hide WithoutUser, LoadNames, AddUser, GoodUser, Orphans;
    if row != [] {
      LoadNamesKeepsOrphans(db, row[0], row[1..], now);
      if |row| >= 4 {
        WithoutUserKeepsOrphans(db, row[1]);
        AddUserKeepsOrphans(db, UserOfRow(row, now), now);
        AddUserKeepsOrphans(WithoutUser(db, row[1]), UserOfRow(row, now), now);
      }
    }
  }

  lemma MakeBucketKeepsOrphans(db: Store, cfg: Config, op: Op, now: int)
    requires op.MakeBucket?
    ensures Orphans(Step(db, cfg, op, now).0) == Orphans(db)
  {
    hide CheckPoolAccess, ProbeMux, GoodBucket, Orphans;
    CheckPoolAccessFrame(db, cfg, op.caller, op.pool, now);
    var db1 := CheckPoolAccess(db, cfg, op.caller, op.pool, now).0;
    SameOrphans(db, db1);
    var b := Bucket(op.pool, op.bucket, op.bucketPolicy, now + cfg.bucketTerm, now);
    CreateBucketKeepsOrphans(db1, b, op.probe, now);
    hide CreateBucket;
  }

  lemma CreateBucketKeepsOrphans(db: Store, b: Bucket, probe: Probe, now: int)
    ensures Orphans(CreateBucket(db, b, probe, now).0) == Orphans(db)
  {
    hide ProbeMux, Orphans;
    var db1 := db.(buckets := db.buckets[b.bucket := b]);
    var db2 := ProbeMux(db1, b.pool, probe, now).0;
    SameOrphans(db, db1);
    ProbeKeepsOrphans(db1, b.pool, probe, now);
    SameOrphans(db2, db2.(buckets := db2.buckets - {b.bucket}));
  }

  lemma MakeSecretKeepsOrphans(db: Store, cfg: Config, op: Op, now: int)
    requires op.MakeSecret?
    ensures Orphans(Step(db, cfg, op, now).0) == Orphans(db)
  {
    hide CheckPoolAccess, FirstFresh, Orphans;
    CheckPoolAccessFrame(db, cfg, op.caller, op.pool, now);
    var db1 := CheckPoolAccess(db, cfg, op.caller, op.pool, now).0;
    SameOrphans(db, db1);
    SameOrphans(db, db1.(secrets := MakeSecretEffect(db, cfg, op, now).0.secrets));
  }

  lemma DeletePoolKeepsOrphans(db: Store, cfg: Config, op: Op, now: int)
    requires op.DeletePool?
    ensures Orphans(Step(db, cfg, op, now).0) == Orphans(db)
  {
    hide CheckPoolAccess, WithoutPools, Orphans;
    CheckPoolAccessFrame(db, cfg, op.caller, op.pool, now);
    var db1 := CheckPoolAccess(db, cfg, op.caller, op.pool, now).0;
    SameOrphans(db, db1);
    if op.pool in db.pools {
      RemovalKeepsOrphans(db1, {op.pool});
    }
  }

  lemma DeletersKeepOrphans(db: Store, cfg: Config, op: Op, now: int)
    requires op.DeleteBucket? || op.DeleteSecret?
    ensures Orphans(Step(db, cfg, op, now).0) == Orphans(db)
  {
    hide CheckPoolAccess, GoodBucket, GoodSecret, Orphans;
    CheckPoolAccessFrame(db, cfg, op.caller, op.pool, now);
    var db1 := CheckPoolAccess(db, cfg, op.caller, op.pool, now).0;
    SameOrphans(db, db1);
    match op
    case DeleteBucket(_, _, _, b) => SameOrphans(db, db1.(buckets := db1.buckets - {b}));
    case DeleteSecret(_, _, _, k) => SameOrphans(db, db1.(secrets := db1.secrets - {k}));
  }

  lemma OthersKeepOrphans(db: Store, cfg: Config, op: Op, now: int)
    requires op.UserInfo? || op.ListPool? || op.LoadUserRow? || op.SendProbe? || op.KillPool? || op.MuxAccess?
    ensures Orphans(Step(db, cfg, op, now).0) == Orphans(db)
  {
    hide CheckAccess, LoadRow, ProbeMux, AfterStart, WithoutPools, Orphans;
    match op
    case UserInfo(c, _) =>
      CheckAccessFrame(db, cfg, c, "", true, now);
      SameOrphans(db, Step(db, cfg, op, now).0);
    case ListPool(c, _, pool) =>
      CheckAccessFrame(db, cfg, c, pool, false, now);
      SameOrphans(db, Step(db, cfg, op, now).0);
    case LoadUserRow(row) => LoadRowKeepsOrphans(db, row, now);
    case SendProbe(pool, probe) => ProbeKeepsOrphans(db, pool, probe, now);
    case KillPool(pool) => if pool in db.pools { RemovalKeepsOrphans(db, {pool}); }
    case MuxAccess(pool, start) =>
      if pool in db.pools {
        AfterStartFrame(db, pool, start, now);
        SameOrphans(db, AfterStart(db, pool, start, now));
      }
  }

  lemma AdminKeepsOrphans(db: Store, cfg: Config, op: Op, now: int)
    requires op.StopUser? || op.StopPool? || op.KillBucket? || op.ExpireUser? || op.ExpirePool? || op.ExpireBucket?
             || op.ExpireSecret? || op.ShowPool? || op.ExpireToken?
    ensures Orphans(Step(db, cfg, op, now).0) == Orphans(db)
  {
    hide Orphans;
    var r := Step(db, cfg, op, now).0;
    assert r.names == db.names;
    match op
    case StopPool(pool, _) => assert r.pools.Keys == db.pools.Keys; SameOrphans(db, r);
    case ExpirePool(pool, _) => assert r.pools.Keys == db.pools.Keys; SameOrphans(db, r);
    case _ => SameOrphans(db, r);
  }

  /** The names without a pool never become fewer, and exactly one more comes with
      each make-pool that runs out of access keys. */
  lemma StepOnOrphans(db: Store, cfg: Config, op: Op, now: int)
    requires Sound(db)
    ensures var r := Step(db, cfg, op, now).0;
            if OrphansPool(db, cfg, op, now) then exists n :: n !in Orphans(db) && Orphans(r) == Orphans(db) + {n}
            else Orphans(r) == Orphans(db)
  {
    MembersHavePools(db);
    hide Sound, Orphans, MakePoolEffect;
    if op.MakePool? {
      MakePoolOnOrphans(db, cfg, op, now);
    } else {
      hide Step;
      if op.MakeBucket? {
        MakeBucketKeepsOrphans(db, cfg, op, now);
      } else if op.MakeSecret? {
        MakeSecretKeepsOrphans(db, cfg, op, now);
      } else if op.DeletePool? {
        DeletePoolKeepsOrphans(db, cfg, op, now);
      } else if op.DeleteBucket? || op.DeleteSecret? {
        DeletersKeepOrphans(db, cfg, op, now);
      } else if op.UserInfo? || op.ListPool? || op.LoadUserRow? || op.SendProbe? || op.KillPool? || op.MuxAccess? {
        OthersKeepOrphans(db, cfg, op, now);
      } else {
        AdminKeepsOrphans(db, cfg, op, now);
      }
    }
  }

  lemma OrphansAndIntegrity(db: Store)
    requires Sound(db)
    ensures Integrity(db) <==> Orphans(db) == {}
  {
    hide Sound;
    forall n ensures n in Orphans(db) <==> n in db.names && n !in db.pools {
    }
    hide Orphans;
    if Orphans(db) != {} {
      var n :| n in Orphans(db);
    }
  }

  lemma OrphanBreaksIntegrity(db: Store, n: string)
    requires n in Orphans(db)
    ensures !Integrity(db)
  {
    assert n in db.names && n !in db.pools;
  }

  /** One operation on a consistent registry leaves it consistent if and only if it is
      not a make-pool that runs out of access keys, and then Registrar has quit. */
  lemma StepIntegrity(db: Store, cfg: Config, op: Op, now: int)
    requires Integrity(db)
    ensures Integrity(Step(db, cfg, op, now).0) <==> !OrphansPool(db, cfg, op, now)
    ensures OrphansPool(db, cfg, op, now) ==> Step(db, cfg, op, now).1.Fatal?
  {
    StepSound(db, cfg, op, now);
    StepOnOrphans(db, cfg, op, now);
    OrphansAndIntegrity(db);
    OrphansAndIntegrity(Step(db, cfg, op, now).0);
    if OrphansPool(db, cfg, op, now) {
      MakePoolSound(db, cfg, op, now);
    }
    hide Sound, NoOrphans, OrphansPool;
  }

  lemma {:induction false} RunKeepsSound(db: Store, cfg: Config, ops: Ops)
    requires Sound(db)
    ensures Sound(Run(db, cfg, ops))
    ensures Orphans(db) <= Orphans(Run(db, cfg, ops))
    decreases |ops|
  {
    hide Sound, Step, Orphans, OrphansPool;
    if ops != [] {
      StepSound(db, cfg, ops[0].0, ops[0].1);
      StepOnOrphans(db, cfg, ops[0].0, ops[0].1);
      RunKeepsSound(Step(db, cfg, ops[0].0, ops[0].1).0, cfg, ops[1..]);
    }
  }

  /** A run of operations, panics of single processes included, keeps full
      referential integrity if and only if no make-pool of it runs out of access keys. */
  lemma {:induction false} RunKeepsIntegrity(db: Store, cfg: Config, ops: Ops)
    requires Integrity(db)
    ensures Integrity(Run(db, cfg, ops)) <==> NeverOrphans(db, cfg, ops)
    decreases |ops|
  {
    hide Sound, NoOrphans, Step, Orphans, OrphansPool;
    if ops != [] {
      var (op, now) := ops[0];
      var db1 := Step(db, cfg, op, now).0;
      StepIntegrity(db, cfg, op, now);
      if OrphansPool(db, cfg, op, now) {
        StepSound(db, cfg, op, now);
        RunKeepsSound(db1, cfg, ops[1..]);
        OrphansAndIntegrity(db1);
        OrphansAndIntegrity(Run(db1, cfg, ops[1..]));
      } else {
        RunKeepsIntegrity(db1, cfg, ops[1..]);
      }
    }
  }

  lemma LoadRowIntegrity(db: Store, row: seq<string>, now: int)
    requires Integrity(db)
    ensures Integrity(LoadRow(db, row, now).0)
  {
    LoadRowSound(db, row, now);
    LoadRowKeepsOrphans(db, row, now);
    OrphansAndIntegrity(db);
    OrphansAndIntegrity(LoadRow(db, row, now).0);
    hide Sound, NoOrphans, Orphans, LoadRow;
  }

  lemma AddUserIntegrity(db: Store, u: User, now: int)
    requires Integrity(db)
    ensures Integrity(AddUser(db, u, now).0)
  {
    AddUserSound(db, u, now);
    AddUserKeepsOrphans(db, u, now);
    OrphansAndIntegrity(db);
    OrphansAndIntegrity(AddUser(db, u, now).0);
    hide Sound, NoOrphans, Orphans, AddUser;
  }

  // ---- probe keys ----

  /** No delete-secret of the run names the probe key of its pool. */
  predicate NeverDeletesProbeKey(db: Store, cfg: Config, ops: Ops)
    decreases |ops|
  {
    ops == [] ||
    (!DeletesProbeKey(db, cfg, ops[0].0, ops[0].1) && NeverDeletesProbeKey(Step(db, cfg, ops[0].0, ops[0].1).0, cfg, ops[1..]))
  }

  /** In every run without such a request, and in every state of it, each pool keeps
      the internal key that probes need. */
  lemma {:induction false} RunKeepsProbeKeys(db: Store, cfg: Config, ops: Ops)
    requires Sound(db) && ProbeKeysPresent(db) && NeverDeletesProbeKey(db, cfg, ops)
    ensures ProbeKeysPresent(Run(db, cfg, ops))
    decreases |ops|
  {
    hide Sound, Step, ProbeKeysPresent, DeletesProbeKey;
    if ops != [] {
      StepSound(db, cfg, ops[0].0, ops[0].1);
      StepProbeKeys(db, cfg, ops[0].0, ops[0].1);
      RunKeepsProbeKeys(Step(db, cfg, ops[0].0, ops[0].1).0, cfg, ops[1..]);
    }
  }

  // ---- users ----

  /** The tables that belong to users. */
  datatype UserTables = UserTables(users: map<string, User>, claims: map<string, Claim>, times: map<string, int>)

  function TablesOf(db: Store): UserTables { UserTables(db.users, db.claims, db.userTimes) }

  /** What an operation does to them: requests only check the requester. */
  function TablesAfter(db: Store, cfg: Config, op: Op, now: int): UserTables {
    match op
    case UserInfo(c, _) => TablesOf(CheckAccess(db, cfg, c, "", true, now).0)
    case ListPool(c, _, pool) => TablesOf(CheckAccess(db, cfg, c, pool, false, now).0)
    case MakePool(c, _, _, _, _, _, _, _) => TablesOf(CheckAccess(db, cfg, c, "", false, now).0)
    case DeletePool(c, _, pool) => TablesOf(CheckPoolAccess(db, cfg, c, pool, now).0)
    case MakeBucket(c, _, pool, _, _, _) => TablesOf(CheckPoolAccess(db, cfg, c, pool, now).0)
    case DeleteBucket(c, _, pool, _) => TablesOf(CheckPoolAccess(db, cfg, c, pool, now).0)
    case MakeSecret(c, _, pool, _, _, _, _) => TablesOf(CheckPoolAccess(db, cfg, c, pool, now).0)
    case DeleteSecret(c, _, pool, _) => TablesOf(CheckPoolAccess(db, cfg, c, pool, now).0)
    case LoadUserRow(row) => TablesOf(LoadRow(db, row, now).0)
    case StopUser(uid, disabling) =>
      if uid !in db.users then TablesOf(db)
      else TablesOf(db).(users := db.users[uid := db.users[uid].(enabled := !disabling)])
    case ExpireUser(uid, date) =>
      if uid !in db.users then TablesOf(db)
      else TablesOf(db).(users := db.users[uid := db.users[uid].(expiration := date)])
    case _ => TablesOf(db)
  }

  lemma ProbeLeavesUsers(db: Store, pool: string, probe: Probe, now: int)
    ensures TablesOf(ProbeMux(db, pool, probe, now).0) == TablesOf(db)
  {
    hide AfterStart;
    if pool in db.pools && probe.Reached? {
      AfterStartFrame(db, pool, probe.start, now);
    }
  }

  lemma MakePoolLeavesUsers(db: Store, cfg: Config, op: Op, now: int)
    requires op.MakePool?
    ensures TablesOf(MakePoolEffect(db, cfg, op, now).0) == TablesOf(CheckAccess(db, cfg, op.caller, "", false, now).0)
  {
    hide CheckAccess, ProbeMux, CreatePool, TablesOf;
    var db1 := CheckAccess(db, cfg, op.caller, "", false, now).0;
    var (db2, created, pool) := CreatePool(db1, op.caller.uid, op.path, op.gid, op.nameIds, op.keyIds,
                                           op.secretKey, now + cfg.poolTerm, now);
    CreatePoolLeavesUsers(db1, op.caller.uid, op.path, op.gid, op.nameIds, op.keyIds,
                          op.secretKey, now + cfg.poolTerm, now);
    ProbeLeavesUsers(db2, pool, op.probe, now);
  }

  lemma CreatePoolLeavesUsers(db: Store, uid: string, path: string, gid: string, nameIds: NameIds, keyIds: KeyIds,
                              secretKey: string, expiration: int, now: int)
    ensures TablesOf(CreatePool(db, uid, path, gid, nameIds, keyIds, secretKey, expiration, now).0) == TablesOf(db)
  {
    hide FirstFresh, NamedPool, RegisteredPool, TablesOf;
    var name := FirstFresh(nameIds, db.names.Keys);
    var key := FirstFresh(keyIds, db.secrets.Keys);
    var pool := if name.Some? then name.value else "";
    var k := if key.Some? then key.value else "";
    PutPoolLeavesUsers(db, uid, pool, path, gid, k, secretKey, expiration, now);
  }

  lemma PutPoolLeavesUsers(db: Store, uid: string, pool: string, path: string, gid: string,
                           key: string, secretKey: string, expiration: int, now: int)
    ensures TablesOf(NamedPool(db, uid, pool, path, now)) == TablesOf(db)
    ensures TablesOf(RegisteredPool(db, uid, pool, path, gid, key, secretKey, expiration, now)) == TablesOf(db)
  {
  }

  lemma MakeBucketLeavesUsers(db: Store, cfg: Config, op: Op, now: int)
    requires op.MakeBucket?
    ensures TablesOf(MakeBucketEffect(db, cfg, op, now).0) == TablesOf(CheckPoolAccess(db, cfg, op.caller, op.pool, now).0)
  {
    hide CheckPoolAccess, GoodBucket, ProbeMux;
    var db1 := CheckPoolAccess(db, cfg, op.caller, op.pool, now).0;
    var b := Bucket(op.pool, op.bucket, op.bucketPolicy, now + cfg.bucketTerm, now);
    ProbeLeavesUsers(db1.(buckets := db1.buckets[op.bucket := b]), op.pool, op.probe, now);
  }

  lemma MakeSecretLeavesUsers(db: Store, cfg: Config, op: Op, now: int)
    requires op.MakeSecret?
    ensures TablesOf(MakeSecretEffect(db, cfg, op, now).0) == TablesOf(CheckPoolAccess(db, cfg, op.caller, op.pool, now).0)
  {
    hide CheckPoolAccess, FirstFresh;
  }

  lemma DeletersLeaveUsers(db: Store, cfg: Config, op: Op, now: int)
    requires op.DeletePool? || op.DeleteBucket? || op.DeleteSecret?
    ensures TablesOf(Step(db, cfg, op, now).0) == TablesOf(CheckPoolAccess(db, cfg, op.caller, op.pool, now).0)
  {
    hide CheckPoolAccess, GoodBucket, GoodSecret, DropDirectories, DropBuckets, DropSecrets;
  }

  lemma MakersLeaveUsers(db: Store, cfg: Config, op: Op, now: int)
    requires op.MakePool? || op.MakeBucket? || op.MakeSecret?
    ensures TablesOf(Step(db, cfg, op, now).0) == TablesAfter(db, cfg, op, now)
  {
    hide CheckAccess, CheckPoolAccess, LoadRow, MakePoolEffect, MakeBucketEffect, MakeSecretEffect, TablesOf;
    match op
    case MakePool(_, _, _, _, _, _, _, _) => MakePoolLeavesUsers(db, cfg, op, now);
    case MakeBucket(_, _, _, _, _, _) => MakeBucketLeavesUsers(db, cfg, op, now);
    case MakeSecret(_, _, _, _, _, _, _) => MakeSecretLeavesUsers(db, cfg, op, now);
  }

  lemma OthersOnUsers(db: Store, cfg: Config, op: Op, now: int)
    requires op.UserInfo? || op.ListPool? || op.LoadUserRow? || op.SendProbe? || op.KillPool? || op.MuxAccess?
    ensures TablesOf(Step(db, cfg, op, now).0) == TablesAfter(db, cfg, op, now)
  {
    hide CheckAccess, LoadRow, ProbeMux, AfterStart, DropDirectories, DropBuckets, DropSecrets;
    match op
    case MuxAccess(pool, start) => if pool in db.pools { AfterStartFrame(db, pool, start, now); }
    case SendProbe(pool, probe) => ProbeLeavesUsers(db, pool, probe, now);
    case _ =>
  }

  lemma AdminOnUsers(db: Store, cfg: Config, op: Op, now: int)
    requires op.StopUser? || op.StopPool? || op.KillBucket? || op.ExpireUser? || op.ExpirePool? || op.ExpireBucket?
             || op.ExpireSecret? || op.ShowPool? || op.ExpireToken?
    ensures TablesOf(Step(db, cfg, op, now).0) == TablesAfter(db, cfg, op, now)
  {
  }

  lemma StepOnUsers(db: Store, cfg: Config, op: Op, now: int)
    ensures TablesOf(Step(db, cfg, op, now).0) == TablesAfter(db, cfg, op, now)
  {
    if op.DeletePool? || op.DeleteBucket? || op.DeleteSecret? {
      DeletersLeaveUsers(db, cfg, op, now);
    } else if op.MakePool? || op.MakeBucket? || op.MakeSecret? {
      MakersLeaveUsers(db, cfg, op, now);
    } else if op.UserInfo? || op.ListPool? || op.LoadUserRow? || op.SendProbe? || op.KillPool? || op.MuxAccess? {
      OthersOnUsers(db, cfg, op, now);
    } else {
      AdminOnUsers(db, cfg, op, now);
    }
    hide Step;
  }

  // ---- names that requests can give ----

  /** Every registered pool, bucket and access key passes the naming rules, so that
      a request can name it. */
  ghost predicate Nameable(db: Store) {
    && (forall p | p in db.pools :: GoodPool(p))
    && (forall b | b in db.buckets :: GoodBucket(b))
    && (forall k | k in db.secrets :: GoodSecret(k))
  }

  /** No new keys in these tables. */
  ghost predicate Fewer(db: Store, r: Store) {
    && (forall p | p in r.pools :: p in db.pools)
    && (forall b | b in r.buckets :: b in db.buckets)
    && (forall k | k in r.secrets :: k in db.secrets)
  }

  lemma FewerNameable(db: Store, r: Store)
    requires Nameable(db) && Fewer(db, r)
    ensures Nameable(r)
  {
    hide GoodPool, GoodBucket, GoodSecret;
  }

  lemma ProbeMakesFewer(db: Store, pool: string, probe: Probe, now: int)
    ensures Fewer(db, ProbeMux(db, pool, probe, now).0)
  {
    hide AfterStart;
    if pool in db.pools && probe.Reached? {
      StartMakesFewer(db, pool, probe.start, now);
    }
  }

  lemma StartMakesFewer(db: Store, pool: string, start: Start, now: int)
    requires pool in db.pools
    ensures Fewer(db, AfterStart(db, pool, start, now))
  {
    hide StatesAfter;
  }

  lemma MakePoolNameable(db: Store, cfg: Config, op: Op, now: int)
    requires Nameable(db) && op.MakePool?
    ensures Nameable(MakePoolEffect(db, cfg, op, now).0)
  {
    hide CheckAccess, ProbeMux, CreatePool, Nameable;
    CheckAccessFrame(db, cfg, op.caller, "", false, now);
    var db1 := CheckAccess(db, cfg, op.caller, "", false, now).0;
    FewerNameable(db, db1);
    CreatePoolNameable(db1, op.caller.uid, op.path, op.gid, op.nameIds, op.keyIds, op.secretKey, now + cfg.poolTerm, now);
    var (db2, created, pool) := CreatePool(db1, op.caller.uid, op.path, op.gid, op.nameIds, op.keyIds,
                                           op.secretKey, now + cfg.poolTerm, now);
    ProbeMakesFewer(db2, pool, op.probe, now);
    FewerNameable(db2, ProbeMux(db2, pool, op.probe, now).0);
  }

  lemma CreatePoolNameable(db: Store, uid: string, path: string, gid: string, nameIds: NameIds, keyIds: KeyIds,
                           secretKey: string, expiration: int, now: int)
    requires Nameable(db)
    ensures Nameable(CreatePool(db, uid, path, gid, nameIds, keyIds, secretKey, expiration, now).0)
  {
    hide GoodPool, GoodBucket, GoodSecret;
    var name, key := FirstFresh(nameIds, db.names.Keys), FirstFresh(keyIds, db.secrets.Keys);
    if name.Some? && key.Some? {
      assert GoodPool(name.value) && GoodSecret(key.value);
    }
  }

  lemma MakeBucketNameable(db: Store, cfg: Config, op: Op, now: int)
    requires Nameable(db) && op.MakeBucket?
    ensures Nameable(MakeBucketEffect(db, cfg, op, now).0)
  {
    hide CheckPoolAccess, ProbeMux, GoodPool, GoodBucket, GoodSecret;
    CheckPoolAccessFrame(db, cfg, op.caller, op.pool, now);
    var db1 := CheckPoolAccess(db, cfg, op.caller, op.pool, now).0;
    if GoodBucket(op.bucket) {
      var b := Bucket(op.pool, op.bucket, op.bucketPolicy, now + cfg.bucketTerm, now);
      var db2 := db1.(buckets := db1.buckets[op.bucket := b]);
      assert Nameable(db2);
      ProbeMakesFewer(db2, op.pool, op.probe, now);
      FewerNameable(db2, ProbeMux(db2, op.pool, op.probe, now).0);
    }
  }

  lemma MakeSecretNameable(db: Store, cfg: Config, op: Op, now: int)
    requires Nameable(db) && op.MakeSecret?
    ensures Nameable(MakeSecretEffect(db, cfg, op, now).0)
  {
    hide CheckPoolAccess, GoodPool, GoodBucket, GoodSecret;
    CheckPoolAccessFrame(db, cfg, op.caller, op.pool, now);
    var db1 := CheckPoolAccess(db, cfg, op.caller, op.pool, now).0;
    FewerNameable(db, db1);
    var key := FirstFresh(op.keyIds, db1.secrets.Keys);
    if key.Some? {
      assert GoodSecret(key.value);
      MoreSecretsNameable(db1, key.value, Secret(op.pool, key.value, op.secretKey, op.policy, op.expiration, now));
    }
    hide Nameable;
  }

  lemma MoreSecretsNameable(db: Store, k: string, v: Secret)
    requires Nameable(db) && GoodSecret(k)
    ensures Nameable(db.(secrets := db.secrets[k := v]))
  {
    hide GoodPool, GoodBucket, GoodSecret;
  }

  lemma FewerThrough(db: Store, m: Store, r: Store)
    requires Fewer(db, m) && Fewer(m, r)
    ensures Fewer(db, r)
  {
  }

  lemma WithoutPoolsMakesFewer(db: Store, gone: set<string>)
    ensures Fewer(db, WithoutPools(db, gone))
  {
  }

  lemma WithoutUserMakesFewer(db: Store, uid: string)
    ensures Fewer(db, WithoutUser(db, uid))
  {
    hide WithoutPools;
    WithoutPoolsMakesFewer(db, PoolsOf(db, uid));
  }

  lemma {:induction false} LoadNamesMakesFewer(db: Store, command: string, names: seq<string>, now: int)
    ensures Fewer(db, LoadNames(db, command, names, now).0)
    decreases |names|
  {
    hide WithoutUser, AddUser, Fewer;
    if names == [] {
      SameIsFewer(db, db);
    } else if names[0] !in db.users {
      LoadNamesMakesFewer(db, command, names[1..], now);
    } else if command == "DELETE" {
      var db1 := WithoutUser(db, names[0]);
      WithoutUserMakesFewer(db, names[0]);
      LoadNamesMakesFewer(db1, command, names[1..], now);
      FewerThrough(db, db1, LoadNames(db1, command, names[1..], now).0);
    } else {
      var u := db.users[names[0]].(enabled := command == "ENABLE");
      var db1 := AddUser(db, u, now).0;
      AddUserMakesFewer(db, u, now);
      LoadNamesMakesFewer(db1, command, names[1..], now);
      FewerThrough(db, db1, LoadNames(db1, command, names[1..], now).0);
    }
  }

  lemma SameIsFewer(db: Store, r: Store)
    requires r.pools == db.pools && r.buckets == db.buckets && r.secrets == db.secrets
    ensures Fewer(db, r)
  {
  }

  lemma LoadRowMakesFewer(db: Store, row: seq<string>, now: int)
    ensures Fewer(db, LoadRow(db, row, now).0)
  {
    hide WithoutUser, LoadNames, GoodUser, Fewer, AddUser;
    SameIsFewer(db, db);
    if row != [] {
      LoadNamesMakesFewer(db, row[0], row[1..], now);
      if |row| >= 4 {
        var db1, u := WithoutUser(db, row[1]), UserOfRow(row, now);
        WithoutUserMakesFewer(db, row[1]);
        AddUserMakesFewer(db, u, now);
        AddUserMakesFewer(db1, u, now);
        FewerThrough(db, db1, AddUser(db1, u, now).0);
      }
    }
  }

  lemma AddUserMakesFewer(db: Store, u: User, now: int)
    ensures Fewer(db, AddUser(db, u, now).0)
  {
    hide Fewer, AddUser;
    AddUserFrame(db, u, now);
    SameIsFewer(db, AddUser(db, u, now).0);
  }

  lemma DeletersMakeFewer(db: Store, cfg: Config, op: Op, now: int)
    requires op.DeletePool? || op.DeleteBucket? || op.DeleteSecret?
    ensures Fewer(db, Step(db, cfg, op, now).0)
  {
    hide CheckPoolAccess, GoodBucket, GoodSecret, WithoutPools, Fewer;
    CheckPoolAccessFrame(db, cfg, op.caller, op.pool, now);
    var db1 := CheckPoolAccess(db, cfg, op.caller, op.pool, now).0;
    SameIsFewer(db, db1);
    match op
    case DeletePool(_, _, _) =>
      WithoutPoolsMakesFewer(db1, {op.pool});
      FewerThrough(db, db1, WithoutPools(db1, {op.pool}));
    case DeleteBucket(_, _, _, _) => RemovalsMakeFewer(db, db1.(buckets := db1.buckets - {op.bucket}));
    case DeleteSecret(_, _, _, _) => RemovalsMakeFewer(db, db1.(secrets := db1.secrets - {op.key}));
  }

  lemma RemovalsMakeFewer(db: Store, r: Store)
    requires r.pools.Keys <= db.pools.Keys && r.buckets.Keys <= db.buckets.Keys && r.secrets.Keys <= db.secrets.Keys
    ensures Fewer(db, r)
  {
    assert forall p | p in r.pools.Keys :: p in db.pools.Keys;
    assert forall b | b in r.buckets.Keys :: b in db.buckets.Keys;
    assert forall k | k in r.secrets.Keys :: k in db.secrets.Keys;
  }

  lemma AdminMakesFewer(db: Store, cfg: Config, op: Op, now: int)
    requires op.StopUser? || op.StopPool? || op.KillBucket? || op.ExpireUser?
             || op.ExpirePool? || op.ExpireBucket? || op.ExpireSecret? || op.ShowPool? || op.ExpireToken?
    ensures Fewer(db, Step(db, cfg, op, now).0)
  {
    hide Fewer, Step;
    if op.ShowPool? || op.ExpireToken? {
      DisplaysMakeFewer(db, cfg, op, now);
    } else if op.StopPool? || op.ExpirePool? || op.StopUser? || op.ExpireUser? {
      SwitchesMakeFewer(db, cfg, op, now);
    } else {
      MembersMakeFewer(db, cfg, op, now);
    }
  }

  lemma DisplaysMakeFewer(db: Store, cfg: Config, op: Op, now: int)
    requires op.ShowPool? || op.ExpireToken?
    ensures Fewer(db, Step(db, cfg, op, now).0)
  {
    hide Fewer;
    SameIsFewer(db, Step(db, cfg, op, now).0);
  }

  lemma SwitchesMakeFewer(db: Store, cfg: Config, op: Op, now: int)
    requires op.StopPool? || op.ExpirePool? || op.StopUser? || op.ExpireUser?
    ensures Fewer(db, Step(db, cfg, op, now).0)
  {
    hide Fewer;
    SameIsFewer(db, db);
    match op
    case StopPool(pool, disabling) =>
      if pool in db.pools { PutPoolMakesFewer(db, pool, db.pools[pool].(enabled := !disabling)); }
    case ExpirePool(pool, date) =>
      if pool in db.pools { PutPoolMakesFewer(db, pool, db.pools[pool].(expiration := date)); }
    case StopUser(uid, disabling) =>
      if uid in db.users { SameIsFewer(db, db.(users := db.users[uid := db.users[uid].(enabled := !disabling)])); }
    case ExpireUser(uid, date) =>
      if uid in db.users { SameIsFewer(db, db.(users := db.users[uid := db.users[uid].(expiration := date)])); }
  }

  lemma MembersMakeFewer(db: Store, cfg: Config, op: Op, now: int)
    requires op.KillBucket? || op.ExpireBucket? || op.ExpireSecret?
    ensures Fewer(db, Step(db, cfg, op, now).0)
  {
    hide Fewer;
    SameIsFewer(db, db);
    match op
    case KillBucket(bucket) => RemovalsMakeFewer(db, db.(buckets := db.buckets - {bucket}));
    case ExpireBucket(bucket, date) =>
      if bucket in db.buckets { PutBucketMakesFewer(db, bucket, db.buckets[bucket].(expiration := date)); }
    case ExpireSecret(key, date) =>
      if key in db.secrets { PutSecretMakesFewer(db, key, db.secrets[key].(expiration := date)); }
  }

  lemma PutPoolMakesFewer(db: Store, pool: string, v: Pool)
    requires pool in db.pools
    ensures Fewer(db, db.(pools := db.pools[pool := v]))
  {
  }

  lemma PutBucketMakesFewer(db: Store, bucket: string, v: Bucket)
    requires bucket in db.buckets
    ensures Fewer(db, db.(buckets := db.buckets[bucket := v]))
  {
  }

  lemma PutSecretMakesFewer(db: Store, key: string, v: Secret)
    requires key in db.secrets
    ensures Fewer(db, db.(secrets := db.secrets[key := v]))
  {
  }

  lemma OthersMakeFewer(db: Store, cfg: Config, op: Op, now: int)
    requires !op.MakePool? && !op.MakeBucket? && !op.MakeSecret?
    ensures Fewer(db, Step(db, cfg, op, now).0)
  {
    hide Fewer, Step;
    if op.DeletePool? || op.DeleteBucket? || op.DeleteSecret? {
      DeletersMakeFewer(db, cfg, op, now);
    } else if op.UserInfo? || op.ListPool? || op.LoadUserRow? || op.SendProbe? || op.KillPool? || op.MuxAccess? {
      RestMakesFewer(db, cfg, op, now);
    } else {
      AdminMakesFewer(db, cfg, op, now);
    }
  }

  lemma RestMakesFewer(db: Store, cfg: Config, op: Op, now: int)
    requires op.UserInfo? || op.ListPool? || op.LoadUserRow? || op.SendProbe? || op.KillPool? || op.MuxAccess?
    ensures Fewer(db, Step(db, cfg, op, now).0)
  {
    hide MakePoolEffect, MakeBucketEffect, MakeSecretEffect, DeletePoolEffect, DeleteBucketEffect, DeleteSecretEffect;
    hide CheckAccess, LoadRow, ProbeMux, AfterStart, WithoutPools, Fewer;
    match op
    case SendProbe(pool, probe) => ProbeMakesFewer(db, pool, probe, now);
    case ListPool(c, _, pool) =>
      CheckAccessFrame(db, cfg, c, pool, false, now);
      SameIsFewer(db, CheckAccess(db, cfg, c, pool, false, now).0);
    case UserInfo(c, token) =>
      CheckAccessFrame(db, cfg, c, "", true, now);
      var db1 := CheckAccess(db, cfg, c, "", true, now).0;
      SameIsFewer(db, db1);
      SameIsFewer(db, db1.(tokens := db1.tokens[c.uid := token]));
    case LoadUserRow(row) => LoadRowMakesFewer(db, row, now);
    case KillPool(pool) =>
      SameIsFewer(db, db);
      WithoutPoolsMakesFewer(db, {pool});
    case MuxAccess(pool, start) =>
      SameIsFewer(db, db);
      if pool in db.pools { StartMakesFewer(db, pool, start, now); }
  }

  lemma {:induction false} RunNameable(db: Store, cfg: Config, ops: Ops)
    requires Nameable(db)
    ensures Nameable(Run(db, cfg, ops))
    decreases |ops|
  {
    hide Nameable, Step, MakePoolEffect, MakeBucketEffect, MakeSecretEffect;
    if ops != [] {
      var (op, now) := ops[0];
      StepNameable(db, cfg, op, now);
      RunNameable(Step(db, cfg, op, now).0, cfg, ops[1..]);
    }
  }

  lemma StepNameable(db: Store, cfg: Config, op: Op, now: int)
    requires Nameable(db)
    ensures Nameable(Step(db, cfg, op, now).0)
  {
    hide Nameable, MakePoolEffect, MakeBucketEffect, MakeSecretEffect;
    match op
    case MakePool(_, _, _, _, _, _, _, _) => MakePoolNameable(db, cfg, op, now);
    case MakeBucket(_, _, _, _, _, _) => MakeBucketNameable(db, cfg, op, now);
    case MakeSecret(_, _, _, _, _, _, _) => MakeSecretNameable(db, cfg, op, now);
    case _ =>
      OthersMakeFewer(db, cfg, op, now);
      hide Step;
      FewerNameable(db, Step(db, cfg, op, now).0);
  }

  // ---- runs in which a promise fails ----

  const CFG := Config(true, false, 10, 10, 10)
  const SOMEONE := Caller("u", true, true, true, Some("a"), "b")
  const POOL := "aaaaaaaaaaaaaaaa"
  const OTHER := "bbbbbbbbbbbbbbbb"
  const KEY := "aaaaaaaaaaaaaaaaaaaa"

  function SameIds(n: nat, id: string): seq<string> { seq(n, i => id) }

  function Names(): NameIds { SameIds(ID_LIMIT, POOL) }
  function Others(): NameIds { SameIds(ID_LIMIT, OTHER) }
  function Keys(): KeyIds { SameIds(ID_LIMIT, KEY) }

  /** A first access enrols a user and gives it a token. */
  const Enrolled := EmptyStore.(users := map["u" := User("u", "", [], true, true, 10, 0)], tokens := map["u" := ("a", "b")])

  lemma EnrolledIs()
    ensures Step(EmptyStore, CFG, UserInfo(SOMEONE, ("a", "b")), 0) == (Enrolled, Okay)
  {
  }

  /** The token of a user outlives it. */
  lemma TokenOutlivesUser()
    ensures exists cfg: Config, ops: Ops :: !TokensOwned(Run(EmptyStore, cfg, ops))
  {
    EnrolledIs();
    var op1, op2 := UserInfo(SOMEONE, ("a", "b")), LoadUserRow(["DELETE", "u"]);
    var r := WithoutUser(Enrolled, "u");
    assert Step(Enrolled, CFG, op2, 0).0 == r by { DeleteRow(); }
    RunOfTwo(EmptyStore, CFG, (op1, 0), (op2, 0));
    TokensOwnedAfterRemoval(Enrolled, "u");
    assert !TokensOwned(Run(EmptyStore, CFG, [(op1, 0), (op2, 0)]));
  }

  lemma DeleteRow()
    ensures LoadRow(Enrolled, ["DELETE", "u"], 0) == (WithoutUser(Enrolled, "u"), Okay)
  {
    var row := ["DELETE", "u"];
    assert row[1..] == ["u"] && ["u"][1..] == [];
    assert LoadNames(WithoutUser(Enrolled, "u"), "DELETE", [], 0) == (WithoutUser(Enrolled, "u"), Okay);
    hide WithoutUser;
    assert LoadNames(Enrolled, "DELETE", ["u"], 0) == (WithoutUser(Enrolled, "u"), Okay);
  }

  lemma RunOfTwo(db: Store, cfg: Config, a: (Op, int), b: (Op, int))
    ensures var db1 := Step(db, cfg, a.0, a.1).0; Run(db, cfg, [a, b]) == Step(db1, cfg, b.0, b.1).0
  {
    hide Step;
    assert [a, b][1..] == [b] && [b][1..] == [];
    var db1 := Step(db, cfg, a.0, a.1).0;
    var db2 := Step(db1, cfg, b.0, b.1).0;
    assert Run(db2, cfg, []) == db2;
    assert Run(db1, cfg, [b]) == db2;
  }

  lemma RunOfThree(db: Store, cfg: Config, a: (Op, int), b: (Op, int), d: (Op, int))
    ensures var db1 := Step(db, cfg, a.0, a.1).0; var db2 := Step(db1, cfg, b.0, b.1).0;
            Run(db, cfg, [a, b, d]) == Step(db2, cfg, d.0, d.1).0
  {
    hide Step;
    assert [a, b, d][1..] == [b, d];
    RunOfTwo(Step(db, cfg, a.0, a.1).0, cfg, b, d);
  }

  /** The first pool of that user. */
  lemma FirstPool() returns (r: Store)
    ensures Step(Enrolled, CFG, MakePool(SOMEONE, true, "/d", "g", Names(), Keys(), "s", Unreached), 0) == (r, Okay)
    ensures r.users == Enrolled.users && r.tokens == Enrolled.tokens && r.pools.Keys == {POOL} && r.names.Keys == {POOL} && r.directories.Keys == {"/d"}
    ensures r.secrets.Keys == {KEY} && r.secrets[KEY].pool == POOL && r.pools[POOL].owner == "u" && r.pools[POOL].probeKey == KEY
  {
    var op := MakePool(SOMEONE, true, "/d", "g", Names(), Keys(), "s", Unreached);
    assert CheckAccess(Enrolled, CFG, SOMEONE, "", false, 0) == (Enrolled, Okay);
    FreshAtOnce(POOL, {});
    FreshAtOnce(KEY, {});
    r := RegisteredPool(Enrolled, "u", POOL, "/d", "g", KEY, "s", 10, 0);
    assert CreatePool(Enrolled, "u", "/d", "g", Names(), Keys(), "s", 10, 0) == (r, Okay, POOL);
    assert r.pools.Keys == {POOL} && r.names.Keys == {POOL} && r.directories.Keys == {"/d"} && r.secrets.Keys == {KEY};
    assert r.pools[POOL].owner == "u" && r.pools[POOL].probeKey == KEY && r.secrets[KEY].pool == POOL;
    assert ProbeMux(r, POOL, Unreached, 0).0 == r;
    hide CreatePool, CheckAccess, RegisteredPool;
    assert "/d"[0] == '/';
    assert MakePoolEffect(Enrolled, CFG, op, 0) == (r, Okay);
  }

  lemma FreshAtOnce(id: string, used: set<string>)
    ensures FirstFresh(SameIds(ID_LIMIT, id), used) == if id in used then None else Some(id)
  {
    var ids := SameIds(ID_LIMIT, id);
    assert forall i | 0 <= i < |ids| :: ids[i] == id;
    var r := FirstFresh(ids, used);
    if r.None? {
      assert ids[0] in ids;
    }
  }

  lemma OwnerIsAdmitted(r: Store)
    requires r.users == Enrolled.users && r.tokens == Enrolled.tokens && POOL in r.pools && r.pools[POOL].owner == "u"
    ensures CheckPoolAccess(r, CFG, SOMEONE, POOL, 0) == (r, Okay)
    ensures CheckAccess(r, CFG, SOMEONE, "", false, 0) == (r, Okay)
  {
    assert GoodPool(POOL) && POOL != "";
  }

  /** A user can delete the probe key of its own pool, after which a probe panics. */
  lemma ProbeKeyCanGo()
    ensures exists cfg: Config, ops: Ops :: !ProbeKeysPresent(Run(EmptyStore, cfg, ops))
  {
    EnrolledIs();
    var op1 := UserInfo(SOMEONE, ("a", "b"));
    var op2 := MakePool(SOMEONE, true, "/d", "g", Names(), Keys(), "s", Unreached);
    var op3 := DeleteSecret(SOMEONE, true, POOL, KEY);
    var r := FirstPool();
    OwnerIsAdmitted(r);
    assert GoodSecret(KEY);
    hide CheckPoolAccess, Enrolled;
    assert Step(r, CFG, op3, 0).0 == r.(secrets := r.secrets - {KEY});
    assert !ProbeKeysPresent(Step(r, CFG, op3, 0).0);
    RunOfThree(EmptyStore, CFG, (op1, 0), (op2, 0), (op3, 0));
    assert !ProbeKeysPresent(Run(EmptyStore, CFG, [(op1, 0), (op2, 0), (op3, 0)]));
  }

  lemma SecondPool(r: Store)
    requires CheckAccess(r, CFG, SOMEONE, "", false, 0) == (r, Okay)
    requires r.pools.Keys == {POOL} && r.names.Keys == {POOL} && r.directories.Keys == {"/d"} && r.secrets.Keys == {KEY}
    ensures OTHER in Orphans(Step(r, CFG, MakePool(SOMEONE, true, "/e", "g", Others(), Keys(), "s", Unreached), 0).0)
  {
    hide CheckAccess;
    FreshAtOnce(OTHER, r.names.Keys);
    FreshAtOnce(KEY, r.secrets.Keys);
    assert "/e"[0] == '/' && "/e"[1] != "/d"[1] && OTHER[0] != POOL[0];
    assert "/e" !in r.directories.Keys && OTHER !in r.names.Keys && OTHER !in r.pools.Keys;
    assert CreatePool(r, "u", "/e", "g", Others(), Keys(), "s", 10, 0).0 == NamedPool(r, "u", OTHER, "/e", 0);
  }

  /** A make-pool whose thirty access keys are all in use leaves a name and a
      directory without a pool. */
  lemma PoolCanBeOrphaned()
    ensures exists cfg: Config, ops: Ops :: !Integrity(Run(EmptyStore, cfg, ops))
  {
    EnrolledIs();
    var op1 := UserInfo(SOMEONE, ("a", "b"));
    var op2 := MakePool(SOMEONE, true, "/d", "g", Names(), Keys(), "s", Unreached);
    var op3 := MakePool(SOMEONE, true, "/e", "g", Others(), Keys(), "s", Unreached);
    var r := FirstPool();
    OwnerIsAdmitted(r);
    hide CheckAccess, Enrolled, Step, Run, Integrity;
    SecondPool(r);
    OrphanBreaksIntegrity(Step(r, CFG, op3, 0).0, OTHER);
    RunOfThree(EmptyStore, CFG, (op1, 0), (op2, 0), (op3, 0));
    assert !Integrity(Run(EmptyStore, CFG, [(op1, 0), (op2, 0), (op3, 0)]));
  }
}
