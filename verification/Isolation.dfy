/**
 What a Registrar request can do, and to whom (v2/lens3/registrar.go): it changes
 nothing that belongs to a pool of another user, and to a pool of its own user
 exactly what it says.
 */
module Isolation {
  import opened Records
  import opened Registry
  import opened Handlers
  import opened Naming
  import opened Runs
  import opened Outcomes
  import T = Tables

  function DirectoriesOf(m: map<string, Directory>, p: string): map<string, Directory> {
    map k | k in m && m[k].pool == p :: m[k]
  }

  function BucketsOf(m: map<string, Bucket>, p: string): map<string, Bucket> {
    map k | k in m && m[k].pool == p :: m[k]
  }

  function SecretsOf(m: map<string, Secret>, p: string): map<string, Secret> {
    map k | k in m && m[k].pool == p :: m[k]
  }

  /** All that belongs to a pool. */
  datatype Slice = Slice(
    pool: Option<Pool>, name: Option<PoolName>, state: Option<ApproxState>, time: Option<int>,
    directories: map<string, Directory>, buckets: map<string, Bucket>, secrets: map<string, Secret>)

  function SliceOf(db: Store, p: string): Slice {
    Slice(Get(db.pools, p), Get(db.names, p), Get(db.states, p), Get(db.poolTimes, p),
          DirectoriesOf(db.directories, p), BucketsOf(db.buckets, p), SecretsOf(db.secrets, p))
  }

  /** Requests to Registrar, as opposed to commands of the administrator. */
  predicate IsRequest(op: Op) {
    || op.UserInfo? || op.ListPool? || op.MakePool? || op.DeletePool? || op.MakeBucket? || op.DeleteBucket?
    || op.MakeSecret? || op.DeleteSecret?
  }

  // ---- changes to one table ----

  lemma PutDirectory(m: map<string, Directory>, d: string, v: Directory, p: string)
    requires d !in m && v.pool != p
    ensures DirectoriesOf(m[d := v], p) == DirectoriesOf(m, p)
  {
  }

  lemma PutBucket(m: map<string, Bucket>, b: string, v: Bucket, p: string)
    requires b !in m && v.pool != p
    ensures BucketsOf(m[b := v], p) == BucketsOf(m, p)
  {
  }

  lemma DropBucket(m: map<string, Bucket>, b: string, p: string)
    requires b in m ==> m[b].pool != p
    ensures BucketsOf(m - {b}, p) == BucketsOf(m, p)
  {
  }

  lemma PutSecret(m: map<string, Secret>, k: string, v: Secret, p: string)
    requires k !in m && v.pool != p
    ensures SecretsOf(m[k := v], p) == SecretsOf(m, p)
  {
  }

  lemma DropSecret(m: map<string, Secret>, k: string, p: string)
    requires k in m ==> m[k].pool != p
    ensures SecretsOf(m - {k}, p) == SecretsOf(m, p)
  {
  }

  /** A start of the backend of another pool. */
  lemma StartLeavesSlice(db: Store, pool: string, start: Start, now: int, p: string)
    requires pool in db.pools && pool != p
    ensures SliceOf(AfterStart(db, pool, start, now), p) == SliceOf(db, p)
  {
    hide DirectoriesOf, BucketsOf, SecretsOf;
    assert Get(StatesAfter(db.states, pool, start, now), p) == Get(db.states, p);
    hide StatesAfter;
  }

  lemma ProbeLeavesSlice(db: Store, pool: string, probe: Probe, now: int, p: string)
    requires pool != p
    ensures SliceOf(ProbeMux(db, pool, probe, now).0, p) == SliceOf(db, p)
  {
    hide AfterStart, SliceOf;
    if pool in db.pools && probe.Reached? {
      StartLeavesSlice(db, pool, probe.start, now, p);
    }
  }

  lemma RemovalLeavesSlice(db: Store, gone: set<string>, p: string)
    requires p !in gone
    ensures SliceOf(WithoutPools(db, gone), p) == SliceOf(db, p)
  {
    assert DirectoriesOf(DropDirectories(db.directories, gone), p) == DirectoriesOf(db.directories, p);
    assert BucketsOf(DropBuckets(db.buckets, gone), p) == BucketsOf(db.buckets, p);
    assert SecretsOf(DropSecrets(db.secrets, gone), p) == SecretsOf(db.secrets, p);
  }

  lemma UsersLeaveSlice(db: Store, r: Store, p: string)
    requires r == db.(users := r.users, tokens := r.tokens)
    ensures SliceOf(r, p) == SliceOf(db, p)
  {
  }

  // ---- make-pool ----

  lemma RegisteringLeavesSlice(db: Store, uid: string, pool: string, path: string, gid: string,
                               key: string, secretKey: string, expiration: int, now: int, p: string)
    requires pool != p && path !in db.directories && key !in db.secrets
    ensures SliceOf(RegisteredPool(db, uid, pool, path, gid, key, secretKey, expiration, now), p) == SliceOf(db, p)
  {
    hide DirectoriesOf, BucketsOf, SecretsOf, SliceOf, NamedPool;
    NamingLeavesSlice(db, uid, pool, path, now, p);
    NamedPoolSecrets(db, uid, pool, path, now);
    PutSecret(db.secrets, key, Secret(pool, key, secretKey, KeyInternal, expiration, now), p);
    PoolEntryLeavesSlice(NamedPool(db, uid, pool, path, now),
                         Pool(pool, path, uid, gid, key, expiration, true, false, "", now),
                         key, Secret(pool, key, secretKey, KeyInternal, expiration, now), p);
  }

  lemma NamedPoolSecrets(db: Store, uid: string, pool: string, path: string, now: int)
    ensures NamedPool(db, uid, pool, path, now).secrets == db.secrets
  {
  }

  lemma NamingLeavesSlice(db: Store, uid: string, pool: string, path: string, now: int, p: string)
    requires pool != p && path !in db.directories
    ensures SliceOf(NamedPool(db, uid, pool, path, now), p) == SliceOf(db, p)
  {
    hide DirectoriesOf, BucketsOf, SecretsOf;
    PutDirectory(db.directories, path, Directory(pool, path, now), p);
  }

  lemma PoolEntryLeavesSlice(db: Store, v: Pool, key: string, k: Secret, p: string)
    requires v.pool != p && SecretsOf(db.secrets[key := k], p) == SecretsOf(db.secrets, p)
    ensures SliceOf(db.(secrets := db.secrets[key := k], pools := db.pools[v.pool := v]), p) == SliceOf(db, p)
  {
    hide DirectoriesOf, BucketsOf, SecretsOf;
  }

  lemma CreatePoolLeavesSlice(db: Store, uid: string, path: string, gid: string, nameIds: NameIds, keyIds: KeyIds,
                              secretKey: string, expiration: int, now: int, p: string)
    requires p in db.names
    ensures var (r, s, pool) := CreatePool(db, uid, path, gid, nameIds, keyIds, secretKey, expiration, now);
            SliceOf(r, p) == SliceOf(db, p) && (s.Okay? ==> pool != p)
  {
    hide SliceOf, NamedPool, RegisteredPool;
    var name := FirstFresh(nameIds, db.names.Keys);
    var key := FirstFresh(keyIds, db.secrets.Keys);
    if name.Some? && path !in db.directories {
      NamingLeavesSlice(db, uid, name.value, path, now, p);
      if key.Some? {
        RegisteringLeavesSlice(db, uid, name.value, path, gid, key.value, secretKey, expiration, now, p);
      }
    }
  }

  lemma MakePoolLeavesSlice(db: Store, cfg: Config, op: Op, now: int, p: string)
    requires op.MakePool? && p in db.names
    ensures SliceOf(MakePoolEffect(db, cfg, op, now).0, p) == SliceOf(db, p)
  {
    hide CheckAccess, CreatePool, ProbeMux, SliceOf;
    CheckAccessFrame(db, cfg, op.caller, "", false, now);
    var db1 := CheckAccess(db, cfg, op.caller, "", false, now).0;
    UsersLeaveSlice(db, db1, p);
    MakePoolOnSlice(db1, cfg, op, now, p);
  }

  /** The registration and the probe of make-pool. */
  lemma MakePoolOnSlice(db: Store, cfg: Config, op: Op, now: int, p: string)
    requires op.MakePool? && p in db.names
    ensures var (db2, created, pool) := CreatePool(db, op.caller.uid, op.path, op.gid, op.nameIds, op.keyIds,
                                                   op.secretKey, now + cfg.poolTerm, now);
            && SliceOf(db2, p) == SliceOf(db, p)
            && (created.Okay? ==> SliceOf(ProbeMux(db2, pool, op.probe, now).0, p) == SliceOf(db, p))
  {
    hide CreatePool, ProbeMux, SliceOf;
    CreatePoolLeavesSlice(db, op.caller.uid, op.path, op.gid, op.nameIds, op.keyIds,
                          op.secretKey, now + cfg.poolTerm, now, p);
    var (db2, created, pool) := CreatePool(db, op.caller.uid, op.path, op.gid, op.nameIds, op.keyIds,
                                           op.secretKey, now + cfg.poolTerm, now);
    if created.Okay? {
      ProbeLeavesSlice(db2, pool, op.probe, now, p);
    }
  }

  // ---- requests on a named pool ----

  lemma MakeBucketLeavesSlice(db: Store, cfg: Config, op: Op, now: int, p: string)
    requires UsersKeyed(db.users) && op.MakeBucket? && p in db.pools && db.pools[p].owner != op.caller.uid
    ensures SliceOf(MakeBucketEffect(db, cfg, op, now).0, p) == SliceOf(db, p)
  {
    hide UsersKeyed, CheckPoolAccess, CreateBucket, GoodBucket, SliceOf;
    CheckPoolAccessFrame(db, cfg, op.caller, op.pool, now);
    var (db1, access) := CheckPoolAccess(db, cfg, op.caller, op.pool, now);
    UsersLeaveSlice(db, db1, p);
    if access.Okay? {
      var b := Bucket(op.pool, op.bucket, op.bucketPolicy, now + cfg.bucketTerm, now);
      CreateBucketLeavesSlice(db1, b, op.probe, now, p);
    }
  }

  lemma CreateBucketLeavesSlice(db: Store, b: Bucket, probe: Probe, now: int, p: string)
    requires b.pool != p
    ensures SliceOf(CreateBucket(db, b, probe, now).0, p) == SliceOf(db, p)
  {
    if b.bucket !in db.buckets {
      var db1 := db.(buckets := db.buckets[b.bucket := b]);
      var db2 := ProbeMux(db1, b.pool, probe, now).0;
      PutBucket(db.buckets, b.bucket, b, p);
      ProbeLeavesSlice(db1, b.pool, probe, now, p);
      ProbeMuxOutcome(db1, b.pool, probe, now);
      DropBucket(db2.buckets, b.bucket, p);
      hide ProbeMux, DirectoriesOf, BucketsOf, SecretsOf;
    }
  }

  lemma SecretsLeaveSlice(db: Store, cfg: Config, op: Op, now: int, p: string)
    requires UsersKeyed(db.users) && (op.MakeSecret? || op.DeleteSecret?) && p in db.pools && db.pools[p].owner != op.caller.uid
    ensures op.MakeSecret? ==> SliceOf(MakeSecretEffect(db, cfg, op, now).0, p) == SliceOf(db, p)
    ensures op.DeleteSecret? ==> SliceOf(DeleteSecretEffect(db, cfg, op, now).0, p) == SliceOf(db, p)
  {
    hide UsersKeyed, CheckPoolAccess, GoodSecret, DirectoriesOf, BucketsOf, SecretsOf;
    CheckPoolAccessFrame(db, cfg, op.caller, op.pool, now);
    var (db1, access) := CheckPoolAccess(db, cfg, op.caller, op.pool, now);
    UsersLeaveSlice(db, db1, p);
    if access.Okay? && op.MakeSecret? {
      var key := FirstFresh(op.keyIds, db1.secrets.Keys);
      if key.Some? {
        PutSecret(db1.secrets, key.value, Secret(op.pool, key.value, op.secretKey, op.policy, op.expiration, now), p);
      }
    } else if access.Okay? && op.key in db1.secrets && db1.secrets[op.key].pool == op.pool {
      DropSecret(db1.secrets, op.key, p);
    }
  }

  lemma DeletesLeaveSlice(db: Store, cfg: Config, op: Op, now: int, p: string)
    requires UsersKeyed(db.users) && (op.DeletePool? || op.DeleteBucket?) && p in db.pools && db.pools[p].owner != op.caller.uid
    ensures op.DeletePool? ==> SliceOf(DeletePoolEffect(db, cfg, op, now).0, p) == SliceOf(db, p)
    ensures op.DeleteBucket? ==> SliceOf(DeleteBucketEffect(db, cfg, op, now).0, p) == SliceOf(db, p)
  {
    hide UsersKeyed, CheckPoolAccess, GoodBucket, WithoutPools, DirectoriesOf, BucketsOf, SecretsOf;
    CheckPoolAccessFrame(db, cfg, op.caller, op.pool, now);
    var (db1, access) := CheckPoolAccess(db, cfg, op.caller, op.pool, now);
    UsersLeaveSlice(db, db1, p);
    if access.Okay? && op.DeletePool? {
      RemovalLeavesSlice(db1, {op.pool}, p);
    } else if access.Okay? && op.bucket in db1.buckets && db1.buckets[op.bucket].pool == op.pool {
      DropBucket(db1.buckets, op.bucket, p);
    }
  }

  /** A request, whatever is in it and however it ends, leaves everything that
      belongs to a pool of another user as it was. */
  lemma RequestIsIsolated(db: Store, cfg: Config, op: Op, now: int, p: string)
    requires Sound(db) && IsRequest(op) && p in db.pools && db.pools[p].owner != op.caller.uid
    ensures SliceOf(Step(db, cfg, op, now).0, p) == SliceOf(db, p)
  {
    hide Sound, UsersKeyed, SliceOf;
    SoundKeys(db, p);
    hide MakePoolEffect, MakeBucketEffect, MakeSecretEffect, DeletePoolEffect, DeleteBucketEffect, DeleteSecretEffect;
    match op
    case UserInfo(_, _) => ReadersLeaveSlice(db, cfg, op, now, p);
    case ListPool(_, _, _) => ReadersLeaveSlice(db, cfg, op, now, p);
    case MakePool(_, _, _, _, _, _, _, _) => MakePoolLeavesSlice(db, cfg, op, now, p);
    case MakeBucket(_, _, _, _, _, _) => MakeBucketLeavesSlice(db, cfg, op, now, p);
    case MakeSecret(_, _, _, _, _, _, _) => SecretsLeaveSlice(db, cfg, op, now, p);
    case DeleteSecret(_, _, _, _) => SecretsLeaveSlice(db, cfg, op, now, p);
    case DeletePool(_, _, _) => DeletesLeaveSlice(db, cfg, op, now, p);
    case DeleteBucket(_, _, _, _) => DeletesLeaveSlice(db, cfg, op, now, p);
  }

  lemma ReadersLeaveSlice(db: Store, cfg: Config, op: Op, now: int, p: string)
    requires op.UserInfo? || op.ListPool?
    ensures SliceOf(Step(db, cfg, op, now).0, p) == SliceOf(db, p)
  {
    hide SliceOf, CheckAccess;
    if op.UserInfo? {
      CheckAccessFrame(db, cfg, op.caller, "", true, now);
    } else {
      CheckAccessFrame(db, cfg, op.caller, op.pool, false, now);
    }
    UsersLeaveSlice(db, Step(db, cfg, op, now).0, p);
  }

  lemma SoundKeys(db: Store, p: string)
    requires Sound(db)
    ensures UsersKeyed(db.users)
    ensures p in db.pools ==> p in db.names
  {
    hide PoolsWell, DirectoriesMatch, BucketsWell, SecretsWell, StatesWell;
  }

  /** Hence from every sound registry, and so from every reachable one, no run of
      requests by others touches a user's pool, whether some of them panic or not. */
  lemma {:induction false} RunIsIsolated(db: Store, cfg: Config, ops: Ops, p: string)
    requires Sound(db) && p in db.pools
    requires forall i | 0 <= i < |ops| :: IsRequest(ops[i].0) && ops[i].0.caller.uid != db.pools[p].owner
    ensures SliceOf(Run(db, cfg, ops), p) == SliceOf(db, p)
    decreases |ops|
  {
    hide Sound, Step, IsRequest;
    if ops != [] {
      var db1 := Step(db, cfg, ops[0].0, ops[0].1).0;
      RequestIsIsolated(db, cfg, ops[0].0, ops[0].1, p);
      StepSound(db, cfg, ops[0].0, ops[0].1);
      assert Get(db1.pools, p) == Get(db.pools, p);
      hide SliceOf;
      RunIsIsolated(db1, cfg, ops[1..], p);
    }
  }

  // ---- what the requests do ----

  /** The named entry is there and belongs to the named pool. */
  predicate EntryNamed(db: Store, op: Op)
    requires op.DeletePool? || op.DeleteBucket? || op.DeleteSecret?
  {
    && (op.DeleteBucket? ==> op.bucket in db.buckets && db.buckets[op.bucket].pool == op.pool)
    && (op.DeleteSecret? ==> op.key in db.secrets && db.secrets[op.key].pool == op.pool)
  }

  /** The registry after a delete, whose requester's record is in `users`. */
  function Deleted(db: Store, op: Op, users: map<string, User>, success: bool): Store
    requires op.DeletePool? || op.DeleteBucket? || op.DeleteSecret?
  {
    if !success then db.(users := users)
    else if op.DeletePool? then WithoutPools(db.(users := users), {op.pool})
    else if op.DeleteBucket? then db.(users := users, buckets := db.buckets - {op.bucket})
    else db.(users := users, secrets := db.secrets - {op.key})
  }

  /** A successful delete removes the one named entry of a pool of the requester, with
      everything in it when it is a pool; any other end changes nothing but the
      requester's record. */
  lemma DeleteOutcome(db: Store, cfg: Config, op: Op, now: int)
    requires Sound(db) && (op.DeletePool? || op.DeleteBucket? || op.DeleteSecret?)
    ensures var (r, s) := Step(db, cfg, op, now);
            && (s.Okay? || s.Rejected? || (s == Raised(500) && op.caller.uid !in db.tokens))
            && (s.Okay? ==> op.pool != "" && LetIn(db, cfg, op.caller, op.pool, false, now) && op.argsOk && EntryNamed(db, op))
            && (op.pool != "" ==> r.users == RequesterAfter(db, cfg, op.caller, false, now))
            && r == Deleted(db, op, r.users, s.Okay?)
  {
    var (db1, access) := CheckPoolAccess(db, cfg, op.caller, op.pool, now);
    PoolAccess(db, cfg, op.caller, op.pool, now);
    CheckPoolAccessFrame(db, cfg, op.caller, op.pool, now);
    DeleteIs(db, cfg, op, now, db1, access);
    hide *;
  }

  lemma DeleteIs(db: Store, cfg: Config, op: Op, now: int, db1: Store, access: Status)
    requires op.DeletePool? || op.DeleteBucket? || op.DeleteSecret?
    requires CheckPoolAccess(db, cfg, op.caller, op.pool, now) == (db1, access) && db1 == db.(users := db1.users)
    ensures var (r, s) := Step(db, cfg, op, now);
            && r.users == db1.users && (s == access || s.Okay? || s.Rejected?)
            && (s.Okay? ==> access.Okay? && op.argsOk && EntryNamed(db, op))
            && r == Deleted(db, op, db1.users, s.Okay?)
  {
    hide CheckPoolAccess, GoodBucket, GoodSecret, WithoutPools;
    WithoutPoolsKeepsUsers(db1, {op.pool});
  }

  lemma WithoutPoolsKeepsUsers(db: Store, ps: set<string>)
    ensures WithoutPools(db, ps).users == db.users
  {
  }

  /** In a reachable registry every entry can be named: a delete succeeds if and only
      if the requester is let in as the owner and names an entry of the pool.  To an
      owner, an entry of another pool is forbidden and one that is not there not found. */
  lemma OwnerCanDelete(db: Store, cfg: Config, op: Op, now: int)
    requires Sound(db) && Nameable(db) && (op.DeletePool? || op.DeleteBucket? || op.DeleteSecret?)
    ensures var s := Step(db, cfg, op, now).1;
            var owner := op.pool != "" && LetIn(db, cfg, op.caller, op.pool, false, now);
            && (s.Okay? <==> owner && op.argsOk && EntryNamed(db, op))
            && (owner && op.DeleteBucket? ==>
                  && (s == Rejected(403) <==> op.bucket in db.buckets && db.buckets[op.bucket].pool != op.pool)
                  && (s == Rejected(404) <==> GoodBucket(op.bucket) && op.bucket !in db.buckets))
            && (owner && op.DeleteSecret? ==>
                  && (s == Rejected(403) <==> op.key in db.secrets && db.secrets[op.key].pool != op.pool)
                  && (s == Rejected(404) <==> GoodSecret(op.key) && op.key !in db.secrets))
  {
    hide Sound, CheckPoolAccess, LetIn, GoodPool, GoodBucket, GoodSecret, WithoutPools;
    PoolAccess(db, cfg, op.caller, op.pool, now);
    CheckPoolAccessFrame(db, cfg, op.caller, op.pool, now);
  }

  // ---- make-pool and its undoing ----

  /** A start of a pool's own backend leaves no trace once the pool is removed. */
  lemma StartThenRemove(db: Store, pool: string, start: Start, now: int)
    requires pool in db.pools
    ensures WithoutPools(AfterStart(db, pool, start, now), {pool}) == WithoutPools(db, {pool})
  {
    hide DropDirectories, DropBuckets, DropSecrets;
    StartOnTables(db, pool, start, now);
    hide StatesAfter, PoolsAfter;
    assert db.poolTimes[pool := now] - {pool} == db.poolTimes - {pool};
  }

  lemma StartOnTables(db: Store, pool: string, start: Start, now: int)
    requires pool in db.pools
    ensures StatesAfter(db.states, pool, start, now) - {pool} == db.states - {pool}
    ensures PoolsAfter(db.pools, pool, start, now) - {pool} == db.pools - {pool}
  {
  }

  lemma ProbeThenRemove(db: Store, pool: string, probe: Probe, now: int)
    ensures WithoutPools(ProbeMux(db, pool, probe, now).0, {pool}) == WithoutPools(db, {pool})
  {
    hide WithoutPools, AfterStart;
    if pool in db.pools && probe.Reached? {
      StartThenRemove(db, pool, probe.start, now);
    }
  }

  lemma RegisterThenRemove(db: Store, uid: string, pool: string, path: string, gid: string,
                           key: string, secretKey: string, expiration: int, now: int)
    requires Sound(db) && pool !in db.names && path !in db.directories && key !in db.secrets
    ensures WithoutPools(RegisteredPool(db, uid, pool, path, gid, key, secretKey, expiration, now), {pool}) == db
  {
    MembersHavePools(db);
    hide Sound;
    assert pool !in db.names.Keys;
    assert pool !in db.pools.Keys && pool !in db.states.Keys && pool !in db.poolTimes.Keys;
    DropAddedMembers(db, pool, path, Directory(pool, path, now), key, Secret(pool, key, secretKey, KeyInternal, expiration, now));
    hide DropDirectories, DropBuckets, DropSecrets;
    RemoveAdded(db.pools, pool, Pool(pool, path, uid, gid, key, expiration, true, false, "", now));
    RemoveAdded(db.names, pool, PoolName(uid, now));
    assert db.states - {pool} == db.states && db.poolTimes - {pool} == db.poolTimes;
  }

  lemma DropAddedMembers(db: Store, pool: string, path: string, d: Directory, key: string, k: Secret)
    requires d.pool == pool && k.pool == pool && path !in db.directories && key !in db.secrets && pool !in db.pools
    requires forall e | e in db.directories :: db.directories[e].pool != pool
    requires forall b | b in db.buckets :: db.buckets[b].pool in db.pools
    requires forall k | k in db.secrets :: db.secrets[k].pool in db.pools
    ensures DropDirectories(db.directories[path := d], {pool}) == db.directories
    ensures DropBuckets(db.buckets, {pool}) == db.buckets
    ensures DropSecrets(db.secrets[key := k], {pool}) == db.secrets
  {
  }

  /** What make-pool is asked for. */
  predicate PoolAsked(db: Store, cfg: Config, op: Op, now: int)
    requires op.MakePool?
  {
    LetIn(db, cfg, op.caller, "", false, now) && op.argsOk && op.path != "" && op.path[0] == '/'
  }

  /** The id is the first generated one that is not in use. */
  ghost predicate FirstUnused(ids: seq<string>, used: set<string>, id: string) {
    exists i | 0 <= i < |ids| :: ids[i] == id && id !in used && forall j | 0 <= j < i :: ids[j] in used
  }

  /** The four entries of a new pool, and no other change but what the probe does to it. */
  ghost predicate NewPool(db: Store, r: Store, cfg: Config, op: Op, now: int, pool: string, key: string)
    requires op.MakePool?
  {
    var record := Pool(pool, op.path, op.caller.uid, op.gid, key, now + cfg.poolTerm, true, false, "", now);
    && FirstUnused(op.nameIds, db.names.Keys, pool) && FirstUnused(op.keyIds, db.secrets.Keys, key)
    && r.names == db.names[pool := PoolName(op.caller.uid, now)]
    && r.directories == db.directories[op.path := Directory(pool, op.path, now)]
    && r.secrets == db.secrets[key := Secret(pool, key, op.secretKey, KeyInternal, now + cfg.poolTerm, now)]
    && r.pools == db.pools[pool := if op.probe.Reached? && op.probe.start.MarkedInoperable?
                                   then record.(inoperable := true, reason := op.probe.start.reason, timestamp := now)
                                   else record]
    && r.buckets == db.buckets && r.claims == db.claims && r.tokens == db.tokens && r.userTimes == db.userTimes
    && r.users == RequesterAfter(db, cfg, op.caller, false, now)
  }

  /** make-pool succeeds if and only if it was let in with good arguments, found an
      unused name and key, and the directory was free.  Then it has registered exactly
      the new pool with its name, directory and probe key, and removing that pool gives
      back the registry as it was.  A refusal changes nothing but the requester's record. */
  lemma MakePoolOutcome(db: Store, cfg: Config, op: Op, now: int)
    requires Sound(db) && op.MakePool?
    ensures var (r, s) := Step(db, cfg, op, now);
            var named := PoolAsked(db, cfg, op, now) && exists n :: n in op.nameIds && n !in db.names;
            var keyed := exists k :: k in op.keyIds && k !in db.secrets;
            && (s.Okay? <==> named && op.path !in db.directories && keyed)
            && (named && op.path in db.directories ==> s == Rejected(409))
            && (s.Fatal? <==> PoolAsked(db, cfg, op, now) && !(named && (op.path in db.directories || keyed)))
            && (!s.Okay? && !s.Fatal? ==> r == db.(users := RequesterAfter(db, cfg, op.caller, false, now)))
            && (s.Okay? ==>
                  exists pool, key ::
                    NewPool(db, r, cfg, op, now, pool, key) && WithoutPools(r, {pool}) == db.(users := r.users))
  {
    hide Sound, CheckAccess, CreatePool, ProbeMux, WithoutPools, LetIn, RequesterAfter, NewPool, FirstUnused;
    AccessAnswers(db, cfg, op.caller, "", false, now);
    AccessRecords(db, cfg, op.caller, "", false, now);
    CheckAccessSound(db, cfg, op.caller, "", false, now);
    var (db1, access) := CheckAccess(db, cfg, op.caller, "", false, now);
    CreatePoolOutcome(db1, cfg, op, now);
    var (db2, created, pool) := CreatePool(db1, op.caller.uid, op.path, op.gid, op.nameIds, op.keyIds,
                                           op.secretKey, now + cfg.poolTerm, now);
    if PoolAsked(db, cfg, op, now) && created.Okay? {
      var key := db2.pools[pool].probeKey;
      ProbedNewPool(db, db1, db2, cfg, op, now, pool, key);
      assert NewPool(db, ProbeMux(db2, pool, op.probe, now).0, cfg, op, now, pool, key);
    }
  }

  /** The probe of a pool just registered. */
  lemma ProbedNewPool(db: Store, db1: Store, db2: Store, cfg: Config, op: Op, now: int, pool: string, key: string)
    requires op.MakePool? && db1 == db.(users := RequesterAfter(db, cfg, op.caller, false, now))
    requires FirstUnused(op.nameIds, db.names.Keys, pool) && FirstUnused(op.keyIds, db.secrets.Keys, key)
    requires db2 == RegisteredPool(db1, op.caller.uid, pool, op.path, op.gid, key, op.secretKey, now + cfg.poolTerm, now)
    requires WithoutPools(db2, {pool}) == db1
    ensures var r := ProbeMux(db2, pool, op.probe, now).0;
            NewPool(db, r, cfg, op, now, pool, key) && WithoutPools(r, {pool}) == db.(users := r.users)
  {
    hide WithoutPools, RequesterAfter, FirstUnused;
    ProbeThenRemove(db2, pool, op.probe, now);
    ProbedPool(db2, pool, op.probe, now);
    hide ProbeMux;
  }

  lemma ProbedPool(db: Store, pool: string, probe: Probe, now: int)
    requires pool in db.pools && db.pools[pool].probeKey in db.secrets && !db.pools[pool].inoperable
    ensures var r := ProbeMux(db, pool, probe, now).0;
            && r == db.(pools := r.pools, states := r.states, poolTimes := r.poolTimes)
            && r.pools == if probe.Reached? && probe.start.MarkedInoperable?
                          then db.pools[pool := db.pools[pool].(inoperable := true, reason := probe.start.reason, timestamp := now)]
                          else db.pools
  {
    hide StatesAfter;
  }

  lemma CreatePoolOutcome(db: Store, cfg: Config, op: Op, now: int)
    requires Sound(db) && op.MakePool?
    ensures var (r, s, pool) := CreatePool(db, op.caller.uid, op.path, op.gid, op.nameIds, op.keyIds,
                                           op.secretKey, now + cfg.poolTerm, now);
            var named := exists n :: n in op.nameIds && n !in db.names;
            var keyed := exists k :: k in op.keyIds && k !in db.secrets;
            && (s.Okay? <==> named && op.path !in db.directories && keyed)
            && (s == Rejected(409) <==> named && op.path in db.directories)
            && (s.Okay? || s.Fatal? || s == Rejected(409))
            && (s.Rejected? ==> r == db)
            && (s.Okay? ==>
                  && pool in r.pools && WithoutPools(r, {pool}) == db
                  && var key := r.pools[pool].probeKey;
                  && FirstUnused(op.nameIds, db.names.Keys, pool) && FirstUnused(op.keyIds, db.secrets.Keys, key)
                  && r == RegisteredPool(db, op.caller.uid, pool, op.path, op.gid, key, op.secretKey, now + cfg.poolTerm, now))
  {
    hide Sound, WithoutPools, RegisteredPool, NamedPool, GoodPool, GoodSecret;
    var name := FirstFresh(op.nameIds, db.names.Keys);
    var key := FirstFresh(op.keyIds, db.secrets.Keys);
    UnusedIs(op.nameIds, db.names.Keys);
    UnusedIs(op.keyIds, db.secrets.Keys);
    hide FirstUnused, FirstFresh;
    assert forall n :: n in db.names.Keys <==> n in db.names;
    assert forall k :: k in db.secrets.Keys <==> k in db.secrets;
    if name.Some? && op.path !in db.directories && key.Some? {
      RegisterThenRemove(db, op.caller.uid, name.value, op.path, op.gid, key.value, op.secretKey, now + cfg.poolTerm, now);
      RegisteredHas(db, op.caller.uid, name.value, op.path, op.gid, key.value, op.secretKey, now + cfg.poolTerm, now);
    }
  }

  lemma UnusedIs(ids: seq<string>, used: set<string>)
    ensures FirstFresh(ids, used).Some? <==> exists n :: n in ids && n !in used
    ensures FirstFresh(ids, used).Some? ==>
              FirstFresh(ids, used).value !in used && FirstUnused(ids, used, FirstFresh(ids, used).value)
  {
    var r := FirstFresh(ids, used);
    if r.Some? {
      var i :| 0 <= i < |ids| && ids[i] == r.value && r.value !in used && forall j | 0 <= j < i :: ids[j] in used;
      assert ids[i] in ids;
    }
  }

  lemma RegisteredHas(db: Store, uid: string, pool: string, path: string, gid: string,
                      key: string, secretKey: string, expiration: int, now: int)
    ensures var r := RegisteredPool(db, uid, pool, path, gid, key, secretKey, expiration, now);
            pool in r.pools && r.pools[pool].probeKey == key
  {
  }

  // ---- cleaning up an inconsistent pool ----

  /** The directory entry that a pool names belongs to no other pool. */
  predicate OwnDirectory(db: Store, d: string, pool: string) {
    d == "" || d !in db.directories || db.directories[d].pool == pool
  }

  /** The entries found under the access keys in the records of the pool's secrets
      belong to no other pool. */
  predicate OwnSecrets(db: Store, pool: string) {
    forall k | k in db.secrets && db.secrets[k].pool == pool && db.secrets[k].accessKey in db.secrets ::
      db.secrets[db.secrets[k].accessKey].pool == pool
  }

  lemma CleaningDirectories(db: Store, d: string, pool: string, q: string)
    requires q != pool
    ensures OwnDirectory(db, d, pool) ==>
              DirectoriesOf(if d == "" then db.directories else db.directories - {d}, q) == DirectoriesOf(db.directories, q)
    ensures !OwnDirectory(db, d, pool) && db.directories[d].pool == q ==>
              DirectoriesOf(db.directories - {d}, q) != DirectoriesOf(db.directories, q)
  {
    if !OwnDirectory(db, d, pool) && db.directories[d].pool == q {
      assert d in DirectoriesOf(db.directories, q) && d !in DirectoriesOf(db.directories - {d}, q);
    }
  }

  lemma CleaningBuckets(db: Store, prop: T.PoolProp, pool: string, q: string)
    requires q != pool && T.Describes(prop, db, pool) && forall b | b in db.buckets :: db.buckets[b].bucket == b
    ensures BucketsOf(db.buckets - T.BucketNames(prop.buckets), q) == BucketsOf(db.buckets, q)
  {
    forall x | x in prop.buckets ensures x.bucket in db.buckets && db.buckets[x.bucket].pool == pool {
      var k :| k in db.buckets && db.buckets[k] == x;
      assert k == x.bucket;
    }
  }

  lemma CleaningSecrets(db: Store, prop: T.PoolProp, pool: string, q: string)
    requires q != pool && T.Describes(prop, db, pool) && OwnSecrets(db, pool)
    ensures SecretsOf(db.secrets - T.SecretNames(prop.secrets), q) == SecretsOf(db.secrets, q)
  {
    forall x | x in prop.secrets && x.accessKey in db.secrets ensures db.secrets[x.accessKey].pool == pool {
      var j :| j in db.secrets && db.secrets[j] == x;
      assert db.secrets[j].pool == pool;
    }
  }

  lemma CleaningHitsSecret(db: Store, prop: T.PoolProp, pool: string) returns (q: string)
    requires T.Describes(prop, db, pool) && !OwnSecrets(db, pool)
    ensures q != pool && SecretsOf(db.secrets - T.SecretNames(prop.secrets), q) != SecretsOf(db.secrets, q)
  {
    var k :| k in db.secrets && db.secrets[k].pool == pool && db.secrets[k].accessKey in db.secrets
             && db.secrets[db.secrets[k].accessKey].pool != pool;
    var hit := db.secrets[k].accessKey;
    q := db.secrets[hit].pool;
    assert db.secrets[k] in db.secrets.Values;
    assert db.secrets[k] in prop.secrets && hit in T.SecretNames(prop.secrets);
    assert hit in SecretsOf(db.secrets, q) && hit !in SecretsOf(db.secrets - T.SecretNames(prop.secrets), q);
  }

  lemma CleanedSlice(db: Store, prop: T.PoolProp, pool: string, q: string)
    requires q != pool && prop.pool.pool == pool
    ensures var r := SliceOf(T.Deregistered(db, prop), q); var was := SliceOf(db, q); var d := prop.pool.directory;
            && r == was.(directories := r.directories, buckets := r.buckets, secrets := r.secrets)
            && r.directories == DirectoriesOf(if d == "" then db.directories else db.directories - {d}, q)
            && r.buckets == BucketsOf(db.buckets - T.BucketNames(prop.buckets), q)
            && r.secrets == SecretsOf(db.secrets - T.SecretNames(prop.secrets), q)
  {
    hide DirectoriesOf, BucketsOf, SecretsOf, T.BucketNames, T.SecretNames;
  }

  /** Displaying an inconsistent pool removes it.  That leaves everything of every
      other pool as it was if and only if the directory entry it names is not
      another's, and neither are the entries under the access keys in its secrets. */
  lemma CleaningLeavesOthers(db: Store, prop: T.PoolProp, pool: string)
    requires T.Describes(prop, db, pool) && forall b | b in db.buckets :: db.buckets[b].bucket == b
    ensures (forall q | q != pool :: SliceOf(T.Deregistered(db, prop), q) == SliceOf(db, q)) <==>
            OwnDirectory(db, db.pools[pool].directory, pool) && OwnSecrets(db, pool)
  {
    var r, d := T.Deregistered(db, prop), db.pools[pool].directory;
    hide SliceOf, OwnDirectory, OwnSecrets, DirectoriesOf, BucketsOf, SecretsOf, T.Deregistered, T.BucketNames, T.SecretNames;
    if OwnDirectory(db, d, pool) && OwnSecrets(db, pool) {
      forall q | q != pool ensures SliceOf(r, q) == SliceOf(db, q) {
        CleanedSlice(db, prop, pool, q);
        CleaningDirectories(db, d, pool, q);
        CleaningBuckets(db, prop, pool, q);
        CleaningSecrets(db, prop, pool, q);
        SliceParts(db, q);
      }
    } else if !OwnDirectory(db, d, pool) {
      OthersDirectory(db, d, pool);
      var q := db.directories[d].pool;
      CleanedSlice(db, prop, pool, q);
      CleaningDirectories(db, d, pool, q);
      SliceParts(db, q);
    } else {
      var q := CleaningHitsSecret(db, prop, pool);
      CleanedSlice(db, prop, pool, q);
      SliceParts(db, q);
    }
  }

  lemma OthersDirectory(db: Store, d: string, pool: string)
    requires !OwnDirectory(db, d, pool)
    ensures d != "" && d in db.directories && db.directories[d].pool != pool
  {
  }

  lemma SliceParts(db: Store, q: string)
    ensures SliceOf(db, q).directories == DirectoriesOf(db.directories, q)
    ensures SliceOf(db, q).buckets == BucketsOf(db.buckets, q)
    ensures SliceOf(db, q).secrets == SecretsOf(db.secrets, q)
  {
  }

  /** Two pools name one directory, which belongs to the second: displaying the
      first takes it from the second. */
  lemma CleaningCanHitAnother()
    ensures exists db: Store, prop: T.PoolProp, p: string, q: string ::
              && T.Describes(prop, db, p) && !T.DirectoryRight(db.pools, db.directories, p)
              && q in db.pools && T.DirectoryRight(db.pools, db.directories, q)
              && SliceOf(T.Deregistered(db, prop), q) != SliceOf(db, q)
  {
    var u := User("u", "", [], true, true, 0, 0);
    var p := Pool("p", "/x", "u", "g", "k", 0, true, false, "", 0);
    var db := EmptyStore.(users := map["u" := u], pools := map["p" := p, "q" := p.(pool := "q")],
                          directories := map["/x" := Directory("q", "/x", 0)]);
    var prop := T.PoolProp(p, [], [], u, Ready, "-");
    assert "p" != "q";
    assert "/x" in SliceOf(db, "q").directories && "/x" !in SliceOf(T.Deregistered(db, prop), "q").directories;
    assert T.Describes(prop, db, "p") && T.DirectoryRight(db.pools, db.directories, "q");
    assert !T.DirectoryRight(db.pools, db.directories, "p") by { assert db.directories["/x"].pool != "p"; }
  }
}
