/**
 Registrar requests (v2/lens3/registrar.go) and administrator commands
 (v2/lens3/admintool.go), each as the change it makes to the registry when it
 runs alone on a sound registry, and what one of them keeps.  There, gathering a
 pool for a display or a response changes nothing (`Table.GatherPoolProp`).  A
 `Fatal` status ends the process that meets it; the others go on.
 */
module Handlers {
  import opened Records
  import opened Registry
  import opened Naming

  datatype Config = Config(defaultAllow: bool, mapClaims: bool, userTerm: nat, poolTerm: nat, bucketTerm: nat)

  /** The requester and what the outside says about it: a trusted proxy and a
      running Mux, an account on this host, admission by the uid and gid ranges,
      and the csrf tokens it sends in a cookie and in a header. */
  datatype Caller = Caller(uid: string, front: bool, account: bool, admitted: bool,
                           cookie: Option<string>, header: string)

  /** What a probe access does in a Multiplexer, and what it answers. */
  datatype Start = Running | Started | SuspendedFor(reason: Reason) | MarkedInoperable(reason: Reason) | NoBackend
  datatype Probe = Unreached | Reached(start: Start, code: nat)

  const HTTP_OK := 200

  datatype Op =
    | UserInfo(caller: Caller, token: (string, string))
    | ListPool(caller: Caller, argsOk: bool, pool: string)
    | MakePool(caller: Caller, argsOk: bool, path: string, gid: string,
               nameIds: NameIds, keyIds: KeyIds, secretKey: string, probe: Probe)
    | DeletePool(caller: Caller, argsOk: bool, pool: string)
    | MakeBucket(caller: Caller, argsOk: bool, pool: string, bucket: string, bucketPolicy: BucketPolicy, probe: Probe)
    | DeleteBucket(caller: Caller, argsOk: bool, pool: string, bucket: string)
    | MakeSecret(caller: Caller, argsOk: bool, pool: string, policy: SecretPolicy, expiration: int,
                 keyIds: KeyIds, secretKey: string)
    | DeleteSecret(caller: Caller, argsOk: bool, pool: string, key: string)
    | LoadUserRow(row: seq<string>)
    | StopUser(uid: string, disabling: bool)
    | StopPool(pool: string, disabling: bool)
    | ShowPool(pools: seq<string>)
    | SendProbe(pool: string, probe: Probe)
    | KillPool(pool: string)
    | KillBucket(bucket: string)
    | ExpireUser(uid: string, date: int)
    | ExpirePool(pool: string, date: int)
    | ExpireBucket(bucket: string, date: int)
    | ExpireSecret(key: string, date: int)
    | MuxAccess(pool: string, start: Start)
    | ExpireToken(uid: string)

  // ---- access checks ----

  /** check_user_account, enroll_new_user and extend_user_expiration_time. */
  function CheckAccount(db: Store, cfg: Config, c: Caller, first: bool, now: int): (Store, Option<User>) {
    if c.uid == "" then (db, None)
    else if c.uid !in db.users && !(cfg.defaultAllow && first) then (db, None)
    else if !c.account then (db, None)
    else if c.uid !in db.users then
      if cfg.mapClaims || !c.admitted then (db, None)
      else
        var u := User(c.uid, "", [], true, true, now + cfg.userTerm, now);
        (db.(users := db.users[c.uid := u]), Some(u))
    else
      var u := db.users[c.uid];
      if !u.enabled then (db, None)
      else if !u.ephemeral then (db, if now < u.expiration then Some(u) else None)
      else if u.expiration < now + cfg.userTerm then
        var v := u.(expiration := now + cfg.userTerm);
        (db.(users := db.users[c.uid := v]), Some(v))
      else (db, Some(u))
  }

  /** check_csrf_tokens. */
  predicate TokensMatch(tokens: map<string, (string, string)>, c: Caller) {
    && c.uid in tokens && c.header != ""
    && c.cookie == Some(tokens[c.uid].0) && c.header == tokens[c.uid].1
  }

  /** check_user_access_with_error_return; `pool` is "" when none is named.  Without a
      token record the message about a mismatch dereferences nil. */
  function CheckAccess(db: Store, cfg: Config, c: Caller, pool: string, first: bool, now: int): (Store, Status) {
    if !c.front then (db, Rejected(500))
    else
      var (db1, u) := CheckAccount(db, cfg, c, first, now);
      (db1,
       if u.None? then Rejected(401)
       else if !first && c.uid !in db1.tokens then Raised(500)
       else if !first && !TokensMatch(db1.tokens, c) then Rejected(401)
       else if pool == "" then Okay
       else if !GoodPool(pool) then Rejected(400)
       else if pool !in db1.pools then Rejected(404)
       else if db1.pools[pool].owner != u.value.uid then Rejected(403)
       else Okay)
  }

  /** Access to a named pool.  A path variable of the router is never empty. */
  function CheckPoolAccess(db: Store, cfg: Config, c: Caller, pool: string, now: int): (Store, Status) {
    if pool == "" then (db, Rejected(404)) else CheckAccess(db, cfg, c, pool, false, now)
  }

  // ---- what Mux does to the registry ----

  /** The state shown of a pool after an access. */
  function StatesAfter(states: map<string, ApproxState>, pool: string, start: Start, now: int): map<string, ApproxState> {
    match start
    case Started => states[pool := ApproxState(pool, Ready, "-", now)]
    case SuspendedFor(reason) => states[pool := ApproxState(pool, Suspended, reason, now)]
    case _ => states
  }

  /** A pool that failed for good is marked, once. */
  function PoolsAfter(pools: map<string, Pool>, pool: string, start: Start, now: int): map<string, Pool>
    requires pool in pools
  {
    if start.MarkedInoperable? && !pools[pool].inoperable
    then pools[pool := pools[pool].(inoperable := true, reason := start.reason, timestamp := now)]
    else pools
  }

  function AfterStart(db: Store, pool: string, start: Start, now: int): Store
    requires pool in db.pools
  {
    db.(poolTimes := db.poolTimes[pool := now],
    states := StatesAfter(db.states, pool, start, now),
    pools := PoolsAfter(db.pools, pool, start, now))
  }

  /** probe_access_mux: a missing pool or probe key is a `panic(nil)`. */
  function ProbeMux(db: Store, pool: string, probe: Probe, now: int): (Store, Status) {
    if pool !in db.pools || db.pools[pool].probeKey !in db.secrets then (db, Fatal)
    else if probe.Unreached? then (db, Rejected(502))
    else (AfterStart(db, pool, probe.start, now), if probe.code == HTTP_OK then Okay else Rejected(probe.code))
  }

  // ---- requests ----

  /** The entries set before a pool is registered: its name and directory. */
  function NamedPool(db: Store, uid: string, pool: string, path: string, now: int): Store {
    db.(names := db.names[pool := PoolName(uid, now)],
    directories := db.directories[path := Directory(pool, path, now)])
  }

  function RegisteredPool(db: Store, uid: string, pool: string, path: string, gid: string,
                          key: string, secretKey: string, expiration: int, now: int): Store
  {
    var db1 := NamedPool(db, uid, pool, path, now);
    db1.(secrets := db1.secrets[key := Secret(pool, key, secretKey, KeyInternal, expiration, now)],
    pools := db1.pools[pool := Pool(pool, path, uid, gid, key, expiration, true, false, "", now)])
  }

  /** The registration part of make-pool: name, directory, probe key, pool. */
  function CreatePool(db: Store, uid: string, path: string, gid: string, nameIds: NameIds, keyIds: KeyIds,
                      secretKey: string, expiration: int, now: int): (Store, Status, string)
  {
    match FirstFresh(nameIds, db.names.Keys)
    case None => (db, Fatal, "")
    case Some(pool) =>
      if path in db.directories then (db, Rejected(409), pool)
      else
        match FirstFresh(keyIds, db.secrets.Keys)
        case None => (NamedPool(db, uid, pool, path, now), Fatal, pool)
        case Some(key) =>
          (RegisteredPool(db, uid, pool, path, gid, key, secretKey, expiration, now), Okay, pool)
  }

  function MakePoolEffect(db: Store, cfg: Config, op: Op, now: int): (Store, Status)
    requires op.MakePool?
  {
    var (db1, access) := CheckAccess(db, cfg, op.caller, "", false, now);
    if !access.Okay? then (db1, access)
    else if !op.argsOk || op.path == "" || op.path[0] != '/' then (db1, Rejected(400))
    else
      var (db2, created, pool) := CreatePool(db1, op.caller.uid, op.path, op.gid, op.nameIds, op.keyIds,
                                             op.secretKey, now + cfg.poolTerm, now);
      if !created.Okay? then (db2, created) else (ProbeMux(db2, pool, op.probe, now).0, Okay)
  }

  /** The registration part of make-bucket: claim the name, probe, roll back. */
  function CreateBucket(db: Store, b: Bucket, probe: Probe, now: int): (Store, Status) {
    if b.bucket in db.buckets then (db, Rejected(409))
    else
      var (db1, probed) := ProbeMux(db.(buckets := db.buckets[b.bucket := b]), b.pool, probe, now);
      if probed.Okay? || probed.Fatal? then (db1, probed)
      else (db1.(buckets := db1.buckets - {b.bucket}), probed)
  }

  function MakeBucketEffect(db: Store, cfg: Config, op: Op, now: int): (Store, Status)
    requires op.MakeBucket?
  {
    var (db1, access) := CheckPoolAccess(db, cfg, op.caller, op.pool, now);
    if !access.Okay? then (db1, access)
    else if !op.argsOk || !GoodBucket(op.bucket) then (db1, Rejected(400))
    else CreateBucket(db1, Bucket(op.pool, op.bucket, op.bucketPolicy, now + cfg.bucketTerm, now), op.probe, now)
  }

  function MakeSecretEffect(db: Store, cfg: Config, op: Op, now: int): (Store, Status)
    requires op.MakeSecret?
  {
    var (db1, access) := CheckPoolAccess(db, cfg, op.caller, op.pool, now);
    if !access.Okay? then (db1, access)
    else if !op.argsOk || op.policy.KeyInternal? then (db1, Rejected(400))
    else
      match FirstFresh(op.keyIds, db1.secrets.Keys)
      case None => (db1, Fatal)
      case Some(key) =>
        (db1.(secrets := db1.secrets[key := Secret(op.pool, key, op.secretKey, op.policy, op.expiration, now)]), Okay)
  }

  function DeletePoolEffect(db: Store, cfg: Config, op: Op, now: int): (Store, Status)
    requires op.DeletePool?
  {
    var (db1, access) := CheckPoolAccess(db, cfg, op.caller, op.pool, now);
    if !access.Okay? then (db1, access)
    else if !op.argsOk then (db1, Rejected(400))
    else if op.pool !in db1.pools then (db1, Rejected(404))
    else (WithoutPools(db1, {op.pool}), Okay)
  }

  function DeleteBucketEffect(db: Store, cfg: Config, op: Op, now: int): (Store, Status)
    requires op.DeleteBucket?
  {
    var (db1, access) := CheckPoolAccess(db, cfg, op.caller, op.pool, now);
    if !access.Okay? then (db1, access)
    else if !GoodBucket(op.bucket) then (db1, Rejected(400))
    else if op.bucket !in db1.buckets then (db1, Rejected(404))
    else if db1.buckets[op.bucket].pool != op.pool then (db1, Rejected(403))
    else if !op.argsOk then (db1, Rejected(400))
    else (db1.(buckets := db1.buckets - {op.bucket}), Okay)
  }

  function DeleteSecretEffect(db: Store, cfg: Config, op: Op, now: int): (Store, Status)
    requires op.DeleteSecret?
  {
    var (db1, access) := CheckPoolAccess(db, cfg, op.caller, op.pool, now);
    if !access.Okay? then (db1, access)
    else if !GoodSecret(op.key) then (db1, Rejected(400))
    else if op.key !in db1.secrets then (db1, Rejected(404))
    else if db1.secrets[op.key].pool != op.pool then (db1, Rejected(403))
    else if !op.argsOk then (db1, Rejected(400))
    else (db1.(secrets := db1.secrets - {op.key}), Okay)
  }

  // ---- load-user, one row ----

  const LOAD_TERM := 315_576_000 // ten years

  function UserOfRow(row: seq<string>, now: int): User
    requires |row| >= 4
  {
    User(row[1], row[2], row[3..], true, false, now + LOAD_TERM, now)
  }

  predicate GoodAddRow(row: seq<string>) {
    && |row| >= 4
    && GoodUser(row[1])
    && GoodClaim(row[2])
    && forall g | g in row[3..] :: GoodUser(g)
  }

  /** DELETE, ENABLE and DISABLE over the uids of a row. */
  function LoadNames(db: Store, command: string, names: seq<string>, now: int): (Store, Status)
    decreases |names|
  {
    if names == [] then (db, Okay)
    else if names[0] !in db.users then LoadNames(db, command, names[1..], now)
    else if command == "DELETE" then LoadNames(WithoutUser(db, names[0]), command, names[1..], now)
    else
      var u := db.users[names[0]].(enabled := command == "ENABLE");
      var (db1, added) := AddUser(db, u, now);
      if !added.Okay? then (db1, added) else LoadNames(db1, command, names[1..], now)
  }

  function LoadRow(db: Store, row: seq<string>, now: int): (Store, Status) {
    if row == [] then (db, Fatal)
    else if row[0] == "ADD" || row[0] == "MODIFY" then
      if !GoodAddRow(row) then (db, Fatal)
      else
        var u := UserOfRow(row, now);
        AddUser(if row[0] == "ADD" then WithoutUser(db, u.uid) else db, u, now)
    else if row[0] == "DELETE" || row[0] == "ENABLE" || row[0] == "DISABLE" then
      if exists n | n in row[1..] :: !GoodUser(n) then (db, Fatal)
      else LoadNames(db, row[0], row[1..], now)
    else (db, Fatal)
  }

  // ---- one operation ----

  function Step(db: Store, cfg: Config, op: Op, now: int): (Store, Status) {
    match op
    case UserInfo(c, token) =>
      var (db1, access) := CheckAccess(db, cfg, c, "", true, now);
      if access.Okay? then (db1.(tokens := db1.tokens[c.uid := token]), Okay) else (db1, access)
    case ListPool(c, argsOk, pool) =>
      var (db1, access) := CheckAccess(db, cfg, c, pool, false, now);
      (db1, if access.Okay? && !argsOk then Rejected(400) else access)
    case MakePool(_, _, _, _, _, _, _, _) => MakePoolEffect(db, cfg, op, now)
    case DeletePool(_, _, _) => DeletePoolEffect(db, cfg, op, now)
    case MakeBucket(_, _, _, _, _, _) => MakeBucketEffect(db, cfg, op, now)
    case DeleteBucket(_, _, _, _) => DeleteBucketEffect(db, cfg, op, now)
    case MakeSecret(_, _, _, _, _, _, _) => MakeSecretEffect(db, cfg, op, now)
    case DeleteSecret(_, _, _, _) => DeleteSecretEffect(db, cfg, op, now)
    case LoadUserRow(row) => LoadRow(db, row, now)
    case StopUser(uid, disabling) =>
      if uid !in db.users then (db, Rejected(404))
      else (db.(users := db.users[uid := db.users[uid].(enabled := !disabling)]), Okay)
    case StopPool(pool, disabling) =>
      if pool !in db.pools then (db, Rejected(404))
      else (db.(pools := db.pools[pool := db.pools[pool].(enabled := !disabling)]), Okay)
    case ShowPool(_) => (db, Okay)
    case SendProbe(pool, probe) => ProbeMux(db, pool, probe, now)
    case KillPool(pool) =>
      if pool !in db.pools then (db, Rejected(404)) else (WithoutPools(db, {pool}), Okay)
    case KillBucket(bucket) =>
      (db.(buckets := db.buckets - {bucket}), if bucket in db.buckets then Okay else Rejected(404))
    case ExpireUser(uid, date) =>
      if uid !in db.users then (db, Rejected(404))
      else (db.(users := db.users[uid := db.users[uid].(expiration := date)]), Okay)
    case ExpirePool(pool, date) =>
      if pool !in db.pools then (db, Rejected(404))
      else (db.(pools := db.pools[pool := db.pools[pool].(expiration := date)]), Okay)
    case ExpireBucket(bucket, date) =>
      if bucket !in db.buckets then (db, Rejected(404))
      else (db.(buckets := db.buckets[bucket := db.buckets[bucket].(expiration := date)]), Okay)
    case ExpireSecret(key, date) =>
      if key !in db.secrets then (db, Rejected(404))
      else (db.(secrets := db.secrets[key := db.secrets[key].(expiration := date)]), Okay)
    case MuxAccess(pool, start) =>
      if pool !in db.pools then (db, Rejected(404)) else (AfterStart(db, pool, start, now), Okay)
    case ExpireToken(uid) => (db.(tokens := db.tokens - {uid}), Okay)
  }

  // ---- single-entry changes keep the constraints ----

  lemma PutUserSound(db: Store, u: User)
    requires Sound(db)
    requires u.uid in db.users ==> u.claim == db.users[u.uid].claim
    requires u.uid !in db.users ==> u.claim == ""
    ensures Sound(db.(users := db.users[u.uid := u]))
  {
    hide DirectoriesMatch, NamesMatch, BucketsWell, SecretsWell, StatesWell;
    assert UsersWell(db.users[u.uid := u], db.claims, db.userTimes);
  }

  lemma PutPoolSound(db: Store, p: Pool)
    requires Sound(db) && p.pool in db.pools
    requires p.directory == db.pools[p.pool].directory && p.owner == db.pools[p.pool].owner
    ensures Sound(db.(pools := db.pools[p.pool := p]))
  {
    hide UsersWell, BucketsWell, SecretsWell, StatesWell;
    assert db.pools[p.pool := p].Keys == db.pools.Keys;
  }

  lemma AfterStartSound(db: Store, pool: string, start: Start, now: int)
    requires Sound(db) && pool in db.pools
    ensures Sound(AfterStart(db, pool, start, now))
  {
    hide UsersWell, DirectoriesMatch, NamesMatch, BucketsWell, SecretsWell;
    var db1 := db.(poolTimes := db.poolTimes[pool := now], states := StatesAfter(db.states, pool, start, now));
    assert Sound(db1);
    hide Sound, StatesAfter;
    if start.MarkedInoperable? && !db.pools[pool].inoperable {
      PutPoolSound(db1, db.pools[pool].(inoperable := true, reason := start.reason, timestamp := now));
    }
  }

  lemma BucketsSound(db: Store, buckets: map<string, Bucket>)
    requires Sound(db) && BucketsWell(buckets, db.pools.Keys)
    ensures Sound(db.(buckets := buckets))
  {
    hide UsersWell, PoolsWell, DirectoriesMatch, NamesMatch, BucketsWell, SecretsWell, StatesWell;
  }

  lemma SecretsSound(db: Store, secrets: map<string, Secret>)
    requires Sound(db) && SecretsWell(secrets, db.pools.Keys)
    ensures Sound(db.(secrets := secrets))
  {
    hide UsersWell, PoolsWell, DirectoriesMatch, NamesMatch, BucketsWell, SecretsWell, StatesWell;
  }

  /** A start touches only the pool's own entries, and never the members of a pool. */
  lemma AfterStartFrame(db: Store, pool: string, start: Start, now: int)
    requires pool in db.pools
    ensures var r := AfterStart(db, pool, start, now);
            && r == db.(pools := r.pools, states := r.states, poolTimes := r.poolTimes)
            && r.pools.Keys == db.pools.Keys
            && r.pools[pool].probeKey == db.pools[pool].probeKey
            && forall p | p in db.pools && p != pool :: r.pools[p] == db.pools[p]
  {
    hide StatesAfter;
  }

  lemma RegisteredPoolDirectories(pools: map<string, Pool>, directories: map<string, Directory>,
                                  p: Pool, d: Directory)
    requires DirectoriesMatch(pools, directories)
    requires p.pool !in pools && p.directory !in directories && p.directory != ""
    requires forall e | e in directories :: directories[e].pool != p.pool
    requires d.directory == p.directory && d.pool == p.pool
    ensures DirectoriesMatch(pools[p.pool := p], directories[d.directory := d])
  {
  }

  lemma RegisteredPoolSound(db: Store, uid: string, pool: string, path: string, gid: string,
                                key: string, secretKey: string, expiration: int, now: int)
    requires Sound(db)
    requires uid in db.users && pool != "" && pool !in db.names && path !in db.directories && path != "" && key !in db.secrets
    ensures Sound(RegisteredPool(db, uid, pool, path, gid, key, secretKey, expiration, now))
  {
    hide UsersWell, DirectoriesMatch;
    var p := Pool(pool, path, uid, gid, key, expiration, true, false, "", now);
    RegisteredPoolDirectories(db.pools, db.directories, p, Directory(pool, path, now));
  }

  /** A name and a directory without a pool are left behind. */
  lemma NamedPoolSound(db: Store, uid: string, pool: string, path: string, now: int)
    requires Sound(db) && pool !in db.names && path !in db.directories && path != ""
    ensures Sound(NamedPool(db, uid, pool, path, now))
  {
    hide UsersWell, PoolsWell, BucketsWell, SecretsWell, StatesWell;
  }

  ghost predicate UsersKeyed(users: map<string, User>) {
    forall u | u in users :: users[u].uid == u
  }

  /** In any state, checking a requester changes only the users. */
  lemma CheckAccessFrame(db: Store, cfg: Config, c: Caller, pool: string, first: bool, now: int)
    ensures var (db1, s) := CheckAccess(db, cfg, c, pool, first, now);
            && db1 == db.(users := db1.users)
            && (s.Okay? || s.Rejected? || (s == Raised(500) && !first && c.uid !in db.tokens))
            && (s.Okay? && pool != "" ==> pool in db.pools)
            && (UsersKeyed(db.users) && s.Okay? && pool != "" ==> db.pools[pool].owner == c.uid)
  {
    CheckAccountFrame(db, cfg, c, first, now);
    hide GoodPool, CheckAccount, UsersKeyed;
    var (db1, u) := CheckAccount(db, cfg, c, first, now);
    assert db1.pools == db.pools;
  }

  lemma CheckAccountFrame(db: Store, cfg: Config, c: Caller, first: bool, now: int)
    ensures var (db1, u) := CheckAccount(db, cfg, c, first, now);
            && db1 == db.(users := db1.users)
            && (UsersKeyed(db.users) && u.Some? ==> u.value.uid == c.uid)
  {
  }

  lemma CheckPoolAccessFrame(db: Store, cfg: Config, c: Caller, pool: string, now: int)
    ensures var (db1, s) := CheckPoolAccess(db, cfg, c, pool, now);
            && db1 == db.(users := db1.users)
            && (s.Okay? || s.Rejected? || (s == Raised(500) && c.uid !in db.tokens))
            && (s.Okay? ==> pool in db.pools)
            && (UsersKeyed(db.users) && s.Okay? ==> db.pools[pool].owner == c.uid)
  {
    hide CheckAccess;
    CheckAccessFrame(db, cfg, c, pool, false, now);
  }

  lemma CheckAccessSound(db: Store, cfg: Config, c: Caller, pool: string, first: bool, now: int)
    requires Sound(db)
    ensures Sound(CheckAccess(db, cfg, c, pool, first, now).0)
    ensures var (db1, s) := CheckAccess(db, cfg, c, pool, first, now);
            && db1 == db.(users := db1.users)
            && db.users.Keys <= db1.users.Keys
            && (s.Okay? || s.Rejected? || (s == Raised(500) && !first && c.uid !in db.tokens))
            && (s.Okay? ==> c.uid in db1.users)
            && (s.Okay? && pool != "" ==> pool in db1.pools && db1.pools[pool].owner == c.uid)
  {
    var (db1, u) := CheckAccount(db, cfg, c, first, now);
    if db1 != db {
      PutUserSound(db, u.value);
    }
  }

  lemma CheckPoolAccessSound(db: Store, cfg: Config, c: Caller, pool: string, now: int)
    requires Sound(db)
    ensures Sound(CheckPoolAccess(db, cfg, c, pool, now).0)
    ensures var (db1, s) := CheckPoolAccess(db, cfg, c, pool, now);
            && db1 == db.(users := db1.users)
            && (s.Okay? || s.Rejected? || (s == Raised(500) && c.uid !in db.tokens))
            && (s.Okay? ==> c.uid in db1.users && pool in db1.pools && db1.pools[pool].owner == c.uid)
  {
    hide Sound;
    if pool != "" {
      CheckAccessSound(db, cfg, c, pool, false, now);
    }
  }

  lemma {:induction false} LoadNamesSound(db: Store, command: string, names: seq<string>, now: int)
    requires Sound(db)
    ensures Sound(LoadNames(db, command, names, now).0)
    decreases |names|
  {
    if names == [] {
    } else if names[0] !in db.users {
      LoadNamesSound(db, command, names[1..], now);
    } else if command == "DELETE" {
      WithoutUserSound(db, names[0]);
      LoadNamesSound(WithoutUser(db, names[0]), command, names[1..], now);
    } else {
      var u := db.users[names[0]].(enabled := command == "ENABLE");
      AddUserSound(db, u, now);
      LoadNamesSound(AddUser(db, u, now).0, command, names[1..], now);
    }
  }

  lemma LoadRowSound(db: Store, row: seq<string>, now: int)
    requires Sound(db)
    ensures Sound(LoadRow(db, row, now).0)
  {
    if row != [] {
      if (row[0] == "ADD" || row[0] == "MODIFY") && GoodAddRow(row) {
        var u := UserOfRow(row, now);
        WithoutUserSound(db, u.uid);
        AddUserSound(WithoutUser(db, u.uid), u, now);
        AddUserSound(db, u, now);
      } else {
        LoadNamesSound(db, row[0], row[1..], now);
      }
    }
  }

  // ---- the one operation that can break them ----

  /** make-pool that gets a name and a free directory but finds every generated
      access key taken: it quits leaving the name and the directory behind. */
  predicate OrphansPool(db: Store, cfg: Config, op: Op, now: int) {
    && op.MakePool?
    && var (db1, access) := CheckAccess(db, cfg, op.caller, "", false, now);
    && access.Okay?
    && op.argsOk && op.path != "" && op.path[0] == '/'
    && FirstFresh(op.nameIds, db1.names.Keys).Some?
    && op.path !in db1.directories
    && FirstFresh(op.keyIds, db1.secrets.Keys).None?
  }

  lemma MakePoolSound(db: Store, cfg: Config, op: Op, now: int)
    requires Sound(db) && op.MakePool?
    ensures Sound(MakePoolEffect(db, cfg, op, now).0)
    ensures OrphansPool(db, cfg, op, now) ==> MakePoolEffect(db, cfg, op, now).1.Fatal?
  {
    hide Sound;
    hide CheckAccess, AfterStart, RegisteredPool, NamedPool;
    CheckAccessSound(db, cfg, op.caller, "", false, now);
    var (db1, access) := CheckAccess(db, cfg, op.caller, "", false, now);
    if access.Okay? && op.argsOk && op.path != "" && op.path[0] == '/' {
      var name := FirstFresh(op.nameIds, db1.names.Keys);
      if name.Some? && op.path !in db1.directories {
        var key := FirstFresh(op.keyIds, db1.secrets.Keys);
        if key.None? {
          NamedPoolSound(db1, op.caller.uid, name.value, op.path, now);
        } else {
          var db2 := RegisteredPool(db1, op.caller.uid, name.value, op.path, op.gid, key.value,
                                    op.secretKey, now + cfg.poolTerm, now);
          RegisteredPoolSound(db1, op.caller.uid, name.value, op.path, op.gid, key.value,
                                  op.secretKey, now + cfg.poolTerm, now);
          ProbeMuxSound(db2, name.value, op.probe, now);
        }
      }
    }
  }

  lemma ProbeMuxSound(db: Store, pool: string, probe: Probe, now: int)
    requires Sound(db)
    ensures Sound(ProbeMux(db, pool, probe, now).0)
    ensures ProbeMux(db, pool, probe, now).0.buckets == db.buckets
  {
    hide Sound;
    if pool in db.pools && probe.Reached? {
      AfterStartSound(db, pool, probe.start, now);
      AfterStartFrame(db, pool, probe.start, now);
    }
  }

  lemma BucketSetSound(db: Store, name: string, b: Bucket)
    requires Sound(db)
    ensures Sound(db.(buckets := db.buckets - {name}))
    ensures b.bucket == name && b.pool in db.pools ==> Sound(db.(buckets := db.buckets[name := b]))
  {
    BucketsSound(db, db.buckets - {name});
    if b.bucket == name && b.pool in db.pools {
      BucketsSound(db, db.buckets[name := b]);
    }
  }

  lemma SecretSetSound(db: Store, key: string, k: Secret)
    requires Sound(db)
    ensures Sound(db.(secrets := db.secrets - {key}))
    ensures k.accessKey == key && k.pool in db.pools ==> Sound(db.(secrets := db.secrets[key := k]))
  {
    SecretsSound(db, db.secrets - {key});
    if k.accessKey == key && k.pool in db.pools {
      SecretsSound(db, db.secrets[key := k]);
    }
  }

  lemma MakeBucketSound(db: Store, cfg: Config, op: Op, now: int)
    requires Sound(db) && op.MakeBucket?
    ensures Sound(MakeBucketEffect(db, cfg, op, now).0)
  {
    hide Sound, GoodBucket, CheckPoolAccess;
    CheckPoolAccessSound(db, cfg, op.caller, op.pool, now);
    var (db1, access) := CheckPoolAccess(db, cfg, op.caller, op.pool, now);
    if access.Okay? {
      var b := Bucket(op.pool, op.bucket, op.bucketPolicy, now + cfg.bucketTerm, now);
      BucketSetSound(db1, op.bucket, b);
      var db2 := db1.(buckets := db1.buckets[op.bucket := b]);
      if op.pool in db1.pools {
        ProbeMuxSound(db2, op.pool, op.probe, now);
        BucketSetSound(ProbeMux(db2, op.pool, op.probe, now).0, op.bucket, b);
      }
    }
  }

  lemma RequestSound(db: Store, cfg: Config, op: Op, now: int)
    requires Sound(db)
    requires op.DeletePool? || op.DeleteBucket? || op.MakeSecret? || op.DeleteSecret?
    ensures Sound(Step(db, cfg, op, now).0)
  {
    hide Sound, GoodBucket, GoodSecret, WithoutPools, CheckPoolAccess;
    CheckPoolAccessSound(db, cfg, op.caller, op.pool, now);
    var (db1, access) := CheckPoolAccess(db, cfg, op.caller, op.pool, now);
    match op
    case DeletePool(_, _, pool) =>
      WithoutPoolsSound(db1, {pool});
    case DeleteBucket(_, _, pool, bucket) =>
      BucketSetSound(db1, bucket, Bucket(pool, bucket, PublicNone, 0, 0));
    case DeleteSecret(_, _, pool, key) =>
      SecretSetSound(db1, key, Secret(pool, key, "", KeyRO, 0, 0));
    case MakeSecret(_, _, pool, policy, expiration, ids, secretKey) =>
      var key := FirstFresh(ids, db1.secrets.Keys);
      if key.Some? {
        SecretSetSound(db1, key.value, Secret(pool, key.value, secretKey, policy, expiration, now));
      }
  }

  lemma UserInfoSound(db: Store, cfg: Config, op: Op, now: int)
    requires Sound(db) && op.UserInfo?
    ensures Sound(Step(db, cfg, op, now).0)
  {
    hide UsersWell, PoolsWell, DirectoriesMatch, NamesMatch, BucketsWell, SecretsWell, StatesWell;
    CheckAccessSound(db, cfg, op.caller, "", true, now);
  }

  lemma AdminSound(db: Store, cfg: Config, op: Op, now: int)
    requires Sound(db)
    requires op.StopUser? || op.StopPool? || op.KillPool? || op.KillBucket? || op.ExpireUser?
             || op.ExpirePool? || op.ExpireBucket? || op.ExpireSecret? || op.MuxAccess?
    ensures Sound(Step(db, cfg, op, now).0)
  {
    hide Sound, WithoutPools, AfterStart;
    match op
    case StopUser(uid, disabling) => ChangedUserSound(db, uid, !disabling, 0);
    case ExpireUser(uid, date) => ChangedUserSound(db, uid, false, date);
    case StopPool(pool, disabling) => ChangedPoolSound(db, pool, !disabling, 0);
    case ExpirePool(pool, date) => ChangedPoolSound(db, pool, false, date);
    case KillPool(pool) => WithoutPoolsSound(db, {pool});
    case KillBucket(bucket) => ChangedMemberSound(db, bucket, 0);
    case ExpireBucket(bucket, date) => ChangedMemberSound(db, bucket, date);
    case ExpireSecret(key, date) => ChangedMemberSound(db, key, date);
    case MuxAccess(pool, start) =>
      if pool in db.pools { AfterStartSound(db, pool, start, now); }
  }

  lemma ChangedUserSound(db: Store, uid: string, enabled: bool, date: int)
    requires Sound(db)
    ensures uid in db.users ==> Sound(db.(users := db.users[uid := db.users[uid].(enabled := enabled)]))
    ensures uid in db.users ==> Sound(db.(users := db.users[uid := db.users[uid].(expiration := date)]))
  {
    if uid in db.users {
      assert db.users[uid].uid == uid;
      hide Sound;
      PutUserSound(db, db.users[uid].(enabled := enabled));
      PutUserSound(db, db.users[uid].(expiration := date));
    }
  }

  lemma ChangedPoolSound(db: Store, pool: string, enabled: bool, date: int)
    requires Sound(db)
    ensures pool in db.pools ==> Sound(db.(pools := db.pools[pool := db.pools[pool].(enabled := enabled)]))
    ensures pool in db.pools ==> Sound(db.(pools := db.pools[pool := db.pools[pool].(expiration := date)]))
  {
    if pool in db.pools {
      assert db.pools[pool].pool == pool;
      hide Sound;
      PutPoolSound(db, db.pools[pool].(enabled := enabled));
      PutPoolSound(db, db.pools[pool].(expiration := date));
    }
  }

  lemma ChangedMemberSound(db: Store, k: string, date: int)
    requires Sound(db)
    ensures Sound(db.(buckets := db.buckets - {k}))
    ensures k in db.buckets ==> Sound(db.(buckets := db.buckets[k := db.buckets[k].(expiration := date)]))
    ensures k in db.secrets ==> Sound(db.(secrets := db.secrets[k := db.secrets[k].(expiration := date)]))
  {
    hide UsersWell, PoolsWell, DirectoriesMatch, NamesMatch, StatesWell;
  }

  /** Every operation keeps a registry sound, however it ends. */
  lemma StepSound(db: Store, cfg: Config, op: Op, now: int)
    requires Sound(db)
    ensures Sound(Step(db, cfg, op, now).0)
  {
    hide Sound, LoadRow, ProbeMux, CheckAccess;
    match op
    case MakePool(_, _, _, _, _, _, _, _) => MakePoolSound(db, cfg, op, now);
    case MakeBucket(_, _, _, _, _, _) => MakeBucketSound(db, cfg, op, now);
    case LoadUserRow(row) => LoadRowSound(db, row, now);
    case UserInfo(c, _) => UserInfoSound(db, cfg, op, now);
    case ListPool(c, _, pool) => CheckAccessSound(db, cfg, c, pool, false, now);
    case SendProbe(pool, probe) => ProbeMuxSound(db, pool, probe, now);
    case ShowPool(_) =>
    case ExpireToken(uid) => TokensSound(db, db.tokens - {uid});
    case DeletePool(_, _, _) => RequestSound(db, cfg, op, now);
    case DeleteBucket(_, _, _, _) => RequestSound(db, cfg, op, now);
    case MakeSecret(_, _, _, _, _, _, _) => RequestSound(db, cfg, op, now);
    case DeleteSecret(_, _, _, _) => RequestSound(db, cfg, op, now);
    case _ => AdminSound(db, cfg, op, now);
  }

  lemma TokensSound(db: Store, tokens: map<string, (string, string)>)
    requires Sound(db)
    ensures Sound(db.(tokens := tokens))
  {
    hide UsersWell, PoolsWell, DirectoriesMatch, NamesMatch, BucketsWell, SecretsWell, StatesWell;
  }

  // ---- probe keys ----

  /** delete-secret naming the probe key of its pool: nothing forbids it. */
  predicate DeletesProbeKey(db: Store, cfg: Config, op: Op, now: int) {
    && op.DeleteSecret?
    && CheckPoolAccess(db, cfg, op.caller, op.pool, now).1.Okay?
    && GoodSecret(op.key) && op.argsOk
    && op.key in db.secrets && db.secrets[op.key].pool == op.pool
    && op.pool in db.pools && db.pools[op.pool].probeKey == op.key
  }

  lemma {:induction false} LoadNamesProbeKeys(db: Store, command: string, names: seq<string>, now: int)
    requires ProbeKeysPresent(db)
    ensures ProbeKeysPresent(LoadNames(db, command, names, now).0)
    decreases |names|
  {
    hide WithoutUser;
    if names == [] {
    } else if names[0] !in db.users {
      LoadNamesProbeKeys(db, command, names[1..], now);
    } else if command == "DELETE" {
      WithoutUserProbeKeys(db, names[0]);
      LoadNamesProbeKeys(WithoutUser(db, names[0]), command, names[1..], now);
    } else {
      var u := db.users[names[0]].(enabled := command == "ENABLE");
      LoadNamesProbeKeys(AddUser(db, u, now).0, command, names[1..], now);
    }
  }

  lemma LoadRowProbeKeys(db: Store, row: seq<string>, now: int)
    requires ProbeKeysPresent(db)
    ensures ProbeKeysPresent(LoadRow(db, row, now).0)
  {
    hide WithoutUser, GoodUser, LoadNames;
    if row != [] {
      if |row| >= 4 {
        WithoutUserProbeKeys(db, row[1]);
      }
      LoadNamesProbeKeys(db, row[0], row[1..], now);
    }
  }

  lemma AfterStartProbeKeys(db: Store, pool: string, start: Start, now: int)
    requires ProbeKeysPresent(db) && pool in db.pools
    ensures ProbeKeysPresent(AfterStart(db, pool, start, now))
  {
    hide AfterStart;
    AfterStartFrame(db, pool, start, now);
  }

  lemma ProbeMuxProbeKeys(db: Store, pool: string, probe: Probe, now: int)
    requires ProbeKeysPresent(db)
    ensures ProbeKeysPresent(ProbeMux(db, pool, probe, now).0)
  {
    hide ProbeKeysPresent;
    if pool in db.pools && probe.Reached? {
      AfterStartProbeKeys(db, pool, probe.start, now);
    }
  }

  lemma FreshSecretProbeKeys(pools: map<string, Pool>, secrets: map<string, Secret>, k: Secret)
    requires ProbeKeysKept(pools, secrets) && k.accessKey !in secrets
    ensures ProbeKeysKept(pools, secrets[k.accessKey := k])
    ensures forall p: Pool | p.probeKey == k.accessKey && p.pool == k.pool && k.policy.KeyInternal? ::
              ProbeKeysKept(pools[p.pool := p], secrets[k.accessKey := k])
  {
  }

  lemma RegisteredPoolProbeKeys(db: Store, uid: string, pool: string, path: string, gid: string,
                                key: string, secretKey: string, expiration: int, now: int)
    requires ProbeKeysPresent(db) && key !in db.secrets
    ensures ProbeKeysPresent(RegisteredPool(db, uid, pool, path, gid, key, secretKey, expiration, now))
  {
    hide ProbeKeysKept;
    var r := RegisteredPool(db, uid, pool, path, gid, key, secretKey, expiration, now);
    FreshSecretProbeKeys(db.pools, db.secrets, r.secrets[key]);
    assert r.pools == db.pools[pool := r.pools[pool]];
  }

  lemma MakePoolProbeKeys(db: Store, cfg: Config, op: Op, now: int)
    requires ProbeKeysPresent(db) && op.MakePool?
    ensures ProbeKeysPresent(MakePoolEffect(db, cfg, op, now).0)
  {
    hide CheckAccess, ProbeMux, ProbeKeysKept, RegisteredPool;
    CheckAccessFrame(db, cfg, op.caller, "", false, now);
    var db1 := CheckAccess(db, cfg, op.caller, "", false, now).0;
    var name := FirstFresh(op.nameIds, db1.names.Keys);
    var key := FirstFresh(op.keyIds, db1.secrets.Keys);
    if name.Some? && key.Some? {
      var db2 := RegisteredPool(db1, op.caller.uid, name.value, op.path, op.gid, key.value,
                                op.secretKey, now + cfg.poolTerm, now);
      RegisteredPoolProbeKeys(db1, op.caller.uid, name.value, op.path, op.gid, key.value,
                              op.secretKey, now + cfg.poolTerm, now);
      ProbeMuxProbeKeys(db2, name.value, op.probe, now);
    }
  }

  lemma MakeBucketProbeKeys(db: Store, cfg: Config, op: Op, now: int)
    requires ProbeKeysPresent(db) && op.MakeBucket?
    ensures ProbeKeysPresent(MakeBucketEffect(db, cfg, op, now).0)
  {
    hide CheckPoolAccess, ProbeMux, GoodBucket, ProbeKeysKept;
    CheckPoolAccessFrame(db, cfg, op.caller, op.pool, now);
    var db1 := CheckPoolAccess(db, cfg, op.caller, op.pool, now).0;
    var b := Bucket(op.pool, op.bucket, op.bucketPolicy, now + cfg.bucketTerm, now);
    ProbeMuxProbeKeys(db1.(buckets := db1.buckets[op.bucket := b]), op.pool, op.probe, now);
  }

  lemma RemovedSecretProbeKeys(pools: map<string, Pool>, secrets: map<string, Secret>, key: string)
    requires ProbeKeysKept(pools, secrets) && key in secrets
    ensures ProbeKeysKept(pools, secrets - {key}) <==>
            !(secrets[key].pool in pools && pools[secrets[key].pool].probeKey == key)
  {
    var r := secrets - {key};
    if secrets[key].pool in pools && pools[secrets[key].pool].probeKey == key {
      assert pools[secrets[key].pool].probeKey !in r;
    }
  }

  lemma DeleteSecretProbeKeys(db: Store, cfg: Config, op: Op, now: int)
    requires ProbeKeysPresent(db) && op.DeleteSecret?
    ensures ProbeKeysPresent(DeleteSecretEffect(db, cfg, op, now).0) <==> !DeletesProbeKey(db, cfg, op, now)
  {
    hide CheckPoolAccess, GoodSecret, ProbeKeysKept;
    CheckPoolAccessFrame(db, cfg, op.caller, op.pool, now);
    if op.key in db.secrets {
      RemovedSecretProbeKeys(db.pools, db.secrets, op.key);
    }
  }

  lemma UpdatedSecretProbeKeys(pools: map<string, Pool>, secrets: map<string, Secret>, k: Secret, key: string)
    requires ProbeKeysKept(pools, secrets) && key in secrets
    requires k.pool == secrets[key].pool && k.policy == secrets[key].policy
    ensures ProbeKeysKept(pools, secrets[key := k])
  {
  }

  lemma UpdatedPoolProbeKeys(pools: map<string, Pool>, secrets: map<string, Secret>, p: Pool, pool: string)
    requires ProbeKeysKept(pools, secrets) && pool in pools
    requires p.probeKey == pools[pool].probeKey
    ensures ProbeKeysKept(pools[pool := p], secrets)
  {
  }

  /** The probe keys survive every operation but a delete-secret that names one. */
  lemma StepProbeKeys(db: Store, cfg: Config, op: Op, now: int)
    requires Sound(db) && ProbeKeysPresent(db)
    ensures ProbeKeysPresent(Step(db, cfg, op, now).0) <==> !DeletesProbeKey(db, cfg, op, now)
  {
    hide Sound, ProbeKeysPresent, Step, CheckPoolAccess, GoodSecret;
    if op.DeleteSecret? {
      DeleteSecretProbeKeys(db, cfg, op, now);
      DeleteSecretStep(db, cfg, op, now);
    } else if op.MakePool? || op.MakeBucket? || op.MakeSecret? || op.DeletePool? || op.DeleteBucket? {
      RequestProbeKeys(db, cfg, op, now);
    } else if op.UserInfo? || op.ListPool? || op.LoadUserRow? || op.ShowPool? || op.SendProbe? || op.KillPool?
              || op.MuxAccess? || op.ExpireToken? {
      OtherProbeKeys(db, cfg, op, now);
    } else {
      AdminProbeKeys(db, cfg, op, now);
    }
  }

  lemma DeleteSecretStep(db: Store, cfg: Config, op: Op, now: int)
    requires op.DeleteSecret?
    ensures Step(db, cfg, op, now) == DeleteSecretEffect(db, cfg, op, now)
  {
    hide DeleteSecretEffect;
  }

  lemma RequestProbeKeys(db: Store, cfg: Config, op: Op, now: int)
    requires ProbeKeysPresent(db)
    requires op.MakePool? || op.MakeBucket? || op.MakeSecret? || op.DeletePool? || op.DeleteBucket?
    ensures ProbeKeysPresent(Step(db, cfg, op, now).0)
  {
    hide CheckPoolAccess, CheckAccess, WithoutPools, GoodBucket, ProbeKeysKept, MakePoolEffect, MakeBucketEffect;
    match op
    case MakePool(_, _, _, _, _, _, _, _) => MakePoolProbeKeys(db, cfg, op, now);
    case MakeBucket(_, _, _, _, _, _) => MakeBucketProbeKeys(db, cfg, op, now);
    case DeletePool(c, _, pool) =>
      CheckPoolAccessFrame(db, cfg, c, pool, now);
      WithoutPoolsProbeKeys(CheckPoolAccess(db, cfg, c, pool, now).0, {pool});
    case DeleteBucket(c, _, pool, _) => CheckPoolAccessFrame(db, cfg, c, pool, now);
    case MakeSecret(c, _, pool, policy, expiration, ids, secretKey) =>
      CheckPoolAccessFrame(db, cfg, c, pool, now);
      var key := FirstFresh(ids, db.secrets.Keys);
      if key.Some? {
        FreshSecretProbeKeys(db.pools, db.secrets, Secret(pool, key.value, secretKey, policy, expiration, now));
      }
  }

  lemma OtherProbeKeys(db: Store, cfg: Config, op: Op, now: int)
    requires ProbeKeysPresent(db)
    requires op.UserInfo? || op.ListPool? || op.LoadUserRow? || op.ShowPool? || op.SendProbe? || op.KillPool?
             || op.MuxAccess? || op.ExpireToken?
    ensures ProbeKeysPresent(Step(db, cfg, op, now).0)
  {
    hide CheckAccess, LoadRow, ProbeMux, WithoutPools, AfterStart, ProbeKeysKept;
    match op
    case LoadUserRow(row) => LoadRowProbeKeys(db, row, now);
    case KillPool(pool) => WithoutPoolsProbeKeys(db, {pool});
    case MuxAccess(pool, start) => if pool in db.pools { AfterStartProbeKeys(db, pool, start, now); }
    case SendProbe(pool, probe) => ProbeMuxProbeKeys(db, pool, probe, now);
    case UserInfo(c, _) => CheckAccessFrame(db, cfg, c, "", true, now);
    case ListPool(c, _, pool) => CheckAccessFrame(db, cfg, c, pool, false, now);
    case _ =>
  }

  lemma AdminProbeKeys(db: Store, cfg: Config, op: Op, now: int)
    requires ProbeKeysPresent(db)
    requires op.StopUser? || op.StopPool? || op.KillBucket? || op.ExpireUser?
             || op.ExpirePool? || op.ExpireBucket? || op.ExpireSecret?
    ensures ProbeKeysPresent(Step(db, cfg, op, now).0)
  {
    hide ProbeKeysKept;
    match op
    case StopPool(pool, disabling) =>
      if pool in db.pools { UpdatedPoolProbeKeys(db.pools, db.secrets, db.pools[pool].(enabled := !disabling), pool); }
    case ExpirePool(pool, date) =>
      if pool in db.pools { UpdatedPoolProbeKeys(db.pools, db.secrets, db.pools[pool].(expiration := date), pool); }
    case ExpireSecret(key, date) =>
      if key in db.secrets { UpdatedSecretProbeKeys(db.pools, db.secrets, db.secrets[key].(expiration := date), key); }
    case _ =>
  }

  // ---- probes ----

  lemma RemoveAdded<V>(m: map<string, V>, k: string, v: V)
    requires k !in m
    ensures m[k := v] - {k} == m
  {
  }

  lemma ProbeMuxOutcome(db: Store, pool: string, probe: Probe, now: int)
    ensures var (r, s) := ProbeMux(db, pool, probe, now);
            && r == db.(pools := r.pools, states := r.states, poolTimes := r.poolTimes)
            && (s.Okay? <==> pool in db.pools && db.pools[pool].probeKey in db.secrets && probe.Reached? && probe.code == HTTP_OK)
            && (s.Fatal? <==> pool !in db.pools || db.pools[pool].probeKey !in db.secrets)
            && !s.Raised?
            && (s.Rejected? ==> s.code == if probe.Reached? then probe.code else 502)
            && r == if s.Fatal? || probe.Unreached? then db else AfterStart(db, pool, probe.start, now)
  {
    hide AfterStart;
    if pool in db.pools && probe.Reached? {
      AfterStartFrame(db, pool, probe.start, now);
    }
  }
}
