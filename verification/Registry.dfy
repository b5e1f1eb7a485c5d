/**
 The registry as a value: all tables of the keyval-db, the constraints that
 v2/lens3/table.go writes as comments beside each record, and the effect of
 adding and removing users and pools, stated on whole tables.
 */
module Registry {
  import opened Records
  import opened Naming

  datatype Store = Store(
    users: map<string, User>,            // uu:
    claims: map<string, Claim>,          // um:
    pools: map<string, Pool>,            // po:
    directories: map<string, Directory>, // bd:
    names: map<string, PoolName>,        // px:
    buckets: map<string, Bucket>,        // bk:
    secrets: map<string, Secret>,        // sx:
    states: map<string, ApproxState>,    // ps:
    poolTimes: map<string, int>,         // pt:
    userTimes: map<string, int>,         // ut:
    tokens: map<string, (string, string)>) // tn:

  const EmptyStore := Store(map[], map[], map[], map[], map[], map[], map[], map[], map[], map[], map[])

  // ---- the constraints, each on the tables it speaks of ----

  /** Users keep their key; a claim entry names a registered user, and the claim
      written in a user record maps back to that user. */
  ghost predicate UsersWell(users: map<string, User>, claims: map<string, Claim>, userTimes: map<string, int>) {
    && (forall u | u in users :: users[u].uid == u)
    && (forall c | c in claims :: c != "" && claims[c].uid in users)
    && (forall u | u in users && users[u].claim != "" ::
          users[u].claim in claims && claims[users[u].claim].uid == u)
    && userTimes.Keys <= users.Keys
  }

  /** Pools keep their key, which is never "", and have a registered owner. */
  ghost predicate PoolsWell(pools: map<string, Pool>, uids: set<string>) {
    forall p | p in pools :: p != "" && pools[p].pool == p && pools[p].owner in uids
  }

  /** Every pool has its bucket directory, and a directory of a registered pool is
      the one that the pool names; a directory is never "". */
  ghost predicate DirectoriesMatch(pools: map<string, Pool>, directories: map<string, Directory>) {
    && (forall p | p in pools ::
          pools[p].directory in directories && directories[pools[p].directory].pool == p)
    && (forall d | d in directories ::
          && d != ""
          && directories[d].directory == d
          && (directories[d].pool in pools ==> pools[directories[d].pool].directory == d))
  }

  /** Every pool has its name, with the same owner, and a directory is for a name. */
  ghost predicate NamesMatch(pools: map<string, Pool>, directories: map<string, Directory>, names: map<string, PoolName>) {
    && (forall p | p in pools :: p in names && names[p].owner == pools[p].owner)
    && (forall d | d in directories :: directories[d].pool in names)
  }

  /** Buckets keep their key and belong to an existing pool. */
  ghost predicate BucketsWell(buckets: map<string, Bucket>, pools: set<string>) {
    forall b | b in buckets :: buckets[b].bucket == b && buckets[b].pool in pools
  }

  /** Secrets keep their key and belong to an existing pool. */
  ghost predicate SecretsWell(secrets: map<string, Secret>, pools: set<string>) {
    forall k | k in secrets :: secrets[k].accessKey == k && secrets[k].pool in pools
  }

  /** States keep their key, range in {READY, SUSPENDED}, and like the
      timestamps belong to an existing pool. */
  ghost predicate StatesWell(states: map<string, ApproxState>, poolTimes: map<string, int>, pools: set<string>) {
    && (forall p | p in states ::
          && p in pools
          && states[p].pool == p
          && (states[p].state.Ready? || states[p].state.Suspended?))
    && poolTimes.Keys <= pools
  }

  /** What every operation keeps. */
  ghost predicate Sound(db: Store) {
    && UsersWell(db.users, db.claims, db.userTimes)
    && PoolsWell(db.pools, db.users.Keys)
    && DirectoriesMatch(db.pools, db.directories)
    && NamesMatch(db.pools, db.directories, db.names)
    && BucketsWell(db.buckets, db.pools.Keys)
    && SecretsWell(db.secrets, db.pools.Keys)
    && StatesWell(db.states, db.poolTimes, db.pools.Keys)
  }

  /** Every name is the name of a pool. */
  ghost predicate NoOrphans(names: map<string, PoolName>, pools: map<string, Pool>) {
    forall n | n in names :: n in pools
  }

  /** All the written constraints. */
  ghost predicate Integrity(db: Store) {
    Sound(db) && NoOrphans(db.names, db.pools)
  }

  /** Each pool still has the internal key that Registrar probes Mux with. */
  ghost predicate ProbeKeysKept(pools: map<string, Pool>, secrets: map<string, Secret>) {
    forall p | p in pools ::
      && pools[p].probeKey in secrets
      && secrets[pools[p].probeKey].pool == p
      && secrets[pools[p].probeKey].policy.KeyInternal?
  }

  ghost predicate ProbeKeysPresent(db: Store) {
    ProbeKeysKept(db.pools, db.secrets)
  }

  /** The one-to-one reading of claims in v2/doc/design-notes.md: a claim entry
      is always the claim of the user it names. */
  ghost predicate ClaimsOneToOne(db: Store) {
    forall c | c in db.claims ::
      db.claims[c].uid in db.users && db.users[db.claims[c].uid].claim == c
  }

  /** The csrf token of a user is a member of that user. */
  ghost predicate TokensOwned(db: Store) {
    db.tokens.Keys <= db.users.Keys
  }

  // ---- consequences ----

  /** Under integrity names are exactly the pools, and pools and directories are in
      bijection. */
  lemma IntegrityIs(db: Store)
    requires Integrity(db)
    ensures db.names.Keys == db.pools.Keys
    ensures forall p | p in db.pools :: db.pools[p].directory in db.directories && db.directories[db.pools[p].directory].pool == p
    ensures forall d | d in db.directories :: db.directories[d].pool in db.pools && db.pools[db.directories[d].pool].directory == d
  {
  }

  /** No two users hold the same non-empty claim, and no two pools the same directory. */
  lemma SoundIsExclusive(db: Store)
    requires Sound(db)
    ensures forall u, v | u in db.users && v in db.users && u != v && db.users[u].claim != "" ::
              db.users[u].claim != db.users[v].claim
    ensures forall p, q | p in db.pools && q in db.pools && p != q ::
              db.pools[p].directory != db.pools[q].directory
  {
    forall p, q | p in db.pools && q in db.pools && db.pools[p].directory == db.pools[q].directory
      ensures p == q
    {
      assert p == db.directories[db.pools[p].directory].pool;
      assert q == db.directories[db.pools[q].directory].pool;
    }
    forall u, v | u in db.users && v in db.users && db.users[u].claim != ""
                  && db.users[u].claim == db.users[v].claim
      ensures u == v
    {
      assert db.claims[db.users[u].claim].uid == u;
      assert db.claims[db.users[v].claim].uid == v;
    }
  }

  // ---- removal, on whole tables ----

  function DropDirectories(m: map<string, Directory>, gone: set<string>): map<string, Directory> {
    map k | k in m && m[k].pool !in gone :: m[k]
  }

  function DropBuckets(m: map<string, Bucket>, gone: set<string>): map<string, Bucket> {
    map k | k in m && m[k].pool !in gone :: m[k]
  }

  function DropSecrets(m: map<string, Secret>, gone: set<string>): map<string, Secret> {
    map k | k in m && m[k].pool !in gone :: m[k]
  }

  function DropClaims(m: map<string, Claim>, uid: string): map<string, Claim> {
    map k | k in m && m[k].uid != uid :: m[k]
  }

  /** Everything that belongs to a pool in `gone` disappears; the rest stays. */
  function WithoutPools(db: Store, gone: set<string>): Store {
    db.(
    pools := db.pools - gone,
    names := db.names - gone,
    states := db.states - gone,
    poolTimes := db.poolTimes - gone,
    directories := DropDirectories(db.directories, gone),
    buckets := DropBuckets(db.buckets, gone),
    secrets := DropSecrets(db.secrets, gone))
  }

  function PoolsOf(db: Store, uid: string): set<string> {
    set p | p in db.pools && db.pools[p].owner == uid
  }

  /** A user disappears with its claims, its timestamp and all its pools. */
  function WithoutUser(db: Store, uid: string): Store {
    WithoutPools(db, PoolsOf(db, uid)).(
    users := db.users - {uid},
    claims := DropClaims(db.claims, uid),
    userTimes := db.userTimes - {uid})
  }

  lemma WithoutPoolsDirectories(pools: map<string, Pool>, directories: map<string, Directory>, gone: set<string>)
    requires DirectoriesMatch(pools, directories)
    ensures DirectoriesMatch(pools - gone, DropDirectories(directories, gone))
  {
    var r := pools - gone;
    forall p | p in r
      ensures r[p].directory in DropDirectories(directories, gone)
    {
      assert directories[pools[p].directory].pool == p;
    }
  }

  lemma WithoutPoolsSound(db: Store, gone: set<string>)
    requires Sound(db)
    ensures Sound(WithoutPools(db, gone))
  {
    WithoutPoolsDirectories(db.pools, db.directories, gone);
  }

  lemma WithoutPoolsProbeKeys(db: Store, gone: set<string>)
    requires ProbeKeysPresent(db)
    ensures ProbeKeysPresent(WithoutPools(db, gone))
  {
  }

  lemma WithoutPoolsFrame(db: Store, gone: set<string>)
    ensures var r := WithoutPools(db, gone);
            r.users == db.users && r.claims == db.claims && r.userTimes == db.userTimes && r.tokens == db.tokens
  {
  }

  lemma WithoutPoolsNothing(db: Store)
    ensures WithoutPools(db, {}) == db
  {
    assert DropDirectories(db.directories, {}) == db.directories;
    assert DropBuckets(db.buckets, {}) == db.buckets;
    assert DropSecrets(db.secrets, {}) == db.secrets;
  }

  lemma DropsCompose(db: Store, a: set<string>, b: set<string>)
    ensures DropDirectories(DropDirectories(db.directories, a), b) == DropDirectories(db.directories, a + b)
    ensures DropBuckets(DropBuckets(db.buckets, a), b) == DropBuckets(db.buckets, a + b)
    ensures DropSecrets(DropSecrets(db.secrets, a), b) == DropSecrets(db.secrets, a + b)
  {
  }

  lemma MinusCompose<V>(m: map<string, V>, a: set<string>, b: set<string>)
    ensures m - a - b == m - (a + b)
  {
  }

  lemma WithoutPoolsCompose(db: Store, a: set<string>, b: set<string>)
    ensures WithoutPools(WithoutPools(db, a), b) == WithoutPools(db, a + b)
  {
    DropsCompose(db, a, b);
    MinusCompose(db.pools, a, b);
    MinusCompose(db.names, a, b);
    MinusCompose(db.states, a, b);
    MinusCompose(db.poolTimes, a, b);
  }

  lemma WithoutUserSound(db: Store, uid: string)
    requires Sound(db)
    ensures Sound(WithoutUser(db, uid))
  {
    hide DirectoriesMatch, NamesMatch, BucketsWell, SecretsWell, StatesWell;
    WithoutPoolsSound(db, PoolsOf(db, uid));
    var r := WithoutUser(db, uid);
    assert PoolsWell(r.pools, r.users.Keys);
    assert UsersWell(r.users, r.claims, r.userTimes);
  }

  lemma WithoutUserProbeKeys(db: Store, uid: string)
    requires ProbeKeysPresent(db)
    ensures ProbeKeysPresent(WithoutUser(db, uid))
  {
    WithoutPoolsProbeKeys(db, PoolsOf(db, uid));
  }

  lemma WithoutUserUnknown(db: Store, uid: string)
    requires Sound(db) && uid !in db.users
    ensures WithoutUser(db, uid) == db
  {
    assert PoolsOf(db, uid) == {};
    WithoutPoolsNothing(db);
    assert DropClaims(db.claims, uid) == db.claims;
    assert db.users - {uid} == db.users && db.userTimes - {uid} == db.userTimes;
  }

  /** Removing pools leaves no trace of them in any table ... */
  lemma WithoutPoolsLeavesNothing(db: Store, gone: set<string>)
    ensures var r := WithoutPools(db, gone);
            && r.pools.Keys !! gone && r.names.Keys !! gone
            && r.states.Keys !! gone && r.poolTimes.Keys !! gone
            && (forall d | d in r.directories :: r.directories[d].pool !in gone)
            && (forall b | b in r.buckets :: r.buckets[b].pool !in gone)
            && (forall k | k in r.secrets :: r.secrets[k].pool !in gone)
  {
  }

  /** Every entry of the pool is as it was. */
  ghost predicate KeepsPool(db: Store, r: Store, p: string) {
    && Get(r.pools, p) == Get(db.pools, p)
    && Get(r.names, p) == Get(db.names, p)
    && Get(r.states, p) == Get(db.states, p)
    && Get(r.poolTimes, p) == Get(db.poolTimes, p)
    && (forall d | d in db.directories && db.directories[d].pool == p ::
          Get(r.directories, d) == Some(db.directories[d]))
    && (forall b | b in db.buckets && db.buckets[b].pool == p ::
          Get(r.buckets, b) == Some(db.buckets[b]))
    && (forall k | k in db.secrets && db.secrets[k].pool == p ::
          Get(r.secrets, k) == Some(db.secrets[k]))
  }

  /** ... and leaves every entry of every other pool as it was. */
  lemma WithoutPoolsKeepsOthers(db: Store, gone: set<string>, p: string)
    requires p !in gone
    ensures var r := WithoutPools(db, gone);
            && KeepsPool(db, r, p)
            && r.users == db.users && r.claims == db.claims && r.userTimes == db.userTimes
  {
  }

  /** Removing a user leaves no entry of it, and no pool of it in any table, and all
      other entries as they were; the only table it is not cleared from is the csrf
      tokens. */
  lemma WithoutUserIsExact(db: Store, uid: string)
    requires Sound(db)
    ensures var r := WithoutUser(db, uid);
            && r.users == db.users - {uid}
            && r.userTimes == db.userTimes - {uid}
            && (forall c :: c in r.claims <==> c in db.claims && db.claims[c].uid != uid)
            && (forall c | c in r.claims :: r.claims[c] == db.claims[c])
            && (forall p :: p in r.pools <==> p in db.pools && db.pools[p].owner != uid)
            && (forall p | p in r.pools :: KeepsPool(db, r, p))
            && r.names == db.names - PoolsOf(db, uid)
            && (NoOrphans(db.names, db.pools) ==> NoOrphans(r.names, r.pools))
            && r.states.Keys <= r.pools.Keys && r.poolTimes.Keys <= r.pools.Keys
            && (forall d :: d in r.directories <==> d in db.directories && db.directories[d].pool !in PoolsOf(db, uid))
            && (forall d | d in r.directories :: r.directories[d] == db.directories[d])
            && (forall b | b in r.buckets :: r.buckets[b].pool in r.pools)
            && (forall k | k in r.secrets :: r.secrets[k].pool in r.pools)
            && r.tokens == db.tokens
  {
    hide Sound, KeepsPool;
    WithoutUserSound(db, uid);
    MembersHavePools(WithoutUser(db, uid));
    var r, gone := WithoutUser(db, uid), PoolsOf(db, uid);
    assert forall p :: p in gone <==> p in db.pools && db.pools[p].owner == uid;
    forall p | p in r.pools ensures KeepsPool(db, r, p) {
      WithoutPoolsKeepsOthers(db, gone, p);
      SamePools(db, WithoutPools(db, gone), r, p);
    }
    hide DropBuckets, DropSecrets;
  }

  lemma SamePools(db: Store, m: Store, r: Store, p: string)
    requires KeepsPool(db, m, p) && r == m.(users := r.users, claims := r.claims, userTimes := r.userTimes)
    ensures KeepsPool(db, r, p)
  {
  }

  lemma MembersHavePools(db: Store)
    requires Sound(db)
    ensures db.pools.Keys <= db.names.Keys && db.states.Keys <= db.pools.Keys && db.poolTimes.Keys <= db.pools.Keys
    ensures forall d | d in db.directories :: db.directories[d].pool in db.names
    ensures forall b | b in db.buckets :: db.buckets[b].pool in db.pools
    ensures forall k | k in db.secrets :: db.secrets[k].pool in db.pools
  {
    hide UsersWell, PoolsWell;
  }

  /** Table.go calls the token a member of the user, but removing a user does not
      remove it: the constraint survives exactly when the user has no token. */
  lemma TokensOwnedAfterRemoval(db: Store, uid: string)
    requires TokensOwned(db)
    ensures TokensOwned(WithoutUser(db, uid)) <==> uid !in db.tokens
  {
    var r := WithoutUser(db, uid);
    if uid in db.tokens {
      assert uid in r.tokens.Keys && uid !in r.users.Keys;
    } else {
      assert forall u | u in r.tokens.Keys :: u in db.users.Keys && u != uid;
    }
  }

  // ---- adding a user ----

  predicate ClaimConflict(db: Store, u: User) {
    u.claim != "" && u.claim in db.claims && db.claims[u.claim].uid != u.uid
  }

  function AddUser(db: Store, u: User, now: int): (Store, Status) {
    if u.uid == "" || u.groups == [] then (db, Fatal)
    else if ClaimConflict(db, u) then (db, Raised(500))
    else
      (db.(
       users := db.users[u.uid := u],
       claims := if u.claim == "" then db.claims
       else db.claims[u.claim := Claim(u.uid, now)]),
       Okay)
  }

  lemma AddUserClaims(users: map<string, User>, claims: map<string, Claim>, userTimes: map<string, int>,
                      u: User, now: int)
    requires UsersWell(users, claims, userTimes)
    requires u.claim != "" && u.claim in claims ==> claims[u.claim].uid == u.uid
    ensures UsersWell(users[u.uid := u],
                      if u.claim == "" then claims else claims[u.claim := Claim(u.uid, now)],
                      userTimes)
  {
    var users' := users[u.uid := u];
    var claims' := if u.claim == "" then claims else claims[u.claim := Claim(u.uid, now)];
    forall v | v in users' && users'[v].claim != ""
      ensures users'[v].claim in claims' && claims'[users'[v].claim].uid == v
    {
      assert v != u.uid ==> claims[users[v].claim].uid == v;
    }
  }

  lemma MoreOwners(pools: map<string, Pool>, uids: set<string>, more: set<string>)
    requires PoolsWell(pools, uids) && uids <= more
    ensures PoolsWell(pools, more)
  {
  }

  lemma NoConflictIs(db: Store, u: User)
    requires !ClaimConflict(db, u)
    ensures u.claim != "" && u.claim in db.claims ==> db.claims[u.claim].uid == u.uid
  {
  }

  lemma AddUserSound(db: Store, u: User, now: int)
    requires Sound(db)
    ensures Sound(AddUser(db, u, now).0)
  {
    hide UsersWell, DirectoriesMatch, NamesMatch, BucketsWell, SecretsWell, StatesWell, ClaimConflict;
    if !ClaimConflict(db, u) {
      NoConflictIs(db, u);
      AddUserClaims(db.users, db.claims, db.userTimes, u, now);
      MoreOwners(db.pools, db.users.Keys, db.users[u.uid := u].Keys);
      hide PoolsWell;
    }
  }

  lemma AddUserFrame(db: Store, u: User, now: int)
    ensures var r := AddUser(db, u, now).0; r == db.(users := r.users, claims := r.claims)
  {
    hide ClaimConflict;
    if u.uid == "" || u.groups == [] || ClaimConflict(db, u) {
      assert AddUser(db, u, now).0 == db;
    } else {
      var claims := if u.claim == "" then db.claims else db.claims[u.claim := Claim(u.uid, now)];
      assert AddUser(db, u, now).0 == db.(users := db.users[u.uid := u], claims := claims);
    }
  }

  /** What add_user accepts. */
  predicate Acceptable(db: Store, u: User) {
    u.uid != "" && u.groups != [] && !ClaimConflict(db, u)
  }

  /** Adding or modifying a user keeps claims one-to-one exactly unless it is accepted
      and replaces a non-empty claim by another one: the old entry is never removed. */
  lemma OneToOneAfterAddUser(db: Store, u: User, now: int)
    requires Sound(db) && ClaimsOneToOne(db)
    ensures AddUser(db, u, now).1.Okay? <==> Acceptable(db, u)
    ensures ClaimsOneToOne(AddUser(db, u, now).0) <==>
            !(Acceptable(db, u) && u.uid in db.users && db.users[u.uid].claim != "" && db.users[u.uid].claim != u.claim)
  {
    var r := AddUser(db, u, now).0;
    if !Acceptable(db, u) {
      assert r == db;
    } else if u.uid in db.users && db.users[u.uid].claim != "" && db.users[u.uid].claim != u.claim {
      var stale := db.users[u.uid].claim;
      assert stale in r.claims && r.claims[stale].uid == u.uid;
      assert r.users[r.claims[stale].uid].claim != stale;
    } else {
      forall c | c in r.claims
        ensures r.claims[c].uid in r.users && r.users[r.claims[c].uid].claim == c
      {
        if c != u.claim {
          assert c in db.claims;
        }
      }
    }
  }

  /** A concrete failure: a user whose claim is changed from "a" to "b" keeps both entries. */
  lemma ModifyBreaksOneToOne()
    ensures exists db: Store, u: User ::
              && Sound(db) && ClaimsOneToOne(db)
              && AddUser(db, u, 0).1.Okay?
              && !ClaimsOneToOne(AddUser(db, u, 0).0)
  {
    var was := User("x", "a", ["g"], true, false, 0, 0);
    var db := EmptyStore.(users := map["x" := was], claims := map["a" := Claim("x", 0)]);
    var u := was.(claim := "b");
    assert Sound(db) && ClaimsOneToOne(db);
    assert "a" != "b";
    OneToOneAfterAddUser(db, u, 0);
    assert !ClaimsOneToOne(AddUser(db, u, 0).0);
  }

  // ---- unique identifiers ----

  const ID_LIMIT := 30

  /** What the generators yield in the at most thirty rounds of the loop. */
  type NameIds = s: seq<string> | |s| == ID_LIMIT && forall i | 0 <= i < |s| :: GoodPool(s[i])
    witness seq(ID_LIMIT, i => "aaaaaaaaaaaaaaaa")

  type KeyIds = s: seq<string> | |s| == ID_LIMIT && forall i | 0 <= i < |s| :: GoodSecret(s[i])
    witness seq(ID_LIMIT, i => "aaaaaaaaaaaaaaaaaaaa")

  /** The first generated id that is not a key yet. */
  function FirstFresh(ids: seq<string>, used: set<string>): (r: Option<string>)
    ensures r.Some? ==> exists i | 0 <= i < |ids| ::
              ids[i] == r.value && r.value !in used && forall j | 0 <= j < i :: ids[j] in used
    ensures r.None? ==> forall id | id in ids :: id in used
  {
    if ids == [] then None
    else if ids[0] !in used then Some(ids[0])
    else FirstFresh(ids[1..], used)
  }
}
