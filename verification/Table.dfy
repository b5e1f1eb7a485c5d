/**
 The keyval-db as an object: the accessors of v2/lens3/table.go and
 v2/lens3/poolprop.go and the cascades of v2/lens3/registrar.go that change it
 entry by entry, each proved against the whole-table effects of `Registry`.
 */
module Tables {
  import opened Records
  import opened Registry
  import opened Sequences
  import opened Naming
  import H = Handlers

  /** Pool_prop: what gather_pool_prop collects about a pool. */
  datatype PoolProp = PoolProp(pool: Pool, buckets: seq<Bucket>, secrets: seq<Secret>,
                               user: User, state: PoolState, reason: Reason)

  /** How gathering ends: no such pool, a fatal error, an inconsistent pool that
      was deregistered on the spot, or the description. */
  datatype Gathered = NoPool | Broken | Cleaned(gone: PoolProp) | Found(prop: PoolProp)

  /** What a user's host account looks like now, for check_user_is_active. */
  datatype World = World(now: int, accounts: set<string>)

  predicate UserActive(users: map<string, User>, uid: string, w: World) {
    uid in users && users[uid].enabled && w.now < users[uid].expiration && uid in w.accounts
  }

  /** check_pool_is_usable. */
  function PoolUsable(users: map<string, User>, p: Pool, w: World): (r: (PoolState, Reason))
    ensures r.0.Ready? || r.0.Disabled? || r.0.Inoperable?
    ensures r.0.Ready? <==> !p.inoperable && p.enabled && w.now < p.expiration && UserActive(users, p.owner, w)
  {
    if p.inoperable then (Inoperable, p.reason)
    else if !UserActive(users, p.owner, w) then (Disabled, "user inactive")
    else if !p.enabled then (Disabled, "pool offline")
    else if !(w.now < p.expiration) then (Disabled, "pool expired")
    else (Ready, "-")
  }

  /** check_pool_is_suspened; None is `panic(nil)`. */
  function PoolSuspended(states: map<string, ApproxState>, pool: string): Option<(PoolState, Reason)> {
    if pool !in states then Some((Ready, "-"))
    else if states[pool].state.Ready? || states[pool].state.Suspended? then
      Some((states[pool].state, states[pool].reason))
    else None
  }

  /** combine_pool_state; None is `panic(nil)`. */
  function CombineState(a: (PoolState, Reason), b: (PoolState, Reason)): Option<(PoolState, Reason)> {
    match a.0
    case Initial => None
    case Suspended => None
    case Ready => Some(if b.0.Suspended? then b else a)
    case Disabled => Some(a)
    case Inoperable => Some(a)
  }

  /** What is shown of a pool: INOPERABLE with the reason of the mark; else DISABLED for
      an inactive owner, a pool that is offline or expired, in this order; else SUSPENDED
      with the recorded reason while that is recorded; else READY. */
  ghost predicate Shows(db: Store, pool: string, w: World, state: PoolState, reason: Reason)
    requires pool in db.pools
  {
    var p := db.pools[pool];
    var active := p.owner in db.users && db.users[p.owner].enabled && w.now < db.users[p.owner].expiration && p.owner in w.accounts;
    var usable := !p.inoperable && active && p.enabled && w.now < p.expiration;
    var suspended := pool in db.states && db.states[pool].state.Suspended?;
    && (state.Inoperable? <==> p.inoperable)
    && (state.Disabled? <==> !p.inoperable && !(active && p.enabled && w.now < p.expiration))
    && (state.Suspended? <==> usable && suspended)
    && (state.Ready? <==> usable && !suspended)
    && (state.Inoperable? ==> reason == p.reason)
    && (state.Disabled? ==>
          reason == if !active then "user inactive" else if !p.enabled then "pool offline" else "pool expired")
    && (state.Suspended? ==> reason == db.states[pool].reason)
    && (state.Ready? ==> reason == "-")
  }

  /** The combined state is the one to be shown, and no panic branch is met while the
      approximate state is in range. */
  lemma CombinedShows(db: Store, pool: string, w: World)
    requires pool in db.pools && PoolSuspended(db.states, pool).Some?
    ensures var r := CombineState(PoolUsable(db.users, db.pools[pool], w), PoolSuspended(db.states, pool).value);
            r.Some? && Shows(db, pool, w, r.value.0, r.value.1)
  {
  }

  /** So in a sound registry something is always shown. */
  lemma ReportedStateIsDefined(db: Store, pool: string, w: World)
    requires Sound(db) && pool in db.pools
    ensures PoolSuspended(db.states, pool).Some?
    ensures var r := CombineState(PoolUsable(db.users, db.pools[pool], w), PoolSuspended(db.states, pool).value);
            r.Some? && Shows(db, pool, w, r.value.0, r.value.1)
  {
    hide UsersWell, PoolsWell, DirectoriesMatch, NamesMatch, BucketsWell, SecretsWell;
    assert PoolSuspended(db.states, pool).Some?;
    CombinedShows(db, pool, w);
    hide Shows;
  }

  // ---- what removal by a gathered description does, in any state ----

  function BucketNames(bs: seq<Bucket>): set<string> { set b | b in bs :: b.bucket }

  function SecretNames(ks: seq<Secret>): set<string> { set k | k in ks :: k.accessKey }

  function Deregistered(db: Store, prop: PoolProp): Store {
    db.(
    directories := if prop.pool.directory == "" then db.directories else db.directories - {prop.pool.directory},
    buckets := db.buckets - BucketNames(prop.buckets),
    secrets := db.secrets - SecretNames(prop.secrets),
    states := db.states - {prop.pool.pool},
    poolTimes := db.poolTimes - {prop.pool.pool},
    pools := db.pools - {prop.pool.pool},
    names := db.names - {prop.pool.pool})
  }

  /** The description lists exactly the pool's own members. */
  ghost predicate Describes(prop: PoolProp, db: Store, pool: string) {
    && pool in db.pools && prop.pool == db.pools[pool] && prop.pool.pool == pool
    && prop.pool.owner in db.users && prop.user == db.users[prop.pool.owner]
    && (forall b :: b in prop.buckets <==> b in db.buckets.Values && b.pool == pool)
    && (forall k :: k in prop.secrets <==> k in db.secrets.Values && k.pool == pool)
  }

  /** The pool has the one directory entry it names, or names none and has none. */
  ghost predicate DirectoryRight(pools: map<string, Pool>, directories: map<string, Directory>, pool: string)
    requires pool in pools
  {
    var d := pools[pool].directory;
    && (d == "" || d in directories)
    && forall e | e in directories :: directories[e].pool == pool <==> e == d
  }

  /** The directory a pool names is an entry of it, or it names none and has none. */
  ghost predicate HasDirectory(pools: map<string, Pool>, directories: map<string, Directory>, pool: string)
    requires pool in pools
  {
    var d := pools[pool].directory;
    || (d in directories && directories[d].pool == pool)
    || (d == "" && forall e | e in directories :: directories[e].pool != pool)
  }

  /** Gathering panics: a key is not its record's own, the owner is missing, or the
      shown state is out of range. */
  ghost predicate Unreadable(db: Store, pool: string)
    requires pool in db.pools
  {
    || db.pools[pool].pool != pool
    || (exists b | b in db.buckets :: db.buckets[b].bucket != b)
    || db.pools[pool].owner !in db.users
    || PoolSuspended(db.states, pool).None?
  }

  /** On a consistent registry, removal by description is removal of the pool. */
  lemma DeregisteredIsWithout(db: Store, prop: PoolProp, pool: string)
    requires Sound(db) && Describes(prop, db, pool)
    ensures Deregistered(db, prop) == WithoutPools(db, {pool})
  {
    DeregisteredDirectories(db, pool);
    DeregisteredBuckets(db, prop, pool);
    DeregisteredSecrets(db, prop, pool);
    assert prop.pool.pool == pool;
  }

  lemma DeregisteredDirectories(db: Store, pool: string)
    requires Sound(db) && pool in db.pools
    ensures db.pools[pool].directory != ""
    ensures db.directories - {db.pools[pool].directory} == DropDirectories(db.directories, {pool})
  {
    hide UsersWell, NamesMatch, BucketsWell, SecretsWell, StatesWell;
  }

  lemma DeregisteredBuckets(db: Store, prop: PoolProp, pool: string)
    requires BucketsWell(db.buckets, db.pools.Keys) && Describes(prop, db, pool)
    ensures db.buckets - BucketNames(prop.buckets) == DropBuckets(db.buckets, {pool})
  {
    forall k | k in db.buckets ensures k in BucketNames(prop.buckets) <==> db.buckets[k].pool == pool {
      assert db.buckets[k] in db.buckets.Values;
    }
  }

  lemma DeregisteredSecrets(db: Store, prop: PoolProp, pool: string)
    requires SecretsWell(db.secrets, db.pools.Keys) && Describes(prop, db, pool)
    ensures db.secrets - SecretNames(prop.secrets) == DropSecrets(db.secrets, {pool})
  {
    forall k | k in db.secrets ensures k in SecretNames(prop.secrets) <==> db.secrets[k].pool == pool {
      assert db.secrets[k] in db.secrets.Values;
    }
  }

  /** After the scan of deregister_user, delete_user finds no claim left to delete. */
  lemma ClaimsAreGone(users: map<string, User>, claims: map<string, Claim>, userTimes: map<string, int>, uid: string)
    requires UsersWell(users, claims, userTimes)
    ensures var left := DropClaims(claims, uid);
            && DropClaims(left, uid) == left
            && (uid in users && users[uid].claim != "" ==> DropClaims(left - {users[uid].claim}, uid) == left)
  {
  }

  class Table {
    var users: map<string, User>
    var claims: map<string, Claim>
    var pools: map<string, Pool>
    var directories: map<string, Directory>
    var names: map<string, PoolName>
    var buckets: map<string, Bucket>
    var secrets: map<string, Secret>
    var states: map<string, ApproxState>
    var poolTimes: map<string, int>
    var userTimes: map<string, int>
    var tokens: map<string, (string, string)>

    ghost function View(): Store
      reads this
    {
      Store(users, claims, pools, directories, names, buckets, secrets, states, poolTimes, userTimes, tokens)
    }

    constructor ()
      ensures View() == EmptyStore
    {
      users, claims, pools, directories, names := map[], map[], map[], map[], map[];
      buckets, secrets, states, poolTimes, userTimes, tokens := map[], map[], map[], map[], map[], map[];
    }

    /** scan_table: every key once, in no particular order. */
    static method Scan<V>(m: map<string, V>) returns (keys: seq<string>)
      ensures NoDuplicates(keys)
      ensures forall k :: k in keys <==> k in m
    {
      keys := [];
      var rest := m.Keys;
      while rest != {}
        invariant NoDuplicates(keys)
        invariant forall k :: k in keys <==> k in m && k !in rest
        invariant rest <= m.Keys
        decreases |rest|
      {
        var k :| k in rest;
        keys := keys + [k];
        rest := rest - {k};
      }
    }

    // ---- listing ----

    /** list_buckets: the buckets of a pool, or all for ""; None is a failed assertion. */
    method ListBuckets(pool: string) returns (r: Option<seq<Bucket>>)
      ensures r.Some? <==> forall k | k in buckets :: buckets[k].bucket == k
      ensures r.Some? ==> NoDuplicates(r.value)
      ensures r.Some? ==> forall b :: b in r.value <==> b in buckets.Values && (pool == "" || b.pool == pool)
    {
      var keys := Scan(buckets);
      var list: seq<Bucket> := [];
      var i := 0;
      while i < |keys|
        invariant 0 <= i <= |keys|
        invariant forall j | 0 <= j < i :: buckets[keys[j]].bucket == keys[j]
        invariant forall b :: b in list <==> b.bucket in keys[..i] && buckets[b.bucket] == b && (pool == "" || b.pool == pool)
        invariant NoDuplicates(list)
      {
        var d := buckets[keys[i]];
        if d.bucket != keys[i] {
          assert keys[i] in buckets;
          return None;
        }
        assert keys[..i + 1] == keys[..i] + [keys[i]];
        if pool == "" || d.pool == pool {
          list := list + [d];
        }
        i := i + 1;
      }
      assert keys[..i] == keys;
      r := Some(list);
    }

    /** list_secrets_of_pool, the probe key included. */
    method ListSecrets(pool: string) returns (list: seq<Secret>)
      ensures forall k :: k in list <==> k in secrets.Values && k.pool == pool
      ensures (forall k | k in secrets :: secrets[k].accessKey == k) ==> NoDuplicates(list)
    {
      var keys := Scan(secrets);
      list := [];
      var i := 0;
      while i < |keys|
        invariant 0 <= i <= |keys|
        invariant forall k | k in list :: exists j :: 0 <= j < i && secrets[keys[j]] == k && k.pool == pool
        invariant forall j | 0 <= j < i && secrets[keys[j]].pool == pool :: secrets[keys[j]] in list
        invariant (forall k | k in secrets :: secrets[k].accessKey == k) ==> NoDuplicates(list)
      {
        var d := secrets[keys[i]];
        if d.pool == pool {
          list := list + [d];
        }
        i := i + 1;
      }
      forall k ensures k in list <==> k in secrets.Values && k.pool == pool {
        if k in secrets.Values && k.pool == pool {
          var key :| key in secrets && secrets[key] == k;
          assert key in keys;
        }
      }
    }

    /** find_bucket_directory_of_pool: some directory of the pool, or "". */
    method FindDirectory(pool: string) returns (path: string)
      ensures || (path in directories && directories[path].pool == pool)
              || (path == "" && forall d | d in directories :: directories[d].pool != pool)
    {
      var keys := Scan(directories);
      var i := 0;
      while i < |keys|
        invariant 0 <= i <= |keys|
        invariant forall j | 0 <= j < i :: directories[keys[j]].pool != pool
      {
        if directories[keys[i]].pool == pool {
          return keys[i];
        }
        i := i + 1;
      }
      path := "";
    }

    /** list_pools_of_user. */
    method ListPoolsOfUser(uid: string) returns (list: seq<string>)
      ensures NoDuplicates(list)
      ensures forall p :: p in list <==> p in PoolsOf(View(), uid)
    {
      var keys := Scan(pools);
      list := [];
      var i := 0;
      while i < |keys|
        invariant 0 <= i <= |keys|
        invariant forall p :: p in list <==> p in keys[..i] && pools[p].owner == uid
        invariant NoDuplicates(list)
      {
        assert keys[..i + 1] == keys[..i] + [keys[i]];
        if pools[keys[i]].owner == uid {
          list := list + [keys[i]];
        }
        i := i + 1;
      }
      assert keys[..i] == keys;
    }

    // ---- removing a pool ----

    method DeleteBuckets(list: seq<Bucket>)
      modifies `buckets
      ensures buckets == old(buckets) - BucketNames(list)
    {
      var i := 0;
      while i < |list|
        invariant 0 <= i <= |list|
        invariant buckets == old(buckets) - BucketNames(list[..i])
      {
        assert BucketNames(list[..i + 1]) == BucketNames(list[..i]) + {list[i].bucket};
        buckets := buckets - {list[i].bucket};
        i := i + 1;
      }
      assert list[..i] == list;
    }

    method DeleteSecrets(list: seq<Secret>)
      modifies `secrets
      ensures secrets == old(secrets) - SecretNames(list)
    {
      var i := 0;
      while i < |list|
        invariant 0 <= i <= |list|
        invariant secrets == old(secrets) - SecretNames(list[..i])
      {
        assert SecretNames(list[..i + 1]) == SecretNames(list[..i]) + {list[i].accessKey};
        secrets := secrets - {list[i].accessKey};
        i := i + 1;
      }
      assert list[..i] == list;
    }

    /** deregister_pool_by_prop. */
    method DeregisterByProp(prop: PoolProp)
      requires forall b | b in prop.buckets :: b.pool == prop.pool.pool
      requires forall k | k in prop.secrets :: k.pool == prop.pool.pool
      modifies this
      ensures View() == Deregistered(old(View()), prop)
    {
      hide BucketNames, SecretNames;
      var pool := prop.pool.pool;
      if prop.pool.directory != "" {
        directories := directories - {prop.pool.directory};
      }
      DeleteBuckets(prop.buckets);
      DeleteSecrets(prop.secrets);
      DeletePool(pool);
    }

    /** The entries of a pool itself. */
    method DeletePool(pool: string)
      modifies `states, `poolTimes, `pools, `names
      ensures states == old(states) - {pool} && poolTimes == old(poolTimes) - {pool}
      ensures pools == old(pools) - {pool} && names == old(names) - {pool}
    {
      states := states - {pool};
      poolTimes := poolTimes - {pool};
      pools := pools - {pool};
      names := names - {pool};
    }

    /** gather_pool_prop, in any state of the registry; a pool is never named "". */
    method GatherPoolProp(pool: string, w: World) returns (r: Gathered)
      requires "" !in pools
      modifies this
      ensures r.NoPool? <==> pool !in old(pools)
      ensures r.Found? ==> Describes(r.prop, old(View()), pool) && Shows(old(View()), pool, w, r.prop.state, r.prop.reason)
      ensures r.Cleaned? ==> Describes(r.gone, old(View()), pool) && View() == Deregistered(old(View()), r.gone)
      ensures r.Broken? <==> pool in old(pools) && Unreadable(old(View()), pool)
      ensures r.Found? ==> HasDirectory(old(pools), old(directories), pool)
      ensures pool in old(pools) && !Unreadable(old(View()), pool) && !HasDirectory(old(pools), old(directories), pool) ==>
                r.Cleaned?
      ensures r.Cleaned? ==> !DirectoryRight(old(pools), old(directories), pool)
      ensures r.Cleaned? ==> forall b | b in old(buckets) :: old(buckets)[b].bucket == b
      ensures !r.Cleaned? ==> View() == old(View())
      ensures pool in old(pools) && old(pools)[pool].owner !in old(users) ==> r.Broken?
      ensures Sound(old(View())) && pool in old(pools) ==>
                r.Found? && NoDuplicates(r.prop.buckets) && NoDuplicates(r.prop.secrets)
    {
      if pool !in pools {
        return NoPool;
      }
      var p := pools[pool];
      if p.pool != pool {
        return Broken;
      }
      var path := FindDirectory(pool);
      var inconsistent := p.directory != path;
      var bs := ListBuckets(pool);
      if bs.None? {
        return Broken;
      }
      var ks := ListSecrets(pool);
      if p.owner !in users {
        return Broken;
      }
      var suspended := PoolSuspended(states, pool);
      if suspended.None? {
        return Broken;
      }
      CombinedShows(View(), pool, w);
      hide Shows;
      var state := CombineState(PoolUsable(users, p, w), suspended.value);
      if state.None? {
        return Broken;
      }
      var prop := PoolProp(p, bs.value, ks, users[p.owner], state.value.0, state.value.1);
      if inconsistent {
        DeregisterByProp(prop);
        return Cleaned(prop);
      }
      r := Found(prop);
    }

    /** deregister_pool; the status is Fatal only on an inconsistent registry. */
    method DeregisterPool(pool: string, w: World) returns (ok: Status)
      requires "" !in pools
      modifies this
      ensures pool !in old(pools) ==> ok == Rejected(404) && View() == old(View())
      ensures Sound(old(View())) && pool in old(pools) ==>
                ok.Okay? && View() == WithoutPools(old(View()), {pool})
      ensures ok.Fatal? ==> View() == old(View())
    {
      var g := GatherPoolProp(pool, w);
      match g
      case NoPool => return Rejected(404);
      case Broken => return Fatal;
      case Cleaned(_) => return Rejected(404);
      case Found(prop) =>
        DeregisterByProp(prop);
        if Sound(old(View())) {
          DeregisteredIsWithout(old(View()), prop, pool);
        }
        ok := Okay;
    }

    // ---- users ----

    /** clear_user_claim: scans all claims and deletes those of one user. */
    method ClearUserClaim(uid: string)
      modifies `claims
      ensures claims == DropClaims(old(claims), uid)
    {
      var keys := Scan(claims);
      var i := 0;
      while i < |keys|
        invariant 0 <= i <= |keys|
        invariant forall c :: c in claims <==> c in old(claims) && (c in keys[i..] || old(claims)[c].uid != uid)
        invariant forall c | c in claims :: claims[c] == old(claims)[c]
      {
        assert keys[i..] == [keys[i]] + keys[i + 1..];
        assert keys[i] !in keys[i + 1..];
        if claims[keys[i]].uid == uid {
          claims := claims - {keys[i]};
        }
        i := i + 1;
      }
    }

    /** delete_user. */
    method DeleteUser(uid: string)
      modifies `users, `claims
      ensures users == old(users) - {uid}
      ensures uid in old(users) && old(users)[uid].claim != "" ==>
                claims == DropClaims(old(claims) - {old(users)[uid].claim}, uid)
      ensures !(uid in old(users) && old(users)[uid].claim != "") ==> claims == old(claims)
    {
      if uid !in users {
        return;
      }
      var u := users[uid];
      users := users - {uid};
      if u.claim != "" {
        claims := claims - {u.claim};
        ClearUserClaim(uid);
      }
    }

    /** The first loop of deregister_user. */
    method DeregisterPools(list: seq<string>, w: World)
      requires Sound(View()) && NoDuplicates(list) && forall p | p in list :: p in pools
      modifies this
      ensures Sound(View())
      ensures View() == WithoutPools(old(View()), set p | p in list)
    {
      hide UsersWell, DirectoriesMatch, NamesMatch, BucketsWell, SecretsWell, StatesWell;
      ghost var db := View();
      var i := 0;
      ghost var gone: set<string> := {};
      WithoutPoolsNothing(db);
      while i < |list|
        invariant 0 <= i <= |list|
        invariant gone == set p | p in list[..i]
        invariant View() == WithoutPools(db, gone)
        invariant Sound(View())
      {
        assert list[i] in View().pools;
        var ok := DeregisterPool(list[i], w);
        WithoutPoolsCompose(db, gone, {list[i]});
        WithoutPoolsSound(db, gone + {list[i]});
        gone := gone + {list[i]};
        assert list[..i + 1] == list[..i] + [list[i]];
        i := i + 1;
      }
      assert list[..i] == list;
    }

    /** deregister_user: its pools, its claims, its timestamp, itself. */
    method DeregisterUser(uid: string, w: World)
      requires Sound(View())
      modifies this
      ensures View() == WithoutUser(old(View()), uid)
    {
      hide UsersWell, DirectoriesMatch, NamesMatch, BucketsWell, SecretsWell, StatesWell, DropClaims, WithoutPools;
      ghost var db := View();
      var list := ListPoolsOfUser(uid);
      assert forall p | p in list :: p in pools;
      DeregisterPools(list, w);
      assert (set p | p in list) == PoolsOf(db, uid);
      WithoutPoolsFrame(db, PoolsOf(db, uid));
      ClearUserClaim(uid);
      userTimes := userTimes - {uid};
      DeleteUser(uid);
      ClaimsAreGone(db.users, db.claims, db.userTimes, uid);
    }

    /** add_user: adds or modifies a user and its claim entry. */
    method AddUser(u: User, now: int) returns (s: Status)
      modifies `users, `claims
      ensures (View(), s) == Registry.AddUser(old(View()), u, now)
    {
      if u.uid == "" || |u.groups| == 0 {
        return Fatal;
      }
      if u.claim != "" {
        if u.claim in claims && claims[u.claim].uid != u.uid {
          return Raised(500);
        }
        claims := claims[u.claim := Claim(u.uid, now)];
      }
      users := users[u.uid := u];
      s := Okay;
    }

    // ---- unique ids and the creating handlers ----

    /** set_with_unique_pool_name: SETNX under generated names, at most thirty times. */
    method SetUniqueName(ids: NameIds, data: PoolName) returns (r: Option<string>)
      modifies `names
      ensures r == FirstFresh(ids, old(names).Keys)
      ensures names == if r.Some? then old(names)[r.value := data] else old(names)
    {
      var counter := 0;
      while counter < ID_LIMIT
        invariant 0 <= counter <= ID_LIMIT
        invariant names == old(names)
        invariant FirstFresh(ids, names.Keys) == FirstFresh(ids[counter..], names.Keys)
      {
        var id := ids[counter];
        if id !in names {
          names := names[id := data];
          return Some(id);
        }
        assert ids[counter..][1..] == ids[counter + 1..];
        counter := counter + 1;
      }
      r := None;
    }

    /** set_with_unique_secret_key: the generator also writes each new access key
        into the record, so the stored record carries the key it is stored under. */
    method SetUniqueSecret(ids: KeyIds, data: Secret) returns (r: Option<string>)
      modifies `secrets
      ensures r == FirstFresh(ids, old(secrets).Keys)
      ensures secrets == if r.Some? then old(secrets)[r.value := data.(accessKey := r.value)] else old(secrets)
    {
      var record := data;
      var counter := 0;
      while counter < ID_LIMIT
        invariant 0 <= counter <= ID_LIMIT
        invariant secrets == old(secrets)
        invariant record == data.(accessKey := record.accessKey)
        invariant FirstFresh(ids, secrets.Keys) == FirstFresh(ids[counter..], secrets.Keys)
      {
        var id := ids[counter];
        record := record.(accessKey := id);
        if id !in secrets {
          secrets := secrets[id := record];
          return Some(id);
        }
        assert ids[counter..][1..] == ids[counter + 1..];
        counter := counter + 1;
      }
      r := None;
    }

    /** The registration part of make-pool, entry by entry with its rollback. */
    method CreatePool(uid: string, path: string, gid: string, nameIds: NameIds, keyIds: KeyIds,
                      secretKey: string, expiration: int, now: int) returns (s: Status, pool: string)
      modifies `names, `directories, `secrets, `pools
      ensures (View(), s, pool) == H.CreatePool(old(View()), uid, path, gid, nameIds, keyIds, secretKey, expiration, now)
    {
      hide GoodPool, GoodSecret, FirstFresh;
      pool := "";
      var name := SetUniqueName(nameIds, PoolName(uid, now));
      if name.None? {
        return Fatal, pool;
      }
      pool := name.value;
      if path in directories {
        names := names - {pool};
        assert names == old(names);
        return Rejected(409), pool;
      }
      directories := directories[path := Directory(pool, path, now)];
      var key := SetUniqueSecret(keyIds, Secret(pool, "", secretKey, KeyInternal, expiration, now));
      if key.None? {
        return Fatal, pool;
      }
      pools := pools[pool := Pool(pool, path, uid, gid, key.value, expiration, true, false, "", now)];
      s := Okay;
    }

    /** The registration part of make-bucket; Mux acts on the pool in between. */
    method CreateBucket(b: Bucket, probe: H.Probe, now: int) returns (s: Status)
      modifies this
      ensures (View(), s) == H.CreateBucket(old(View()), b, probe, now)
    {
      if b.bucket in buckets {
        return Rejected(409);
      }
      buckets := buckets[b.bucket := b];
      s := ProbeMux(b.pool, probe, now);
      if s.Okay? || s.Fatal? {
        return;
      }
      buckets := buckets - {b.bucket};
    }

    /** probe_access_mux with what the probed Mux does to the pool's entries. */
    method ProbeMux(pool: string, probe: H.Probe, now: int) returns (s: Status)
      modifies `pools, `states, `poolTimes
      ensures (View(), s) == H.ProbeMux(old(View()), pool, probe, now)
    {
      if pool !in pools || pools[pool].probeKey !in secrets {
        return Fatal;
      }
      if probe.Unreached? {
        return Rejected(502);
      }
      poolTimes := poolTimes[pool := now];
      match probe.start {
        case Started => states := states[pool := ApproxState(pool, Ready, "-", now)];
        case SuspendedFor(reason) => states := states[pool := ApproxState(pool, Suspended, reason, now)];
        case MarkedInoperable(reason) =>
          if !pools[pool].inoperable {
            pools := pools[pool := pools[pool].(inoperable := true, reason := reason, timestamp := now)];
          }
        case _ =>
      }
      s := if probe.code == H.HTTP_OK then Okay else Rejected(probe.code);
    }
  }
}
