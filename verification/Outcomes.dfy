/**
 Who is let in and what single requests and commands do, said on the tables and
 without naming the functions that compute it (v2/lens3/registrar.go,
 v2/lens3/admintool.go).
 */
module Outcomes {
  import opened Records
  import opened Naming
  import opened Registry
  import opened Handlers

  // ---- who is let in ----

  /** A user with an account: registered, enabled and, unless ephemeral, not expired;
      or new, in a first session of a site that enrols users. */
  predicate Admitted(db: Store, cfg: Config, c: Caller, first: bool, now: int) {
    && c.uid != "" && c.account
    && if c.uid in db.users
       then db.users[c.uid].enabled && (db.users[c.uid].ephemeral || now < db.users[c.uid].expiration)
       else first && cfg.defaultAllow && !cfg.mapClaims && c.admitted
  }

  /** The tokens sent are those recorded for the user. */
  predicate TokensRight(db: Store, c: Caller) {
    && c.uid in db.tokens && c.cookie.Some? && c.header != ""
    && (c.cookie.value, c.header) == db.tokens[c.uid]
  }

  /** The requester is let in, and owns the pool if one is named. */
  predicate LetIn(db: Store, cfg: Config, c: Caller, pool: string, first: bool, now: int) {
    && c.front && Admitted(db, cfg, c, first, now)
    && (first || TokensRight(db, c))
    && (pool == "" || (GoodPool(pool) && pool in db.pools && db.pools[pool].owner == c.uid))
  }

  /** Each answer of the access check, and exactly when it comes. */
  lemma AccessAnswers(db: Store, cfg: Config, c: Caller, pool: string, first: bool, now: int)
    requires Sound(db)
    ensures var s := CheckAccess(db, cfg, c, pool, first, now).1;
            && (s.Okay? <==> LetIn(db, cfg, c, pool, first, now))
            && (s == Rejected(500) <==> !c.front)
            && (s == Raised(500) <==> c.front && Admitted(db, cfg, c, first, now) && !first && c.uid !in db.tokens)
            && (s == Rejected(401) <==>
                  c.front && (!Admitted(db, cfg, c, first, now) || (!first && c.uid in db.tokens && !TokensRight(db, c))))
            && (s == Rejected(400) <==> LetIn(db, cfg, c, "", first, now) && pool != "" && !GoodPool(pool))
            && (s == Rejected(404) <==> LetIn(db, cfg, c, "", first, now) && pool != "" && GoodPool(pool) && pool !in db.pools)
            && (s == Rejected(403) <==> LetIn(db, cfg, c, "", first, now) && pool != "" && GoodPool(pool) && pool in db.pools
                                        && db.pools[pool].owner != c.uid)
  {
    AccountAnswers(db, cfg, c, first, now);
    hide Sound, GoodPool, CheckAccount, Admitted;
    var (db1, u) := CheckAccount(db, cfg, c, first, now);
    assert db1.pools == db.pools && db1.tokens == db.tokens;
    assert TokensMatch(db.tokens, c) <==> TokensRight(db, c);
  }

  lemma AccountAnswers(db: Store, cfg: Config, c: Caller, first: bool, now: int)
    requires Sound(db)
    ensures var (db1, u) := CheckAccount(db, cfg, c, first, now);
            && (u.Some? <==> Admitted(db, cfg, c, first, now))
            && (u.Some? ==> u.value.uid == c.uid)
            && db1 == db.(users := db1.users)
  {
    assert forall u | u in db.users :: db.users[u].uid == u;
    hide Sound;
  }

  /** The record of the requester afterwards: a new user is enrolled, an ephemeral one
      extended, and nothing else changes. */
  function RequesterAfter(db: Store, cfg: Config, c: Caller, first: bool, now: int): map<string, User> {
    if !c.front || !Admitted(db, cfg, c, first, now) then db.users
    else if c.uid !in db.users then
      db.users[c.uid := User(c.uid, "", [], true, true, now + cfg.userTerm, now)]
    else if db.users[c.uid].ephemeral && db.users[c.uid].expiration < now + cfg.userTerm then
      db.users[c.uid := db.users[c.uid].(expiration := now + cfg.userTerm)]
    else db.users
  }

  lemma AccessRecords(db: Store, cfg: Config, c: Caller, pool: string, first: bool, now: int)
    ensures CheckAccess(db, cfg, c, pool, first, now).0 == db.(users := RequesterAfter(db, cfg, c, first, now))
  {
    if c.front {
      AccountRecords(db, cfg, c, first, now);
    }
    hide GoodPool, CheckAccount, Admitted;
  }

  lemma AccountRecords(db: Store, cfg: Config, c: Caller, first: bool, now: int)
    requires c.front
    ensures CheckAccount(db, cfg, c, first, now).0 == db.(users := RequesterAfter(db, cfg, c, first, now))
  {
  }

  /** The same for a request on a named pool. */
  lemma PoolAccess(db: Store, cfg: Config, c: Caller, pool: string, now: int)
    requires Sound(db)
    ensures var (r, s) := CheckPoolAccess(db, cfg, c, pool, now);
            && (s.Okay? <==> pool != "" && LetIn(db, cfg, c, pool, false, now))
            && (pool != "" ==> r == db.(users := RequesterAfter(db, cfg, c, false, now)))
            && (pool == "" ==> r == db)
            && !s.Fatal?
  {
    hide Sound, CheckAccess, LetIn, RequesterAfter;
    if pool != "" {
      AccessAnswers(db, cfg, c, pool, false, now);
      AccessRecords(db, cfg, c, pool, false, now);
      CheckAccessFrame(db, cfg, c, pool, false, now);
    }
  }

  // ---- what the makers make ----

  /** What make-bucket is asked for. */
  predicate BucketAsked(db: Store, cfg: Config, op: Op, now: int)
    requires op.MakeBucket?
  {
    op.pool != "" && LetIn(db, cfg, op.caller, op.pool, false, now) && op.argsOk && GoodBucket(op.bucket)
  }

  /** The registry after a probe that was sent; `StartOutcome` says what an access does. */
  function Accessed(db: Store, pool: string, probe: Probe, now: int): Store {
    if pool in db.pools && probe.Reached? then AfterStart(db, pool, probe.start, now) else db
  }

  lemma AccessedFrame(db: Store, pool: string, probe: Probe, now: int, buckets: map<string, Bucket>)
    ensures Accessed(db, pool, probe, now).buckets == db.buckets && Accessed(db, pool, probe, now).users == db.users
    ensures Accessed(db.(buckets := buckets), pool, probe, now) == Accessed(db, pool, probe, now).(buckets := buckets)
  {
    if pool in db.pools && probe.Reached? {
      StartLeavesBuckets(db, pool, probe.start, now, buckets);
      hide AfterStart;
    }
  }

  lemma StartLeavesBuckets(db: Store, pool: string, start: Start, now: int, buckets: map<string, Bucket>)
    requires pool in db.pools
    ensures var r := AfterStart(db, pool, start, now);
            && r.buckets == db.buckets && r.users == db.users
            && AfterStart(db.(buckets := buckets), pool, start, now) == r.(buckets := buckets)
  {
    var states, pools := StatesAfter(db.states, pool, start, now), PoolsAfter(db.pools, pool, start, now);
    hide StatesAfter, PoolsAfter;
    assert AfterStart(db, pool, start, now) == db.(poolTimes := db.poolTimes[pool := now], states := states, pools := pools);
  }

  /** make-bucket registers exactly the bucket that was asked for, and succeeds if and
      only if the name was free, the pool has its probe key and the probe made the
      bucket in the backend.  A refusal leaves the bucket table as it was; a panic on a
      deleted probe key leaves the bucket behind.  All else is as it was, but for what the
      access does to the pool. */
  lemma MakeBucketOutcome(db: Store, cfg: Config, op: Op, now: int)
    requires Sound(db) && op.MakeBucket?
    ensures var (r, s) := Step(db, cfg, op, now);
            var b := Bucket(op.pool, op.bucket, op.bucketPolicy, now + cfg.bucketTerm, now);
            var free := BucketAsked(db, cfg, op, now) && op.bucket !in db.buckets;
            && (s.Okay? <==> free && db.pools[op.pool].probeKey in db.secrets && op.probe.Reached? && op.probe.code == HTTP_OK)
            && (s.Fatal? <==> free && db.pools[op.pool].probeKey !in db.secrets)
            && (r.buckets == if s.Okay? || s.Fatal? then db.buckets[op.bucket := b] else db.buckets)
            && (op.bucket in db.buckets && BucketAsked(db, cfg, op, now) ==> s == Rejected(409))
            && (free && s.Rejected? ==> s.code == if op.probe.Reached? then op.probe.code else 502)
            && (op.pool != "" ==> r.users == RequesterAfter(db, cfg, op.caller, false, now))
            && r == (var d := db.(users := r.users, buckets := r.buckets);
                     if free && !s.Fatal? then Accessed(d, op.pool, op.probe, now) else d)
  {
    PoolAccess(db, cfg, op.caller, op.pool, now);
    AskedPool(db, cfg, op.caller, op.pool, now);
    var (db1, access) := CheckPoolAccess(db, cfg, op.caller, op.pool, now);
    assert BucketAsked(db, cfg, op, now) <==> access.Okay? && op.argsOk && GoodBucket(op.bucket);
    hide *;
    MakeBucketIs(db, cfg, op, now, db1, access);
  }

  /** The same after the access check. */
  lemma MakeBucketIs(db: Store, cfg: Config, op: Op, now: int, db1: Store, access: Status)
    requires op.MakeBucket? && CheckPoolAccess(db, cfg, op.caller, op.pool, now) == (db1, access)
    requires db1 == db.(users := db1.users) && (access.Okay? ==> op.pool in db.pools) && !access.Fatal?
    ensures var (r, s) := Step(db, cfg, op, now);
            var b := Bucket(op.pool, op.bucket, op.bucketPolicy, now + cfg.bucketTerm, now);
            var asked := access.Okay? && op.argsOk && GoodBucket(op.bucket);
            var free := asked && op.bucket !in db.buckets;
            && (s.Okay? <==> free && db.pools[op.pool].probeKey in db.secrets && op.probe.Reached? && op.probe.code == HTTP_OK)
            && (s.Fatal? <==> free && db.pools[op.pool].probeKey !in db.secrets)
            && (r.buckets == if s.Okay? || s.Fatal? then db.buckets[op.bucket := b] else db.buckets)
            && (op.bucket in db.buckets && asked ==> s == Rejected(409))
            && (free && s.Rejected? ==> s.code == if op.probe.Reached? then op.probe.code else 502)
            && r.users == db1.users
            && r == (var d := db.(users := r.users, buckets := r.buckets);
                     if free && !s.Fatal? then Accessed(d, op.pool, op.probe, now) else d)
  {
    var b := Bucket(op.pool, op.bucket, op.bucketPolicy, now + cfg.bucketTerm, now);
    assert Step(db, cfg, op, now) == MakeBucketEffect(db, cfg, op, now);
    hide Step, CheckPoolAccess, GoodBucket, CreateBucket, Accessed;
    if access.Okay? && op.argsOk && GoodBucket(op.bucket) {
      CreateBucketOutcome(db1, b, op.probe, now);
      var r := CreateBucket(db1, b, op.probe, now).0;
      assert db.(users := db1.users, buckets := r.buckets) == db1.(buckets := r.buckets);
    }
  }

  lemma AskedPool(db: Store, cfg: Config, c: Caller, pool: string, now: int)
    ensures LetIn(db, cfg, c, pool, false, now) && pool != "" ==> pool in db.pools
  {
    hide GoodPool, Admitted;
  }

  lemma CreateBucketOutcome(db: Store, b: Bucket, probe: Probe, now: int)
    ensures var (r, s) := CreateBucket(db, b, probe, now);
            var keyed := b.pool in db.pools && db.pools[b.pool].probeKey in db.secrets;
            && (s.Okay? <==> b.bucket !in db.buckets && keyed && probe.Reached? && probe.code == HTTP_OK)
            && (s.Fatal? <==> b.bucket !in db.buckets && !keyed)
            && (b.bucket in db.buckets ==> s == Rejected(409))
            && (s.Rejected? && b.bucket !in db.buckets ==> s.code == if probe.Reached? then probe.code else 502)
            && (r.buckets == if s.Okay? || s.Fatal? then db.buckets[b.bucket := b] else db.buckets)
            && r.users == db.users
            && r == (var d := db.(buckets := r.buckets);
                     if b.bucket !in db.buckets && keyed then Accessed(d, b.pool, probe, now) else d)
  {
    hide ProbeMux;
    if b.bucket !in db.buckets {
      AccessedFrame(db.(buckets := db.buckets[b.bucket := b]), b.pool, probe, now, db.buckets);
      ProbeMuxOutcome(db.(buckets := db.buckets[b.bucket := b]), b.pool, probe, now);
      RemoveAdded(db.buckets, b.bucket, b);
    }
  }

  /** make-secret adds exactly one record, of the asked policy, secret and expiration,
      under the first generated key that is not in use; it succeeds if and only if there
      is one and the policy is not the internal one. */
  lemma MakeSecretOutcome(db: Store, cfg: Config, op: Op, now: int)
    requires Sound(db) && op.MakeSecret?
    ensures var (r, s) := Step(db, cfg, op, now);
            var asked := op.pool != "" && LetIn(db, cfg, op.caller, op.pool, false, now) && op.argsOk && !op.policy.KeyInternal?;
            && (s.Okay? <==> asked && exists k :: k in op.keyIds && k !in db.secrets)
            && (s.Fatal? <==> asked && forall k | k in op.keyIds :: k in db.secrets)
            && (!s.Okay? ==> r == db.(users := r.users))
            && (s.Okay? ==>
                  exists i | 0 <= i < |op.keyIds| ::
                    && op.keyIds[i] !in db.secrets && (forall j | 0 <= j < i :: op.keyIds[j] in db.secrets)
                    && r == db.(users := r.users,
                                secrets := db.secrets[op.keyIds[i] :=
                                  Secret(op.pool, op.keyIds[i], op.secretKey, op.policy, op.expiration, now)]))
            && (op.pool != "" ==> r.users == RequesterAfter(db, cfg, op.caller, false, now))
  {
    hide Sound, CheckPoolAccess, LetIn, RequesterAfter, GoodSecret;
    PoolAccess(db, cfg, op.caller, op.pool, now);
    var key := FirstFresh(op.keyIds, db.secrets.Keys);
    if key.Some? {
      var i :| 0 <= i < |op.keyIds| && op.keyIds[i] == key.value && key.value !in db.secrets.Keys
               && forall j | 0 <= j < i :: op.keyIds[j] in db.secrets.Keys;
      assert op.keyIds[i] in op.keyIds && op.keyIds[i] !in db.secrets;
    } else {
      assert forall k | k in op.keyIds :: k in db.secrets.Keys;
    }
  }

  // ---- load-user rows ----

  /** A row for adding or modifying a user that load-user accepts as written. */
  predicate UserRow(row: seq<string>) {
    && |row| >= 4 && GoodUser(row[1]) && GoodClaim(row[2])
    && forall i | 3 <= i < |row| :: GoodUser(row[i])
  }

  /** The user as written in the row. */
  function RowUser(row: seq<string>, now: int): User
    requires |row| >= 4
  {
    User(row[1], row[2], row[3..], true, false, now + LOAD_TERM, now)
  }

  /** The claim of the row belongs to another user than its own. */
  predicate ClaimTaken(claims: map<string, Claim>, row: seq<string>)
    requires |row| >= 4
  {
    row[2] != "" && row[2] in claims && claims[row[2]].uid != row[1]
  }

  /** MODIFY changes the user and its claim entry and nothing else, so its pools stay;
      it raises and changes nothing if and only if the claim is another user's, and
      panics if and only if the row is bad. */
  lemma ModifyRow(db: Store, row: seq<string>, now: int)
    requires row != [] && row[0] == "MODIFY"
    ensures var (r, s) := LoadRow(db, row, now);
            && (s.Fatal? <==> !UserRow(row))
            && (s == Raised(500) <==> UserRow(row) && ClaimTaken(db.claims, row))
            && (!s.Okay? ==> r == db)
            && (s.Okay? <==> UserRow(row) && !ClaimTaken(db.claims, row))
            && (s.Okay? ==>
                  r == db.(users := db.users[row[1] := RowUser(row, now)],
                           claims := if row[2] == "" then db.claims else db.claims[row[2] := Claim(row[1], now)]))
  {
    assert "MODIFY"[0] != "ADD"[0];
    UserRowIs(row);
    hide GoodUser, GoodClaim, WithoutUser, GoodAddRow;
    if UserRow(row) {
      NonEmptyName(row[1]);
    }
  }

  lemma UserRowIs(row: seq<string>)
    ensures GoodAddRow(row) <==> UserRow(row)
  {
    hide GoodUser, GoodClaim;
    if |row| >= 4 {
      assert forall i | 3 <= i < |row| :: row[i] == row[3..][i - 3];
    }
  }

  lemma NonEmptyName(n: string)
    requires GoodUser(n)
    ensures n != ""
  {
  }

  /** ADD removes a user of that name with all its pools and claims first, and then
      adds it as written. */
  lemma AddRowOutcome(db: Store, row: seq<string>, now: int)
    requires row != [] && row[0] == "ADD"
    ensures var (r, s) := LoadRow(db, row, now);
            && (s.Fatal? <==> !UserRow(row))
            && (s.Fatal? ==> r == db)
            && (UserRow(row) ==>
                  var without := WithoutUser(db, row[1]);
                  && (s.Okay? <==> !ClaimTaken(without.claims, row))
                  && r == if !s.Okay? then without
                          else without.(users := without.users[row[1] := RowUser(row, now)],
                                        claims := if row[2] == "" then without.claims
                                                  else without.claims[row[2] := Claim(row[1], now)]))
  {
    UserRowIs(row);
    hide GoodUser, GoodClaim, WithoutUser, GoodAddRow;
    if UserRow(row) {
      NonEmptyName(row[1]);
    }
  }

  /** The users named in a row. */
  function Named(row: seq<string>): set<string> { set i | 1 <= i < |row| :: row[i] }

  predicate NameRow(row: seq<string>) { forall i | 1 <= i < |row| :: GoodUser(row[i]) }

  /** What goes with removed users of the tables of users ... */
  ghost predicate RemovedClaims(db: Store, r: Store, gone: set<string>) {
    && r.users == db.users - gone && r.tokens == db.tokens
    && (forall c :: c in r.claims <==> c in db.claims && db.claims[c].uid !in gone)
    && (forall c | c in r.claims :: r.claims[c] == db.claims[c])
  }

  /** ... and of pools: exactly theirs, and the others stay with all they have. */
  ghost predicate RemovedPools(db: Store, r: Store, gone: set<string>) {
    && (forall p :: p in r.pools <==> p in db.pools && db.pools[p].owner !in gone)
    && (forall p | p in r.pools :: KeepsPool(db, r, p))
  }

  ghost predicate RemovedUsers(db: Store, r: Store, gone: set<string>) {
    RemovedClaims(db, r, gone) && RemovedPools(db, r, gone)
  }

  lemma {:induction false} DeleteNames(db: Store, names: seq<string>, now: int)
    requires Sound(db)
    ensures var (r, s) := LoadNames(db, "DELETE", names, now);
            s.Okay? && RemovedUsers(db, r, set n | n in names && n in db.users)
    decreases |names|
  {
    var gone := set n | n in names && n in db.users;
    if names == [] {
      assert gone == {};
      KeepsItself(db);
    } else {
      var rest := names[1..];
      assert names == [names[0]] + rest;
      if names[0] !in db.users {
        DeleteNames(db, rest, now);
        assert gone == set n | n in rest && n in db.users;
      } else {
        var db1 := WithoutUser(db, names[0]);
        var later := set n | n in rest && n in db1.users;
        OneRemoved(db, names[0]);
        WithoutUserSound(db, names[0]);
        hide Sound, WithoutUser, RemovedClaims, RemovedPools;
        DeleteNames(db1, rest, now);
        var r := LoadNames(db1, "DELETE", rest, now).0;
        assert gone == {names[0]} + later by { OneUserLess(db, names[0]); }
        ClaimsRemovedTwice(db, db1, r, {names[0]}, later);
        PoolsRemovedTwice(db, db1, r, {names[0]}, later);
      }
    }
  }

  lemma OneUserLess(db: Store, uid: string)
    ensures WithoutUser(db, uid).users == db.users - {uid}
  {
  }

  lemma OneRemoved(db: Store, uid: string)
    requires Sound(db)
    ensures RemovedUsers(db, WithoutUser(db, uid), {uid})
  {
    hide Sound, WithoutUser, KeepsPool;
    WithoutUserIsExact(db, uid);
    hide PoolsOf, NoOrphans;
  }

  lemma KeepsItself(db: Store)
    ensures RemovedUsers(db, db, {})
  {
    assert db.users - {} == db.users;
  }

  lemma ClaimsRemovedTwice(db: Store, m: Store, r: Store, a: set<string>, b: set<string>)
    requires RemovedClaims(db, m, a) && RemovedClaims(m, r, b)
    ensures RemovedClaims(db, r, a + b)
  {
    assert r.users == db.users - (a + b);
  }

  lemma PoolsRemovedTwice(db: Store, m: Store, r: Store, a: set<string>, b: set<string>)
    requires RemovedPools(db, m, a) && RemovedPools(m, r, b)
    ensures RemovedPools(db, r, a + b)
  {
    forall p | p in m.pools ensures m.pools[p] == db.pools[p] {
      KeepsRecord(db, m, p);
    }
    hide KeepsPool;
    forall p | p in r.pools ensures KeepsPool(db, r, p) {
      KeepsThrough(db, m, r, p);
    }
  }

  lemma KeepsRecord(db: Store, m: Store, p: string)
    requires KeepsPool(db, m, p) && p in m.pools
    ensures p in db.pools && m.pools[p] == db.pools[p]
  {
  }

  lemma KeepsThrough(db: Store, m: Store, r: Store, p: string)
    requires KeepsPool(db, m, p) && KeepsPool(m, r, p)
    ensures KeepsPool(db, r, p)
  {
  }

  /** DELETE removes exactly the registered users that are named, with their pools;
      it panics and changes nothing if and only if a name is bad. */
  lemma DeleteRow(db: Store, row: seq<string>, now: int)
    requires Sound(db) && row != [] && row[0] == "DELETE"
    ensures var (r, s) := LoadRow(db, row, now);
            && (s.Fatal? <==> !NameRow(row)) && (s.Okay? <==> NameRow(row))
            && (s.Fatal? ==> r == db)
            && (s.Okay? ==> RemovedUsers(db, r, set n | n in Named(row) && n in db.users))
  {
    assert "DELETE"[0] != "ADD"[0] && "DELETE"[0] != "MODIFY"[0];
    NameRowIs(row);
    hide GoodUser, Sound, RemovedUsers;
    DeleteNames(db, row[1..], now);
    assert (set n | n in row[1..] && n in db.users) == set n | n in Named(row) && n in db.users;
  }

  lemma NameRowIs(row: seq<string>)
    requires row != []
    ensures NameRow(row) <==> !exists n | n in row[1..] :: !GoodUser(n)
    ensures forall n :: n in row[1..] <==> n in Named(row)
  {
    hide GoodUser;
    assert forall i | 1 <= i < |row| :: row[i] == row[1..][i - 1];
  }

  // ---- ENABLE and DISABLE ----

  /** The users with the flag of the named ones set, and nothing else changed. */
  function WithFlag(users: map<string, User>, names: set<string>, on: bool): map<string, User> {
    map u | u in users :: if u in names then users[u].(enabled := on) else users[u]
  }

  /** Claims of the same users; add_user renews their timestamps. */
  ghost predicate SameClaims(a: map<string, Claim>, b: map<string, Claim>) {
    a.Keys == b.Keys && forall c | c in a :: a[c].uid == b[c].uid
  }

  /** A named user without groups, as an ephemeral one is. */
  predicate HasGroupless(users: map<string, User>, names: set<string>) {
    exists n | n in names :: n in users && users[n].groups == []
  }

  lemma SwitchOne(db: Store, n: string, on: bool, now: int)
    requires Sound(db) && n in db.users && n != ""
    ensures var (r, s) := AddUser(db, db.users[n].(enabled := on), now);
            && (s.Okay? <==> db.users[n].groups != []) && (s.Fatal? <==> db.users[n].groups == [])
            && r == db.(users := r.users, claims := r.claims) && SameClaims(r.claims, db.claims)
            && r.users == if s.Okay? then WithFlag(db.users, {n}, on) else db.users
  {
    hide PoolsWell, DirectoriesMatch, NamesMatch, BucketsWell, SecretsWell, StatesWell;
    var u := db.users[n].(enabled := on);
    assert u.uid == n && !ClaimConflict(db, u);
    AddUserFrame(db, u, now);
    hide Sound;
    if u.groups != [] {
      assert db.users[n := u] == WithFlag(db.users, {n}, on);
    }
  }

  lemma SwitchStep(db: Store, command: string, names: seq<string>, now: int)
    requires command != "DELETE"
    ensures names == [] ==> LoadNames(db, command, names, now) == (db, Okay)
    ensures names != [] && names[0] !in db.users ==>
              LoadNames(db, command, names, now) == LoadNames(db, command, names[1..], now)
    ensures names != [] && names[0] in db.users ==>
              var (db1, added) := AddUser(db, db.users[names[0]].(enabled := command == "ENABLE"), now);
              LoadNames(db, command, names, now) ==
              if !added.Okay? then (db1, added) else LoadNames(db1, command, names[1..], now)
  {
    hide AddUser, WithoutUser;
  }

  /** All of what switching the named users does. */
  ghost predicate Switched(db: Store, r: Store, s: Status, names: set<string>, on: bool) {
    && (s.Okay? <==> !HasGroupless(db.users, names))
    && (!s.Okay? ==> s.Fatal?)
    && r == db.(users := r.users, claims := r.claims) && SameClaims(r.claims, db.claims)
    && (s.Okay? ==> r.users == WithFlag(db.users, names, on))
  }

  function NameSet(names: seq<string>): set<string> { set n | n in names }

  lemma {:induction false} SwitchNames(db: Store, command: string, names: seq<string>, now: int)
    requires Sound(db) && command != "DELETE" && "" !in names
    ensures var (r, s) := LoadNames(db, command, names, now);
            Switched(db, r, s, NameSet(names), command == "ENABLE")
    decreases |names|
  {
    hide Sound, AddUser, Switched, LoadNames, NameSet;
    SwitchStep(db, command, names, now);
    var on := command == "ENABLE";
    if names == [] {
      SwitchNone(db, on);
    } else {
      var n, rest := names[0], names[1..];
      NameSetFirst(names);
      if n !in db.users {
        SwitchNames(db, command, rest, now);
        SwitchUnknown(db, LoadNames(db, command, rest, now), n, NameSet(rest), on);
      } else {
        var u := db.users[n].(enabled := on);
        SwitchOne(db, n, on, now);
        var (db1, added) := AddUser(db, u, now);
        if added.Okay? {
          AddUserSound(db, u, now);
          SwitchNames(db1, command, rest, now);
          SwitchMore(db, db1, LoadNames(db1, command, rest, now), n, NameSet(rest), on);
        } else {
          SwitchStops(db, db1, n, NameSet(rest), on);
        }
      }
    }
  }

  lemma NameSetFirst(names: seq<string>)
    requires names != []
    ensures NameSet(names) == {names[0]} + NameSet(names[1..])
  {
    assert names == [names[0]] + names[1..];
  }

  lemma SwitchNone(db: Store, on: bool)
    ensures Switched(db, db, Okay, NameSet([]), on)
  {
    assert WithFlag(db.users, {}, on) == db.users && NameSet([]) == {};
  }

  lemma SwitchUnknown(db: Store, r: (Store, Status), n: string, later: set<string>, on: bool)
    requires n !in db.users && Switched(db, r.0, r.1, later, on)
    ensures Switched(db, r.0, r.1, {n} + later, on)
  {
    UnknownFlag(db.users, n, later, on);
    hide WithFlag, HasGroupless, SameClaims;
  }

  lemma SwitchStops(db: Store, r: Store, n: string, later: set<string>, on: bool)
    requires n in db.users && db.users[n].groups == []
    requires r == db.(users := r.users, claims := r.claims) && SameClaims(r.claims, db.claims)
    ensures Switched(db, r, Fatal, {n} + later, on)
  {
    GrouplessFirst(db.users, n, later);
    hide WithFlag, HasGroupless, SameClaims;
  }

  lemma SwitchMore(db: Store, m: Store, r: (Store, Status), n: string, later: set<string>, on: bool)
    requires n in db.users && db.users[n].groups != []
    requires m == db.(users := WithFlag(db.users, {n}, on), claims := m.claims) && SameClaims(m.claims, db.claims)
    requires Switched(m, r.0, r.1, later, on)
    ensures Switched(db, r.0, r.1, {n} + later, on)
  {
    FlagTwice(db.users, n, later, on);
    ClaimsThrough(r.0.claims, m.claims, db.claims);
    hide WithFlag, HasGroupless, SameClaims;
  }

  lemma UnknownFlag(users: map<string, User>, n: string, later: set<string>, on: bool)
    requires n !in users
    ensures WithFlag(users, {n} + later, on) == WithFlag(users, later, on)
    ensures HasGroupless(users, {n} + later) <==> HasGroupless(users, later)
  {
    if k :| k in {n} + later && k in users && users[k].groups == [] {
      assert k in later;
    }
    if k :| k in later && k in users && users[k].groups == [] {
      assert k in {n} + later;
    }
  }

  lemma GrouplessFirst(users: map<string, User>, n: string, later: set<string>)
    requires n in users && users[n].groups == []
    ensures HasGroupless(users, {n} + later)
  {
    assert n in {n} + later;
  }

  lemma ClaimsThrough(a: map<string, Claim>, b: map<string, Claim>, c: map<string, Claim>)
    requires SameClaims(a, b) && SameClaims(b, c)
    ensures SameClaims(a, c)
  {
  }

  lemma FlagTwice(users: map<string, User>, n: string, later: set<string>, on: bool)
    requires n in users && users[n].groups != []
    ensures WithFlag(WithFlag(users, {n}, on), later, on) == WithFlag(users, {n} + later, on)
    ensures HasGroupless(WithFlag(users, {n}, on), later) <==> HasGroupless(users, {n} + later)
  {
    var m := WithFlag(users, {n}, on);
    if k :| k in {n} + later && k in users && users[k].groups == [] {
      assert k in later && k in m && m[k].groups == [];
    }
    if k :| k in later && k in m && m[k].groups == [] {
      assert k in {n} + later && k in users && users[k].groups == [];
    }
  }

  /** ENABLE and DISABLE set exactly the flag of the named users; they panic if and only
      if a name is bad or a named user has no groups, as enrolled users have none. */
  lemma SwitchRow(db: Store, row: seq<string>, now: int)
    requires Sound(db) && row != [] && (row[0] == "ENABLE" || row[0] == "DISABLE")
    ensures var (r, s) := LoadRow(db, row, now);
            && (NameRow(row) ==> Switched(db, r, s, Named(row), row[0] == "ENABLE"))
            && (!NameRow(row) ==> s.Fatal? && r == db)
  {
    assert "ENABLE"[0] != "ADD"[0] && "ENABLE"[0] != "MODIFY"[0] && "DISABLE"[0] != "ADD"[0] && "DISABLE"[0] != "MODIFY"[0];
    assert "ENABLE"[0] != "DELETE"[0] && "DISABLE"[1] != "DELETE"[1];
    NameRowIs(row);
    if NameRow(row) {
      NoEmptyNames(row);
      hide GoodUser, Sound, LoadNames;
      SwitchNames(db, row[0], row[1..], now);
      assert NameSet(row[1..]) == Named(row);
    }
    hide GoodUser;
  }

  lemma NoEmptyNames(row: seq<string>)
    requires row != [] && NameRow(row)
    ensures "" !in row[1..]
  {
    assert forall i | 1 <= i < |row| :: row[i] == row[1..][i - 1];
  }

  /** Rows of any other kind are refused. */
  lemma OtherRow(db: Store, row: seq<string>, now: int)
    requires row == [] || row[0] !in {"ADD", "MODIFY", "DELETE", "ENABLE", "DISABLE"}
    ensures LoadRow(db, row, now) == (db, Fatal)
  {
  }

  // ---- sessions, displays and starts ----

  /** user-info is answered exactly for those let in by a first session, who get the
      new token; list-pool for those let in; neither changes anything else. */
  lemma ReaderOutcome(db: Store, cfg: Config, op: Op, now: int)
    requires Sound(db) && (op.UserInfo? || op.ListPool?)
    ensures var (r, s) := Step(db, cfg, op, now);
            && (op.UserInfo? ==>
                  && (s.Okay? <==> LetIn(db, cfg, op.caller, "", true, now))
                  && r == db.(users := RequesterAfter(db, cfg, op.caller, true, now),
                              tokens := if s.Okay? then db.tokens[op.caller.uid := op.token] else db.tokens))
            && (op.ListPool? ==>
                  && (s.Okay? <==> LetIn(db, cfg, op.caller, op.pool, false, now) && op.argsOk)
                  && r == db.(users := RequesterAfter(db, cfg, op.caller, false, now)))
  {
    hide Sound, CheckAccess, LetIn, RequesterAfter;
    if op.UserInfo? {
      AccessAnswers(db, cfg, op.caller, "", true, now);
      AccessRecords(db, cfg, op.caller, "", true, now);
    } else {
      AccessAnswers(db, cfg, op.caller, op.pool, false, now);
      AccessRecords(db, cfg, op.caller, op.pool, false, now);
    }
  }

  /** An access by Mux stamps the pool; the shown state becomes READY or SUSPENDED exactly
      with a start or a suspension; a pool is marked inoperable exactly by a failure for
      good, and the first mark stays. */
  lemma StartOutcome(db: Store, pool: string, start: Start, now: int)
    requires pool in db.pools
    ensures var r := AfterStart(db, pool, start, now);
            && r == db.(pools := r.pools, states := r.states, poolTimes := r.poolTimes)
            && (forall p | p != pool :: Get(r.pools, p) == Get(db.pools, p) && Get(r.states, p) == Get(db.states, p)
                                        && Get(r.poolTimes, p) == Get(db.poolTimes, p))
            && Get(r.poolTimes, pool) == Some(now)
            && (start.Started? ==> Get(r.states, pool) == Some(ApproxState(pool, Ready, "-", now)))
            && (start.SuspendedFor? ==> Get(r.states, pool) == Some(ApproxState(pool, Suspended, start.reason, now)))
            && (!start.Started? && !start.SuspendedFor? ==> r.states == db.states)
            && (start.MarkedInoperable? && !db.pools[pool].inoperable ==>
                  Get(r.pools, pool) == Some(db.pools[pool].(inoperable := true, reason := start.reason, timestamp := now)))
            && (!start.MarkedInoperable? || db.pools[pool].inoperable ==> r.pools == db.pools)
  {
  }

  // ---- the administrator's switches ----

  /** Everything but one table is as it was, and in that table everything but one entry. */
  ghost predicate OnlyUser(db: Store, r: Store, uid: string) {
    r == db.(users := r.users) && r.users.Keys == db.users.Keys && forall u | u in db.users && u != uid :: r.users[u] == db.users[u]
  }

  ghost predicate OnlyPool(db: Store, r: Store, pool: string) {
    r == db.(pools := r.pools) && r.pools.Keys == db.pools.Keys && forall p | p in db.pools && p != pool :: r.pools[p] == db.pools[p]
  }

  ghost predicate OnlyBucket(db: Store, r: Store, b: string) {
    r == db.(buckets := r.buckets) && forall x | x != b :: Get(r.buckets, x) == Get(db.buckets, x)
  }

  ghost predicate OnlySecret(db: Store, r: Store, k: string) {
    r == db.(secrets := r.secrets) && forall x | x != k :: Get(r.secrets, x) == Get(db.secrets, x)
  }

  /** stop-user sets the flag of the named user and time-expiration its expiration; an
      unknown one is answered with 404. */
  lemma UserSwitch(db: Store, cfg: Config, op: Op, now: int)
    requires op.StopUser? || op.ExpireUser?
    ensures var (r, s) := Step(db, cfg, op, now);
            && OnlyUser(db, r, op.uid) && s == (if op.uid in db.users then Okay else Rejected(404))
            && (op.uid in r.users <==> op.uid in db.users)
            && (s.Okay? ==> r.users[op.uid] == if op.StopUser? then db.users[op.uid].(enabled := !op.disabling)
                                               else db.users[op.uid].(expiration := op.date))
  {
    hide CheckAccess, LoadRow, ProbeMux, AfterStart, WithoutPools;
    hide MakePoolEffect, MakeBucketEffect, MakeSecretEffect, DeletePoolEffect, DeleteBucketEffect, DeleteSecretEffect;
  }

  /** stop-pool and time-expiration do the same to the named pool. */
  lemma PoolSwitch(db: Store, cfg: Config, op: Op, now: int)
    requires op.StopPool? || op.ExpirePool?
    ensures var (r, s) := Step(db, cfg, op, now);
            && OnlyPool(db, r, op.pool) && s == (if op.pool in db.pools then Okay else Rejected(404))
            && (op.pool in r.pools <==> op.pool in db.pools)
            && (s.Okay? ==> r.pools[op.pool] == if op.StopPool? then db.pools[op.pool].(enabled := !op.disabling)
                                                else db.pools[op.pool].(expiration := op.date))
  {
    hide CheckAccess, LoadRow, ProbeMux, AfterStart, WithoutPools;
    hide MakePoolEffect, MakeBucketEffect, MakeSecretEffect, DeletePoolEffect, DeleteBucketEffect, DeleteSecretEffect;
  }

  /** kill-bucket and kill-pool remove the named entry, a pool with everything in it, and
      time-expiration sets the expiration of a bucket or key. */
  lemma MemberOutcome(db: Store, cfg: Config, op: Op, now: int)
    ensures var (r, s) := Step(db, cfg, op, now);
            && (op.KillBucket? ==> OnlyBucket(db, r, op.bucket) && op.bucket !in r.buckets
                                   && s == (if op.bucket in db.buckets then Okay else Rejected(404)))
            && (op.ExpireBucket? ==>
                  && OnlyBucket(db, r, op.bucket) && s == (if op.bucket in db.buckets then Okay else Rejected(404))
                  && (op.bucket in r.buckets <==> op.bucket in db.buckets)
                  && (s.Okay? ==> r.buckets[op.bucket] == db.buckets[op.bucket].(expiration := op.date)))
            && (op.ExpireSecret? ==>
                  && OnlySecret(db, r, op.key) && s == (if op.key in db.secrets then Okay else Rejected(404))
                  && (op.key in r.secrets <==> op.key in db.secrets)
                  && (s.Okay? ==> r.secrets[op.key] == db.secrets[op.key].(expiration := op.date)))
            && (op.KillPool? ==> r == (if op.pool in db.pools then WithoutPools(db, {op.pool}) else db)
                                 && s == (if op.pool in db.pools then Okay else Rejected(404)))
  {
    hide CheckAccess, LoadRow, ProbeMux, AfterStart, WithoutPools;
    hide MakePoolEffect, MakeBucketEffect, MakeSecretEffect, DeletePoolEffect, DeleteBucketEffect, DeleteSecretEffect;
  }
}
