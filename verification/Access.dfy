/**
 The access decision of a Multiplexer (v2/lens3/multiplexer.go): the chain of
 checks before a request is forwarded, and the one predicate it comes to.
 Signature checking and peer lookup are results given with the request.
 */
module Access {
  import opened Records
  import opened Registry
  import opened Naming
  import opened Tables
  import P = ProtocolSafety
  import C = Protocol

  datatype Request = Request(
    trusted: bool,              // the peer is a frontend proxy or a Mux
    credential: Option<string>, // the access key named in the Authorization header
    signed: bool,               // its signature is right and recent
    relayed: bool,              // a Remote_Addr header is present
    verb: string,
    path: string)               // the escaped path

  datatype Refusal =
    | NotTrusted | UnknownKey | BadSignature | ExpiredKey | BadBucketName | NoBucket
    | AnonymousListing | Listing | NotOwner | ExpiredBucket | MissingPool | PoolDisabled | PoolInoperable
    | NoPermission | CannotStart | PoolSuspendedNow | ProbeFromOutside | ProbeFailed

  function Code(r: Refusal): nat {
    match r
    case NotTrusted => 500
    case UnknownKey => 401
    case BadSignature => 401
    case ExpiredKey => 403
    case BadBucketName => 400
    case NoBucket => 404
    case AnonymousListing => 403
    case Listing => 400
    case NotOwner => 403
    case ExpiredBucket => 403
    case MissingPool => 404
    case PoolDisabled => 403
    case PoolInoperable => 500
    case NoPermission => 403
    case CannotStart => 500
    case PoolSuspendedNow => 503
    case ProbeFromOutside => 500
    case ProbeFailed => 502
  }

  datatype Response = Forward(be: Backend, key: string) | ProbeDone | Refuse(why: Refusal) | Panic

  datatype Step<T> = Pass(value: T) | Stop(response: Response)

  // ---- the bucket in a path ----

  /** strings.Split(s, "/"). */
  function Split(s: string): (r: seq<string>)
    ensures |r| >= 1
  {
    if s == "" then [""]
    else
      var rest := Split(s[1..]);
      if s[0] == '/' then [""] + rest else [[s[0]] + rest[0]] + rest[1..]
  }

  /** pick_bucket_in_path: "" when there is none; an index out of range is a panic. */
  function PickBucket(path: string): Step<string> {
    var parts := Split(path);
    if |parts| >= 2 && parts[0] != "" then Pass("")
    else if |parts| < 2 then Stop(Panic)
    else if parts[1] == "" then Pass("")
    else if !GoodBucket(parts[1]) then Stop(Refuse(BadBucketName))
    else Pass(parts[1])
  }

  // ---- the single checks ----

  function CheckAuthenticated(db: Store, req: Request, now: int): Step<Option<Secret>> {
    if req.credential.None? then Pass(None)
    else
      var k := req.credential.value;
      if k !in db.secrets then Stop(Refuse(UnknownKey))
      else if db.secrets[k].accessKey != k then Stop(Panic)
      else if !req.signed then Stop(Refuse(BadSignature))
      else if !(now < db.secrets[k].expiration) then Stop(Refuse(ExpiredKey))
      else Pass(Some(db.secrets[k]))
  }

  function CheckBucket(db: Store, path: string): Step<Option<Bucket>> {
    match PickBucket(path)
    case Stop(r) => Stop(r)
    case Pass(name) =>
      if name == "" then Pass(None)
      else if name !in db.buckets then Stop(Refuse(NoBucket))
      else Pass(Some(db.buckets[name]))
  }

  function EnsurePool(db: Store, pool: string, w: World): Step<Pool> {
    if pool !in db.pools then Stop(Refuse(MissingPool))
    else
      match PoolUsable(db.users, db.pools[pool], w).0
      case Ready => Pass(db.pools[pool])
      case Disabled => Stop(Refuse(PoolDisabled))
      case Inoperable => Stop(Refuse(PoolInoperable))
      case Initial => Stop(Panic)
      case Suspended => Stop(Panic)
  }

  /** ensure_backend_running: `backends` is what looking up or starting a backend gives. */
  function EnsureBackend(backends: map<string, Backend>, pool: string): Step<Backend> {
    if pool !in backends then Stop(Refuse(CannotStart))
    else
      match backends[pool].state
      case Initial => Pass(backends[pool])
      case Ready => Pass(backends[pool])
      case Suspended => Stop(Refuse(PoolSuspendedNow))
      case Disabled => Stop(Panic)
      case Inoperable => Stop(Panic)
  }

  predicate Reading(verb: string) { verb == "HEAD" || verb == "GET" }
  predicate Writing(verb: string) { verb == "PUT" || verb == "POST" || verb == "DELETE" }

  function KeyPolicies(verb: string): seq<SecretPolicy> {
    if Reading(verb) then [KeyRW, KeyRO] else if Writing(verb) then [KeyRW, KeyWO] else []
  }

  function BucketPolicies(verb: string): seq<BucketPolicy> {
    if Reading(verb) then [PublicRW, PublicRO] else if Writing(verb) then [PublicRW, PublicWO] else []
  }

  // ---- the chain ----

  function ServeAuthenticated(db: Store, w: World, backends: map<string, Backend>, req: Request,
                              b: Bucket, k: Secret): Response
  {
    if b.pool != k.pool then Refuse(NotOwner)
    else if !(w.now < b.expiration) then Refuse(ExpiredBucket)
    else
      match EnsurePool(db, b.pool, w)
      case Stop(r) => r
      case Pass(_) =>
        if k.policy !in KeyPolicies(req.verb) then Refuse(NoPermission)
        else
          match EnsureBackend(backends, b.pool)
          case Stop(r) => r
          case Pass(be) => Forward(be, k.accessKey)
  }

  function ServeAnonymous(db: Store, w: World, backends: map<string, Backend>, req: Request, b: Bucket): Response {
    if !(w.now < b.expiration) then Refuse(ExpiredBucket)
    else
      match EnsurePool(db, b.pool, w)
      case Stop(r) => r
      case Pass(_) =>
        if b.policy !in BucketPolicies(req.verb) then Refuse(NoPermission)
        else
          match EnsureBackend(backends, b.pool)
          case Stop(r) => r
          case Pass(be) => Forward(be, "--")
  }

  /** serve_probe_access: `reconciled` is the result of making absent buckets. */
  function ServeProbe(db: Store, w: World, backends: map<string, Backend>, req: Request,
                      k: Secret, reconciled: bool): Response
  {
    if req.relayed then Refuse(ProbeFromOutside)
    else
      match EnsurePool(db, k.pool, w)
      case Stop(r) => r
      case Pass(_) =>
        match EnsureBackend(backends, k.pool)
        case Stop(r) => r
        case Pass(_) => if reconciled then ProbeDone else Refuse(ProbeFailed)
  }

  /** make_checker_proxy. */
  function Serve(db: Store, w: World, backends: map<string, Backend>, req: Request, reconciled: bool): Response {
    if !req.trusted then Refuse(NotTrusted)
    else
      match CheckAuthenticated(db, req, w.now)
      case Stop(r) => r
      case Pass(key) =>
        match CheckBucket(db, req.path)
        case Stop(r) => r
        case Pass(bucket) =>
          if key.Some? && key.value.policy.KeyInternal? then ServeProbe(db, w, backends, req, key.value, reconciled)
          else
            match (bucket, key)
            case (None, None) => Refuse(AnonymousListing)
            case (None, Some(_)) => Refuse(Listing)
            case (Some(b), None) => ServeAnonymous(db, w, backends, req, b)
            case (Some(b), Some(k)) => ServeAuthenticated(db, w, backends, req, b, k)
  }

  // ---- what it comes to ----

  /** The path is /bucket or /bucket/anything. */
  predicate NamesBucket(path: string, b: string) {
    '/' !in b && (path == "/" + b || StartsWith(path, "/" + b + "/"))
  }

  predicate KeyAllows(policy: SecretPolicy, verb: string) {
    || (policy.KeyRW? && (Reading(verb) || Writing(verb)))
    || (policy.KeyRO? && Reading(verb))
    || (policy.KeyWO? && Writing(verb))
  }

  predicate PublicAllows(policy: BucketPolicy, verb: string) {
    || (policy.PublicRW? && (Reading(verb) || Writing(verb)))
    || (policy.PublicRO? && Reading(verb))
    || (policy.PublicWO? && Writing(verb))
  }

  /** A pool whose owner is active, that is enabled, unexpired and operable. */
  predicate Usable(db: Store, pool: string, w: World) {
    && pool in db.pools
    && var p := db.pools[pool];
    && !p.inoperable && p.enabled && w.now < p.expiration
    && UserActive(db.users, p.owner, w)
  }

  /** The whole decision: a trusted peer, a registered unexpired bucket, a usable
      pool with a running backend, and either no key and a public bucket that
      allows the method, or a good key of the same pool that allows it. */
  predicate Granted(db: Store, w: World, backends: map<string, Backend>, req: Request, b: string) {
    && req.trusted
    && b in db.buckets && GoodBucket(b) && NamesBucket(req.path, b)
    && w.now < db.buckets[b].expiration
    && Usable(db, db.buckets[b].pool, w)
    && db.buckets[b].pool in backends && backends[db.buckets[b].pool].state.Ready?
    && match req.credential
       case None => PublicAllows(db.buckets[b].policy, req.verb)
       case Some(k) =>
         && k in db.secrets && req.signed && w.now < db.secrets[k].expiration
         && db.secrets[k].pool == db.buckets[b].pool
         && KeyAllows(db.secrets[k].policy, req.verb)
  }

  /** Records as the start protocol leaves them. */
  ghost predicate GoodBackends(c: C.Conf, backends: map<string, Backend>) {
    forall p | p in backends :: backends[p].pool == p && P.GoodRecord(c, backends[p])
  }

  // ---- paths ----

  /** The part of a string before its first slash, or all of it. */
  function Head(s: string): string {
    if s == "" || s[0] == '/' then "" else [s[0]] + Head(s[1..])
  }

  lemma {:induction false} SplitHead(s: string)
    ensures Split(s)[0] == Head(s)
    ensures |Split(s)| == 1 <==> '/' !in s
  {
    if s != "" {
      SplitHead(s[1..]);
      assert s == [s[0]] + s[1..];
    }
  }

  lemma {:induction false} HeadIs(s: string, b: string)
    requires '/' !in b
    ensures Head(s) == b <==> s == b || StartsWith(s, b + "/")
    decreases |s|
  {
    if b == "" {
      assert b + "/" == "/";
      assert s != "" ==> s[..1] == [s[0]];
    } else if s == "" {
    } else {
      assert b == [b[0]] + b[1..] && s == [s[0]] + s[1..];
      if s[0] == b[0] {
        HeadIs(s[1..], b[1..]);
        StartsWithTail(s, b + "/");
        assert (b + "/")[1..] == b[1..] + "/";
      } else {
        assert |b| < |s| ==> s[..|b| + 1][0] == s[0];
      }
    }
  }

  lemma StartsWithTail(s: string, p: string)
    requires s != "" && p != "" && s[0] == p[0]
    ensures StartsWith(s, p) <==> StartsWith(s[1..], p[1..])
  {
    assert p == [p[0]] + p[1..];
    assert |p| <= |s| ==> s[..|p|] == [s[0]] + s[1..][..|p| - 1];
  }

  /** The picked segment of an absolute path is the bucket the path names. */
  lemma PickIs(path: string, b: string)
    requires path != "" && path[0] == '/' && '/' !in b
    ensures |Split(path)| >= 2 && Split(path)[0] == ""
    ensures Split(path)[1] == b <==> NamesBucket(path, b)
  {
    SplitHead(path[1..]);
    HeadIs(path[1..], b);
    assert path == "/" + path[1..];
    assert path == "/" + b <==> path[1..] == b;
    StartsWithTail(path, "/" + b + "/");
    assert ("/" + b + "/")[1..] == b + "/";
  }

  lemma {:induction false} HeadHasNoSlash(s: string)
    ensures '/' !in Head(s)
  {
    if s != "" && s[0] != '/' {
      HeadHasNoSlash(s[1..]);
    }
  }

  /** Picking a bucket panics exactly on a path without a slash. */
  lemma PickPanics(path: string)
    ensures PickBucket(path) == Stop(Panic) <==> '/' !in path
  {
    SplitHead(path);
  }

  /** The bucket found for an absolute path is the registered bucket that it names. */
  lemma CheckBucketIs(db: Store, path: string, b: string)
    requires path != "" && path[0] == '/'
    ensures CheckBucket(db, path) != Stop(Panic)
    ensures b in db.buckets && GoodBucket(b) && NamesBucket(path, b) ==>
              CheckBucket(db, path) == Pass(Some(db.buckets[b])) && b == Head(path[1..])
    ensures CheckBucket(db, path).Pass? && CheckBucket(db, path).value.Some? ==>
              var name := Head(path[1..]);
              && name in db.buckets && GoodBucket(name) && NamesBucket(path, name)
              && CheckBucket(db, path).value.value == db.buckets[name]
  {
    SplitHead(path[1..]);
    HeadHasNoSlash(path[1..]);
    PickIs(path, Head(path[1..]));
    if '/' !in b {
      PickIs(path, b);
    }
  }

  // ---- the theorem ----

  lemma KeyPoliciesAllow(policy: SecretPolicy, verb: string)
    ensures policy in KeyPolicies(verb) <==> KeyAllows(policy, verb)
  {
  }

  lemma BucketPoliciesAllow(policy: BucketPolicy, verb: string)
    ensures policy in BucketPolicies(verb) <==> PublicAllows(policy, verb)
  {
  }

  lemma PassedChecks(db: Store, w: World, backends: map<string, Backend>, c: C.Conf, pool: string)
    requires GoodBackends(c, backends)
    ensures EnsurePool(db, pool, w).Pass? <==> Usable(db, pool, w)
    ensures EnsurePool(db, pool, w).Stop? ==> EnsurePool(db, pool, w).response.Refuse?
    ensures EnsureBackend(backends, pool).Pass? <==> pool in backends && backends[pool].state.Ready?
    ensures EnsureBackend(backends, pool).Pass? ==> EnsureBackend(backends, pool).value == backends[pool]
    ensures EnsureBackend(backends, pool).Stop? ==>
              EnsureBackend(backends, pool).response.Refuse? && EnsureBackend(backends, pool).response != Refuse(MissingPool)
  {
  }

  /** The record of the key that a request names, if there is one, carries that key. */
  predicate KeyRight(db: Store, req: Request) {
    req.credential.Some? && req.credential.value in db.secrets ==>
      db.secrets[req.credential.value].accessKey == req.credential.value
  }

  /** For every state of the database, consistent or not, and every request with an
      absolute path: the chain panics exactly when a trusted request names a key
      whose record carries another one; else it forwards exactly when the request is
      granted, and then to the running backend of the bucket's own pool, never under
      an internal key.  In a consistent state no pool is ever missing. */
  lemma ServeIsGranted(db: Store, w: World, backends: map<string, Backend>, req: Request, reconciled: bool, c: C.Conf)
    requires GoodBackends(c, backends)
    requires req.path != "" && req.path[0] == '/'
    ensures Serve(db, w, backends, req, reconciled).Panic? <==> req.trusted && !KeyRight(db, req)
    ensures KeyRight(db, req) ==>
              (Serve(db, w, backends, req, reconciled).Forward? <==> exists b :: Granted(db, w, backends, req, b))
    ensures KeyRight(db, req) ==>
              forall b | Granted(db, w, backends, req, b) ::
                var r := Serve(db, w, backends, req, reconciled);
                && r.Forward? && r.be == backends[db.buckets[b].pool] && r.be.pool == db.buckets[b].pool
                && r.be.ep.HostPort?
                && (r.key == "--" || (r.key in db.secrets && !db.secrets[r.key].policy.KeyInternal?))
    ensures Sound(db) ==> Serve(db, w, backends, req, reconciled) != Refuse(MissingPool)
  {
    hide Serve, CheckBucket, CheckAuthenticated, Granted, Sound, GoodBackends;
    if Sound(db) {
      ServeFindsPool(db, w, backends, req, reconciled);
    }
    if !KeyRight(db, req) {
      WrongKeyPanics(db, w, backends, req, reconciled, c);
    } else {
      ServeOnRightKey(db, w, backends, req, reconciled, c);
    }
  }

  lemma WrongKeyPanics(db: Store, w: World, backends: map<string, Backend>, req: Request, reconciled: bool, c: C.Conf)
    requires !KeyRight(db, req)
    ensures Serve(db, w, backends, req, reconciled).Panic? <==> req.trusted
  {
    if req.trusted {
      ServeStops(db, w, backends, req, reconciled);
    }
  }

  lemma ServeOnRightKey(db: Store, w: World, backends: map<string, Backend>, req: Request, reconciled: bool, c: C.Conf)
    requires GoodBackends(c, backends) && KeyRight(db, req)
    requires req.path != "" && req.path[0] == '/'
    ensures !Serve(db, w, backends, req, reconciled).Panic?
    ensures Serve(db, w, backends, req, reconciled).Forward? <==> exists b :: Granted(db, w, backends, req, b)
    ensures forall b | Granted(db, w, backends, req, b) ::
              var r := Serve(db, w, backends, req, reconciled);
              && r.Forward? && r.be == backends[db.buckets[b].pool] && r.be.pool == db.buckets[b].pool
              && r.be.ep.HostPort?
              && (r.key == "--" || (r.key in db.secrets && !db.secrets[r.key].policy.KeyInternal?))
  {
    var name := Head(req.path[1..]);
    hide Serve, CheckBucket, CheckAuthenticated, Granted, GoodBackends, KeyRight;
    forall b | Granted(db, w, backends, req, b) ensures b == name {
      GrantedIsNamed(db, w, backends, req, b);
    }
    if req.trusted && CheckAuthenticated(db, req, w.now).Pass? && CheckBucket(db, req.path).Pass?
       && CheckBucket(db, req.path).value.Some? {
      CheckBucketIs(db, req.path, name);
      ServeOnBucket(db, w, backends, req, reconciled, c, name);
      if Granted(db, w, backends, req, name) {
        GrantedBackend(db, w, backends, req, name, c);
      }
    } else {
      ServeWithoutBucket(db, w, backends, req, reconciled, c);
      if Granted(db, w, backends, req, name) {
        GrantedIsNamed(db, w, backends, req, name);
      }
    }
  }

  /** A granted request names its bucket, and passes the first checks. */
  lemma GrantedIsNamed(db: Store, w: World, backends: map<string, Backend>, req: Request, b: string)
    requires req.path != "" && req.path[0] == '/' && Granted(db, w, backends, req, b) && KeyRight(db, req)
    ensures b == Head(req.path[1..]) && req.trusted
    ensures CheckBucket(db, req.path) == Pass(Some(db.buckets[b]))
    ensures CheckAuthenticated(db, req, w.now).Pass?
  {
    hide CheckBucket, GoodBucket, NamesBucket, Usable;
    CheckBucketIs(db, req.path, b);
  }

  lemma GrantedBackend(db: Store, w: World, backends: map<string, Backend>, req: Request, b: string, c: C.Conf)
    requires Granted(db, w, backends, req, b) && GoodBackends(c, backends)
    ensures var pool := db.buckets[b].pool;
            pool in backends && backends[pool].pool == pool && backends[pool].ep.HostPort?
    ensures req.credential.Some? ==>
              req.credential.value in db.secrets && !db.secrets[req.credential.value].policy.KeyInternal?
  {
    hide GoodBucket, NamesBucket, Usable;
  }

  lemma ServeWithoutBucket(db: Store, w: World, backends: map<string, Backend>, req: Request, reconciled: bool, c: C.Conf)
    requires KeyRight(db, req) && GoodBackends(c, backends) && req.path != "" && req.path[0] == '/'
    requires !(req.trusted && CheckAuthenticated(db, req, w.now).Pass? && CheckBucket(db, req.path).Pass?
               && CheckBucket(db, req.path).value.Some?)
    ensures var r := Serve(db, w, backends, req, reconciled); !r.Forward? && !r.Panic?
  {
    hide PickBucket, EnsurePool, EnsureBackend, GoodBackends;
    var key := CheckAuthenticated(db, req, w.now);
    CheckBucketStops(db, req.path);
    if key.Pass? && key.value.Some? {
      PassedChecks(db, w, backends, c, key.value.value.pool);
    }
  }

  lemma CheckBucketStops(db: Store, path: string)
    requires path != "" && path[0] == '/'
    ensures CheckBucket(db, path).Stop? ==>
              CheckBucket(db, path).response == Refuse(BadBucketName) || CheckBucket(db, path).response == Refuse(NoBucket)
  {
    SplitHead(path[1..]);
    PickIs(path, "");
  }

  lemma ServeOnBucket(db: Store, w: World, backends: map<string, Backend>, req: Request, reconciled: bool, c: C.Conf, b: string)
    requires KeyRight(db, req) && GoodBackends(c, backends) && req.trusted
    requires b in db.buckets && CheckBucket(db, req.path) == Pass(Some(db.buckets[b]))
    requires GoodBucket(b) && NamesBucket(req.path, b)
    requires CheckAuthenticated(db, req, w.now).Pass?
    ensures Serve(db, w, backends, req, reconciled).Forward? <==> Granted(db, w, backends, req, b)
    ensures Serve(db, w, backends, req, reconciled).Forward? ==>
              Serve(db, w, backends, req, reconciled) ==
              Forward(backends[db.buckets[b].pool], if req.credential.None? then "--" else req.credential.value)
    ensures !Serve(db, w, backends, req, reconciled).Panic?
  {
    hide CheckBucket, NamesBucket, GoodBucket, Usable, EnsurePool, EnsureBackend, KeyPolicies, BucketPolicies, KeyAllows, PublicAllows;
    hide GoodBackends;
    var bucket := db.buckets[b];
    PassedChecks(db, w, backends, c, bucket.pool);
    BucketPoliciesAllow(bucket.policy, req.verb);
    var key := CheckAuthenticated(db, req, w.now).value;
    if key.Some? {
      KeyPoliciesAllow(key.value.policy, req.verb);
      PassedChecks(db, w, backends, c, key.value.pool);
      InternalAllowsNothing(key.value.policy, req.verb);
    }
  }

  /** In a consistent state the pool of a bucket or key is there. */
  lemma ServeFindsPool(db: Store, w: World, backends: map<string, Backend>, req: Request, reconciled: bool)
    requires Sound(db)
    ensures Serve(db, w, backends, req, reconciled) != Refuse(MissingPool)
  {
    hide Sound;
    MembersHavePools(db);
    FirstChecksFindPool(db, req, w.now);
    hide CheckAuthenticated, CheckBucket, ServeProbe, ServeAnonymous, ServeAuthenticated;
    var key, bucket := CheckAuthenticated(db, req, w.now), CheckBucket(db, req.path);
    if key.Pass? && key.value.Some? {
      ProbeFindsPool(db, w, backends, req, key.value.value, reconciled);
    }
    if bucket.Pass? && bucket.value.Some? {
      AnonymousFindsPool(db, w, backends, req, bucket.value.value);
      if key.Pass? && key.value.Some? {
        AuthenticatedFindsPool(db, w, backends, req, bucket.value.value, key.value.value);
      }
    }
  }

  /** The first two checks do not look at pools; what they find is in the tables. */
  lemma FirstChecksFindPool(db: Store, req: Request, now: int)
    requires forall b | b in db.buckets :: db.buckets[b].pool in db.pools
    requires forall k | k in db.secrets :: db.secrets[k].pool in db.pools
    ensures var r := CheckAuthenticated(db, req, now);
            && r != Stop(Refuse(MissingPool))
            && (r.Pass? && r.value.Some? ==> r.value.value.pool in db.pools)
    ensures var r := CheckBucket(db, req.path);
            && r != Stop(Refuse(MissingPool))
            && (r.Pass? && r.value.Some? ==> r.value.value.pool in db.pools)
  {
    hide Split, GoodBucket;
  }

  lemma EnsuredIsThere(db: Store, w: World, backends: map<string, Backend>, pool: string)
    requires pool in db.pools
    ensures EnsurePool(db, pool, w) != Stop(Refuse(MissingPool))
    ensures EnsureBackend(backends, pool) != Stop(Refuse(MissingPool))
  {
    hide PoolUsable;
  }

  lemma ProbeFindsPool(db: Store, w: World, backends: map<string, Backend>, req: Request, k: Secret, reconciled: bool)
    requires k.pool in db.pools
    ensures ServeProbe(db, w, backends, req, k, reconciled) != Refuse(MissingPool)
  {
    hide EnsurePool, EnsureBackend;
    EnsuredIsThere(db, w, backends, k.pool);
  }

  lemma AnonymousFindsPool(db: Store, w: World, backends: map<string, Backend>, req: Request, b: Bucket)
    requires b.pool in db.pools
    ensures ServeAnonymous(db, w, backends, req, b) != Refuse(MissingPool)
  {
    hide EnsurePool, EnsureBackend, BucketPolicies;
    EnsuredIsThere(db, w, backends, b.pool);
  }

  lemma AuthenticatedFindsPool(db: Store, w: World, backends: map<string, Backend>, req: Request, b: Bucket, k: Secret)
    requires b.pool in db.pools
    ensures ServeAuthenticated(db, w, backends, req, b, k) != Refuse(MissingPool)
  {
    hide EnsurePool, EnsureBackend, KeyPolicies;
    EnsuredIsThere(db, w, backends, b.pool);
  }

  lemma InternalAllowsNothing(policy: SecretPolicy, verb: string)
    ensures policy.KeyInternal? ==> !KeyAllows(policy, verb)
  {
  }

  // ---- the table of expected responses ----

  /** A served pool: everything but the key and the method is as it should be. */
  predicate WellSet(db: Store, w: World, backends: map<string, Backend>, req: Request, b: string) {
    && req.trusted
    && b in db.buckets && GoodBucket(b) && NamesBucket(req.path, b)
    && w.now < db.buckets[b].expiration
    && Usable(db, db.buckets[b].pool, w)
    && db.buckets[b].pool in backends && backends[db.buckets[b].pool].state.Ready?
    && (req.credential.Some? ==>
          && req.credential.value in db.secrets && req.signed
          && !db.secrets[req.credential.value].policy.KeyInternal?)
  }

  /** What the access test expects: without a key the bucket policy decides; an
      expired key and a key of another pool are refused; else the key policy
      decides, whatever the bucket policy is.  A refusal is always a 403. */
  predicate Expected(db: Store, w: World, req: Request, b: string)
    requires b in db.buckets && (req.credential.Some? ==> req.credential.value in db.secrets)
  {
    match req.credential
    case None => PublicAllows(db.buckets[b].policy, req.verb)
    case Some(k) =>
      && w.now < db.secrets[k].expiration
      && db.secrets[k].pool == db.buckets[b].pool
      && KeyAllows(db.secrets[k].policy, req.verb)
  }

  lemma ServeIsExpected(db: Store, w: World, backends: map<string, Backend>, req: Request, reconciled: bool, c: C.Conf, b: string)
    requires KeyRight(db, req) && GoodBackends(c, backends) && req.path != "" && req.path[0] == '/'
    requires WellSet(db, w, backends, req, b)
    ensures var r := Serve(db, w, backends, req, reconciled);
            if Expected(db, w, req, b) then r.Forward? && r.be == backends[db.buckets[b].pool]
            else r.Refuse? && Code(r.why) == 403
  {
    hide GoodBackends, Serve, CheckAuthenticated, CheckBucket, KeyAllows, PublicAllows;
    hide ServeAnonymous, ServeAuthenticated, GoodBucket, NamesBucket, Usable;
    assert CheckBucket(db, req.path) == Pass(Some(db.buckets[b])) by { CheckBucketIs(db, req.path, b); }
    AuthenticatedIs(db, req, w.now);
    match req.credential
    case None =>
      AnonymousIsExpected(db, w, backends, req, c, b);
      ServeSelects(db, w, backends, req, reconciled, db.buckets[b], None);
    case Some(k) =>
      KeyedIsExpected(db, w, backends, req, c, b, db.secrets[k]);
      if w.now < db.secrets[k].expiration {
        ServeSelects(db, w, backends, req, reconciled, db.buckets[b], Some(db.secrets[k]));
      } else {
        ServeStops(db, w, backends, req, reconciled);
      }
  }

  lemma AuthenticatedIs(db: Store, req: Request, now: int)
    requires KeyRight(db, req) && (req.credential.Some? ==> req.credential.value in db.secrets && req.signed)
    ensures CheckAuthenticated(db, req, now) ==
            match req.credential
            case None => Pass(None)
            case Some(k) =>
              if now < db.secrets[k].expiration then Pass(Some(db.secrets[k])) else Stop(Refuse(ExpiredKey))
  {
  }

  lemma ServeSelects(db: Store, w: World, backends: map<string, Backend>, req: Request, reconciled: bool,
                     b: Bucket, key: Option<Secret>)
    requires req.trusted && CheckAuthenticated(db, req, w.now) == Pass(key) && CheckBucket(db, req.path) == Pass(Some(b))
    requires key.Some? ==> !key.value.policy.KeyInternal?
    ensures Serve(db, w, backends, req, reconciled) ==
            match key
            case None => ServeAnonymous(db, w, backends, req, b)
            case Some(k) => ServeAuthenticated(db, w, backends, req, b, k)
  {
    hide CheckAuthenticated, CheckBucket, ServeAnonymous, ServeAuthenticated, ServeProbe;
  }

  lemma ServeStops(db: Store, w: World, backends: map<string, Backend>, req: Request, reconciled: bool)
    requires req.trusted && CheckAuthenticated(db, req, w.now).Stop?
    ensures Serve(db, w, backends, req, reconciled) == CheckAuthenticated(db, req, w.now).response
  {
    hide CheckAuthenticated;
  }

  lemma AnonymousIsExpected(db: Store, w: World, backends: map<string, Backend>, req: Request, c: C.Conf, b: string)
    requires GoodBackends(c, backends) && WellSet(db, w, backends, req, b)
    ensures var bucket := db.buckets[b];
            ServeAnonymous(db, w, backends, req, bucket) ==
            if PublicAllows(bucket.policy, req.verb) then Forward(backends[bucket.pool], "--") else Refuse(NoPermission)
  {
    PassedChecks(db, w, backends, c, db.buckets[b].pool);
    BucketPoliciesAllow(db.buckets[b].policy, req.verb);
    hide NamesBucket, GoodBucket, Usable, EnsurePool, EnsureBackend, BucketPolicies, PublicAllows, GoodBackends;
  }

  lemma KeyedIsExpected(db: Store, w: World, backends: map<string, Backend>, req: Request, c: C.Conf, b: string, k: Secret)
    requires GoodBackends(c, backends) && WellSet(db, w, backends, req, b)
    ensures var bucket := db.buckets[b];
            ServeAuthenticated(db, w, backends, req, bucket, k) ==
            if bucket.pool != k.pool then Refuse(NotOwner)
            else if KeyAllows(k.policy, req.verb) then Forward(backends[bucket.pool], k.accessKey)
            else Refuse(NoPermission)
  {
    PassedChecks(db, w, backends, c, db.buckets[b].pool);
    KeyPoliciesAllow(k.policy, req.verb);
    hide NamesBucket, GoodBucket, Usable, EnsurePool, EnsureBackend, KeyPolicies, KeyAllows, GoodBackends;
  }

  // ---- probes and refusals ----

  /** A probe is served: a trusted peer, not relayed from outside, with a good internal
      key, no bucket in the path or a registered one, a usable pool with a running
      backend, and all its buckets made. */
  predicate ProbeGranted(db: Store, w: World, backends: map<string, Backend>, req: Request, reconciled: bool) {
    && req.trusted && !req.relayed && reconciled
    && req.credential.Some? && req.credential.value in db.secrets && req.signed
    && var k := db.secrets[req.credential.value];
    && w.now < k.expiration && k.policy.KeyInternal?
    && BucketFree(db, req.path)
    && Usable(db, k.pool, w)
    && k.pool in backends && backends[k.pool].state.Ready?
  }

  /** The path names no bucket, or a registered one. */
  predicate BucketFree(db: Store, path: string) {
    path != "" && (Head(path[1..]) == "" || (GoodBucket(Head(path[1..])) && Head(path[1..]) in db.buckets))
  }

  lemma BucketFreeIs(db: Store, path: string)
    requires path != "" && path[0] == '/'
    ensures CheckBucket(db, path).Pass? <==> BucketFree(db, path)
  {
    SplitHead(path[1..]);
    HeadHasNoSlash(path[1..]);
    PickIs(path, Head(path[1..]));
    hide GoodBucket;
  }

  /** In every state, a request is answered as a probe that is done if and only if it is
      one that is granted. */
  lemma ProbeIsGranted(db: Store, w: World, backends: map<string, Backend>, req: Request, reconciled: bool, c: C.Conf)
    requires KeyRight(db, req) && GoodBackends(c, backends) && req.path != "" && req.path[0] == '/'
    ensures Serve(db, w, backends, req, reconciled) == ProbeDone <==> ProbeGranted(db, w, backends, req, reconciled)
  {
    BucketFreeIs(db, req.path);
    CheckBucketStops(db, req.path);
    hide CheckBucket, BucketFree, Usable, GoodBackends;
    var key := CheckAuthenticated(db, req, w.now);
    if key.Pass? && key.value.Some? {
      ServeProbeIs(db, w, backends, req, key.value.value, reconciled, c);
    }
    var bucket := CheckBucket(db, req.path);
    if bucket.Pass? && bucket.value.Some? {
      NeverProbeDone(db, w, backends, req, bucket.value.value);
      if key.Pass? && key.value.Some? {
        NeverProbeDoneKeyed(db, w, backends, req, bucket.value.value, key.value.value);
      }
    }
    hide ServeProbe, ServeAnonymous, ServeAuthenticated;
  }

  lemma ServeProbeIs(db: Store, w: World, backends: map<string, Backend>, req: Request, k: Secret, reconciled: bool, c: C.Conf)
    requires GoodBackends(c, backends)
    ensures ServeProbe(db, w, backends, req, k, reconciled) == ProbeDone <==>
            !req.relayed && reconciled && Usable(db, k.pool, w) && k.pool in backends && backends[k.pool].state.Ready?
  {
    hide EnsurePool, EnsureBackend, Usable, GoodBackends;
    PassedChecks(db, w, backends, c, k.pool);
  }

  lemma NeverProbeDone(db: Store, w: World, backends: map<string, Backend>, req: Request, b: Bucket)
    ensures ServeAnonymous(db, w, backends, req, b) != ProbeDone
  {
    hide PoolUsable, BucketPolicies;
  }

  lemma NeverProbeDoneKeyed(db: Store, w: World, backends: map<string, Backend>, req: Request, b: Bucket, k: Secret)
    ensures ServeAuthenticated(db, w, backends, req, b, k) != ProbeDone
  {
    hide PoolUsable, KeyPolicies;
  }

  /** What each refusal says of the request and the state; `name` is the first part of
      the path, and `pool` the pool of the bucket or, for a probe, of the key. */
  predicate Truthful(db: Store, w: World, backends: map<string, Backend>, req: Request, reconciled: bool,
                     why: Refusal, name: string, pool: string)
  {
    match why
    case NotTrusted => !req.trusted
    case UnknownKey => req.credential.Some? && req.credential.value !in db.secrets
    case BadSignature => req.credential.Some? && !req.signed
    case ExpiredKey => HasKey(db, req) && w.now >= db.secrets[req.credential.value].expiration
    case BadBucketName => name != "" && !GoodBucket(name)
    case NoBucket => name != "" && name !in db.buckets
    case AnonymousListing => name == "" && req.credential.None?
    case Listing => name == "" && HasKey(db, req)
    case NotOwner => HasKey(db, req) && name in db.buckets && db.secrets[req.credential.value].pool != db.buckets[name].pool
    case ExpiredBucket => name in db.buckets && w.now >= db.buckets[name].expiration
    case MissingPool => pool !in db.pools
    case PoolDisabled => pool in db.pools && !db.pools[pool].inoperable && !Usable(db, pool, w)
    case PoolInoperable => pool in db.pools && db.pools[pool].inoperable
    case NoPermission =>
      && name in db.buckets
      && (if req.credential.None? then !PublicAllows(db.buckets[name].policy, req.verb)
          else HasKey(db, req) && !KeyAllows(db.secrets[req.credential.value].policy, req.verb))
    case CannotStart => pool !in backends
    case PoolSuspendedNow => pool in backends && backends[pool].state.Suspended?
    case ProbeFromOutside => HasKey(db, req) && db.secrets[req.credential.value].policy.KeyInternal? && req.relayed
    case ProbeFailed => HasKey(db, req) && db.secrets[req.credential.value].policy.KeyInternal? && !reconciled
  }

  predicate HasKey(db: Store, req: Request) {
    req.credential.Some? && req.credential.value in db.secrets
  }

  /** The pool that a request is for. */
  function Target(db: Store, req: Request, name: string): string {
    if HasKey(db, req) && db.secrets[req.credential.value].policy.KeyInternal? then db.secrets[req.credential.value].pool
    else if name in db.buckets then db.buckets[name].pool
    else ""
  }

  lemma EnsureSays(db: Store, w: World, backends: map<string, Backend>, req: Request, reconciled: bool, name: string, pool: string)
    ensures EnsurePool(db, pool, w).Stop? && EnsurePool(db, pool, w).response.Refuse? ==>
              Truthful(db, w, backends, req, reconciled, EnsurePool(db, pool, w).response.why, name, pool)
    ensures EnsureBackend(backends, pool).Stop? && EnsureBackend(backends, pool).response.Refuse? ==>
              Truthful(db, w, backends, req, reconciled, EnsureBackend(backends, pool).response.why, name, pool)
  {
  }

  lemma ProbeSays(db: Store, w: World, backends: map<string, Backend>, req: Request, reconciled: bool, name: string)
    requires HasKey(db, req) && db.secrets[req.credential.value].policy.KeyInternal?
    ensures var r := ServeProbe(db, w, backends, req, db.secrets[req.credential.value], reconciled);
            r.Refuse? ==> Truthful(db, w, backends, req, reconciled, r.why, name, db.secrets[req.credential.value].pool)
  {
    hide EnsurePool, EnsureBackend, Usable, GoodBucket, PublicAllows, KeyAllows;
    EnsureSays(db, w, backends, req, reconciled, name, db.secrets[req.credential.value].pool);
  }

  lemma AnonymousSays(db: Store, w: World, backends: map<string, Backend>, req: Request, reconciled: bool, name: string)
    requires req.credential.None? && name in db.buckets
    ensures var r := ServeAnonymous(db, w, backends, req, db.buckets[name]);
            r.Refuse? ==> Truthful(db, w, backends, req, reconciled, r.why, name, db.buckets[name].pool)
  {
    hide EnsurePool, EnsureBackend, Usable, GoodBucket, PublicAllows, KeyAllows, BucketPolicies;
    EnsureSays(db, w, backends, req, reconciled, name, db.buckets[name].pool);
    BucketPoliciesAllow(db.buckets[name].policy, req.verb);
  }

  lemma AuthenticatedSays(db: Store, w: World, backends: map<string, Backend>, req: Request, reconciled: bool, name: string)
    requires HasKey(db, req) && name in db.buckets
    ensures var r := ServeAuthenticated(db, w, backends, req, db.buckets[name], db.secrets[req.credential.value]);
            r.Refuse? ==> Truthful(db, w, backends, req, reconciled, r.why, name, db.buckets[name].pool)
  {
    hide EnsurePool, EnsureBackend, Usable, GoodBucket, PublicAllows, KeyAllows, KeyPolicies;
    EnsureSays(db, w, backends, req, reconciled, name, db.buckets[name].pool);
    KeyPoliciesAllow(db.secrets[req.credential.value].policy, req.verb);
  }

  lemma KeyCheckSays(db: Store, w: World, backends: map<string, Backend>, req: Request, reconciled: bool, name: string, pool: string)
    ensures var key := CheckAuthenticated(db, req, w.now);
            && (key.Stop? && key.response.Refuse? ==> Truthful(db, w, backends, req, reconciled, key.response.why, name, pool))
            && (key.Pass? ==> key.value == if req.credential.None? then None else Some(db.secrets[req.credential.value]))
            && (key.Pass? && req.credential.Some? ==> HasKey(db, req))
  {
    hide GoodBucket, Usable, PublicAllows, KeyAllows;
  }

  lemma BucketCheckSays(db: Store, w: World, backends: map<string, Backend>, req: Request, reconciled: bool, pool: string)
    requires req.path != "" && req.path[0] == '/'
    ensures var name := Head(req.path[1..]); var bucket := CheckBucket(db, req.path);
            && (bucket.Stop? && bucket.response.Refuse? ==>
                  Truthful(db, w, backends, req, reconciled, bucket.response.why, name, pool))
            && (bucket.Pass? ==> (bucket.value.None? <==> name == ""))
            && (bucket.Pass? && bucket.value.Some? ==> name in db.buckets && bucket.value.value == db.buckets[name])
  {
    SplitHead(req.path[1..]);
    HeadHasNoSlash(req.path[1..]);
    PickIs(req.path, Head(req.path[1..]));
    hide GoodBucket, Usable, PublicAllows, KeyAllows, Head;
  }

  /** Every refusal is true of the request and the state it was given in. */
  lemma RefusalIsTruthful(db: Store, w: World, backends: map<string, Backend>, req: Request, reconciled: bool)
    requires req.path != "" && req.path[0] == '/'
    ensures var r := Serve(db, w, backends, req, reconciled); var name := Head(req.path[1..]);
            r.Refuse? ==> Truthful(db, w, backends, req, reconciled, r.why, name, Target(db, req, name))
  {
    var name := Head(req.path[1..]);
    KeyCheckSays(db, w, backends, req, reconciled, name, Target(db, req, name));
    BucketCheckSays(db, w, backends, req, reconciled, Target(db, req, name));
    if req.trusted && CheckAuthenticated(db, req, w.now).Pass? && CheckBucket(db, req.path).Pass? {
      if HasKey(db, req) && db.secrets[req.credential.value].policy.KeyInternal? {
        ProbeSays(db, w, backends, req, reconciled, name);
      } else if name in db.buckets {
        if req.credential.None? {
          AnonymousSays(db, w, backends, req, reconciled, name);
        } else {
          AuthenticatedSays(db, w, backends, req, reconciled, name);
        }
      }
    }
    hide CheckAuthenticated, CheckBucket, ServeProbe, ServeAnonymous, ServeAuthenticated, GoodBucket, Usable, PublicAllows, KeyAllows;
  }

  /** What each status code says, over all refusals that carry it: 401 a key that is
      unknown or does not sign, 404 an unknown bucket or pool, 503 a suspended pool, 502
      buckets that could not be made, 400 a malformed bucket or a listing under a key, 500
      an untrusted peer, a marked pool, no backend or a probe from outside, and 403
      anything expired, disabled, of another pool or not permitted. */
  lemma StatusIsTruthful(db: Store, w: World, backends: map<string, Backend>, req: Request, reconciled: bool)
    requires req.path != "" && req.path[0] == '/'
    ensures var r := Serve(db, w, backends, req, reconciled); var name := Head(req.path[1..]); var pool := Target(db, req, name);
            r.Refuse? ==>
              match Code(r.why)
              case 401 => req.credential.Some? && (req.credential.value in db.secrets ==> !req.signed)
              case 404 => (name != "" && name !in db.buckets) || pool !in db.pools
              case 503 => pool in backends && backends[pool].state.Suspended?
              case 502 => !reconciled && IsProbe(db, req)
              case 400 => (name != "" && !GoodBucket(name)) || (name == "" && HasKey(db, req))
              case 500 =>
                || !req.trusted || (pool in db.pools && db.pools[pool].inoperable)
                || pool !in backends || (req.relayed && IsProbe(db, req))
              case 403 =>
                || (HasKey(db, req) && w.now >= db.secrets[req.credential.value].expiration)
                || (name == "" && req.credential.None?)
                || (name in db.buckets
                    && (w.now >= db.buckets[name].expiration || !PublicAllows(db.buckets[name].policy, req.verb)))
                || (HasKey(db, req) && !KeyAllows(db.secrets[req.credential.value].policy, req.verb))
                || (HasKey(db, req) && name in db.buckets && db.secrets[req.credential.value].pool != db.buckets[name].pool)
                || (pool in db.pools && !db.pools[pool].inoperable && !Usable(db, pool, w))
              case _ => false
  {
    hide Serve, Target, Usable, GoodBucket, PublicAllows, KeyAllows;
    RefusalIsTruthful(db, w, backends, req, reconciled);
  }

  predicate IsProbe(db: Store, req: Request) {
    HasKey(db, req) && db.secrets[req.credential.value].policy.KeyInternal?
  }
}
