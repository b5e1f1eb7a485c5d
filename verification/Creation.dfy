/**
 Concurrent make-pool and make-bucket requests (v2/lens3/registrar.go) as a step
 system: any number of handlers, interleaved at every database call, on a
 registry that may already hold pools, while nothing is deleted but by rollback.
 */
module Creation {
  import opened Records

  type Hid = nat

  /** Who made an entry: it was there before, or one of the handlers (a history tag). */
  datatype Maker = Before | Made(h: Hid)

  datatype NameEntry = NameEntry(maker: Maker)
  datatype DirEntry = DirEntry(maker: Maker, pool: string)
  datatype KeyEntry = KeyEntry(maker: Maker, pool: string)
  datatype PoolEntry = PoolEntry(maker: Maker, dir: string, key: string)
  datatype BucketEntry = BucketEntry(maker: Maker, pool: string)

  /** make-pool: a name, the directory, a probe key, the pool, the probe. */
  datatype PoolPc =
    | Naming(tries: nat) | Placing(pool: string)
    | Holding(pool: string) | Unnaming(pool: string) | Owning
    | Keying(pool: string, tries: nat) | Putting(pool: string, key: string)
    | ProbingPool(pool: string, key: string) | ProbingPoolKey(pool: string, key: string, found: string)
    | PoolMade(pool: string, key: string)
    | PoolLost | NoNameLeft | NoKeyLeft(pool: string) | PoolPanic

  /** make-bucket: the check of the pool, the bucket, the probe. */
  datatype BucketPc =
    | Checking | Claiming | BucketHolding | ProbingBucket | ProbingBucketKey(found: string)
    | Dropping | BucketMade | BucketLost | BucketPanic

  datatype Handler =
    | MakePool(path: string, at: PoolPc)
    | MakeBucket(pool: string, bucket: string, step: BucketPc)

  datatype State = State(
    names: map<string, NameEntry>,     // px:
    dirs: map<string, DirEntry>,       // bd:
    keys: map<string, KeyEntry>,       // sx:
    pools: map<string, PoolEntry>,     // po:
    buckets: map<string, BucketEntry>, // bk:
    handlers: map<Hid, Handler>)

  const ID_LIMIT := 30

  datatype Action =
    | Arrive(h: Hid, handler: Handler)
    | DoName(h: Hid, id: string) | DoPlace(h: Hid) | DoHolder(h: Hid) | DoUnname(h: Hid) | DoOwner(h: Hid)
    | DoKey(h: Hid, id: string) | DoPut(h: Hid) | DoProbePool(h: Hid) | DoProbePoolKey(h: Hid)
    | DoCheck(h: Hid) | DoClaim(h: Hid) | DoBucketHolder(h: Hid)
    | DoProbeBucket(h: Hid) | DoProbeBucketKey(h: Hid, ok: bool) | DoDrop(h: Hid)

  function With(s: State, h: Hid, x: Handler): State {
    s.(handlers := s.handlers[h := x])
  }

  /** The steps of make-pool. */
  function ApplyPool(s: State, a: Action, h: Hid): Option<State>
    requires h in s.handlers && s.handlers[h].MakePool?
  {
    var x := s.handlers[h];
    match a
    case DoName(_, id) =>
      if !x.at.Naming? then None
      else if id !in s.names then
        Some(With(s, h, x.(at := Placing(id))).(names := s.names[id := NameEntry(Made(h))]))
      else Some(With(s, h, x.(at := if x.at.tries + 1 < ID_LIMIT then Naming(x.at.tries + 1) else NoNameLeft)))
    case DoPlace(_) =>
      if !x.at.Placing? then None
      else if x.path !in s.dirs then
        Some(With(s, h, x.(at := Keying(x.at.pool, 0))).(dirs := s.dirs[x.path := DirEntry(Made(h), x.at.pool)]))
      else Some(With(s, h, x.(at := Holding(x.at.pool))))
    case DoHolder(_) => if x.at.Holding? then Some(With(s, h, x.(at := Unnaming(x.at.pool)))) else None
    case DoUnname(_) =>
      if x.at.Unnaming? then Some(With(s, h, x.(at := Owning)).(names := s.names - {x.at.pool})) else None
    case DoOwner(_) => if x.at.Owning? then Some(With(s, h, x.(at := PoolLost))) else None
    case DoKey(_, id) =>
      if !x.at.Keying? then None
      else if id !in s.keys then
        Some(With(s, h, x.(at := Putting(x.at.pool, id))).(keys := s.keys[id := KeyEntry(Made(h), x.at.pool)]))
      else
        Some(With(s, h, x.(at := if x.at.tries + 1 < ID_LIMIT then Keying(x.at.pool, x.at.tries + 1)
                                 else NoKeyLeft(x.at.pool))))
    case DoPut(_) =>
      if !x.at.Putting? then None
      else
        Some(With(s, h, x.(at := ProbingPool(x.at.pool, x.at.key))).(
             pools := s.pools[x.at.pool := PoolEntry(Made(h), x.path, x.at.key)]))
    case DoProbePool(_) =>
      if !x.at.ProbingPool? then None
      else if x.at.pool in s.pools
      then Some(With(s, h, x.(at := ProbingPoolKey(x.at.pool, x.at.key, s.pools[x.at.pool].key))))
      else Some(With(s, h, x.(at := PoolPanic)))
    case DoProbePoolKey(_) =>
      if !x.at.ProbingPoolKey? then None
      else Some(With(s, h, x.(at := if x.at.found in s.keys then PoolMade(x.at.pool, x.at.key) else PoolPanic)))
    case _ => None
  }

  /** The steps of make-bucket. */
  function ApplyBucket(s: State, a: Action, h: Hid): Option<State>
    requires h in s.handlers && s.handlers[h].MakeBucket?
  {
    var x := s.handlers[h];
    match a
    case DoCheck(_) =>
      if x.step.Checking? then Some(With(s, h, x.(step := if x.pool in s.pools then Claiming else BucketLost)))
      else None
    case DoClaim(_) =>
      if !x.step.Claiming? then None
      else if x.bucket !in s.buckets then
        Some(With(s, h, x.(step := ProbingBucket)).(buckets := s.buckets[x.bucket := BucketEntry(Made(h), x.pool)]))
      else Some(With(s, h, x.(step := BucketHolding)))
    case DoBucketHolder(_) => if x.step.BucketHolding? then Some(With(s, h, x.(step := BucketLost))) else None
    case DoProbeBucket(_) =>
      if !x.step.ProbingBucket? then None
      else Some(With(s, h, x.(step := if x.pool in s.pools then ProbingBucketKey(s.pools[x.pool].key) else BucketPanic)))
    case DoProbeBucketKey(_, ok) =>
      if !x.step.ProbingBucketKey? then None
      else if x.step.found !in s.keys then Some(With(s, h, x.(step := BucketPanic)))
      else Some(With(s, h, x.(step := if ok then BucketMade else Dropping)))
    case DoDrop(_) =>
      if x.step.Dropping? then Some(With(s, h, x.(step := BucketLost)).(buckets := s.buckets - {x.bucket})) else None
    case _ => None
  }

  /** One database call; None when it is not the handler's next one. */
  function Apply(s: State, a: Action): Option<State> {
    if a.Arrive? then
      if a.h in s.handlers || !Fresh(a.handler) then None else Some(With(s, a.h, a.handler))
    else if a.h !in s.handlers then None
    else if s.handlers[a.h].MakePool? then ApplyPool(s, a, a.h)
    else ApplyBucket(s, a, a.h)
  }

  predicate Fresh(x: Handler) {
    match x
    case MakePool(path, at) => path != "" && at == Naming(0)
    case MakeBucket(_, _, step) => step == Checking
  }

  function Exec(s: State, acts: seq<Action>): Option<State>
    decreases |acts|
  {
    if acts == [] then Some(s)
    else
      match Apply(s, acts[0])
      case None => None
      case Some(s1) => Exec(s1, acts[1..])
  }

  // ---- what a handler has in the tables ----

  function NameOf(x: Handler): Option<string> {
    match x
    case MakePool(_, Placing(pool)) => Some(pool)
    case MakePool(_, Holding(pool)) => Some(pool)
    case MakePool(_, Unnaming(pool)) => Some(pool)
    case MakePool(_, Keying(pool, _)) => Some(pool)
    case MakePool(_, Putting(pool, _)) => Some(pool)
    case MakePool(_, ProbingPool(pool, _)) => Some(pool)
    case MakePool(_, ProbingPoolKey(pool, _, _)) => Some(pool)
    case MakePool(_, PoolMade(pool, _)) => Some(pool)
    case MakePool(_, NoKeyLeft(pool)) => Some(pool)
    case _ => None
  }

  /** A directory with the pool it is for. */
  function DirOf(x: Handler): Option<(string, string)> {
    match x
    case MakePool(path, Keying(pool, _)) => Some((path, pool))
    case MakePool(path, Putting(pool, _)) => Some((path, pool))
    case MakePool(path, ProbingPool(pool, _)) => Some((path, pool))
    case MakePool(path, ProbingPoolKey(pool, _, _)) => Some((path, pool))
    case MakePool(path, PoolMade(pool, _)) => Some((path, pool))
    case MakePool(path, NoKeyLeft(pool)) => Some((path, pool))
    case _ => None
  }

  function KeyOf(x: Handler): Option<(string, string)> {
    match x
    case MakePool(_, Putting(pool, key)) => Some((key, pool))
    case MakePool(_, ProbingPool(pool, key)) => Some((key, pool))
    case MakePool(_, ProbingPoolKey(pool, key, _)) => Some((key, pool))
    case MakePool(_, PoolMade(pool, key)) => Some((key, pool))
    case _ => None
  }

  function PoolOf(x: Handler): Option<(string, string, string)> {
    match x
    case MakePool(path, ProbingPool(pool, key)) => Some((pool, path, key))
    case MakePool(path, ProbingPoolKey(pool, key, _)) => Some((pool, path, key))
    case MakePool(path, PoolMade(pool, key)) => Some((pool, path, key))
    case _ => None
  }

  function BucketOf(x: Handler): Option<(string, string)> {
    match x
    case MakeBucket(pool, bucket, ProbingBucket) => Some((bucket, pool))
    case MakeBucket(pool, bucket, ProbingBucketKey(_)) => Some((bucket, pool))
    case MakeBucket(pool, bucket, Dropping) => Some((bucket, pool))
    case MakeBucket(pool, bucket, BucketMade) => Some((bucket, pool))
    case MakeBucket(pool, bucket, BucketPanic) => Some((bucket, pool))
    case _ => None
  }

  /** Handlers that gave up or were refused, with everything rolled back. */
  predicate Failed(x: Handler) {
    match x
    case MakePool(_, at) => at.PoolLost? || at.NoNameLeft? || at.Owning?
    case MakeBucket(_, _, step) => step.BucketLost? || step.BucketHolding?
  }

  // ---- the tables hold exactly what the handlers have, and what was there before ----

  ghost predicate NamesExact(init: map<string, NameEntry>, names: map<string, NameEntry>, handlers: map<Hid, Handler>) {
    && (forall k | k in names && names[k].maker.Made? ::
          names[k].maker.h in handlers && NameOf(handlers[names[k].maker.h]) == Some(k))
    && (forall h | h in handlers && NameOf(handlers[h]).Some? ::
          var k := NameOf(handlers[h]).value; k in names && names[k].maker == Made(h))
    && (forall k | k in init :: k in names && names[k] == init[k] && init[k].maker.Before?)
    && (forall k | k in names && names[k].maker.Before? :: k in init)
  }

  ghost predicate DirsExact(init: map<string, DirEntry>, dirs: map<string, DirEntry>, handlers: map<Hid, Handler>) {
    && (forall d | d in dirs && dirs[d].maker.Made? ::
          dirs[d].maker.h in handlers && DirOf(handlers[dirs[d].maker.h]) == Some((d, dirs[d].pool)))
    && (forall h | h in handlers && DirOf(handlers[h]).Some? ::
          var v := DirOf(handlers[h]).value; v.0 in dirs && dirs[v.0] == DirEntry(Made(h), v.1))
    && (forall d | d in init :: d in dirs && dirs[d] == init[d] && init[d].maker.Before?)
    && (forall d | d in dirs && dirs[d].maker.Before? :: d in init)
  }

  ghost predicate KeysExact(init: map<string, KeyEntry>, keys: map<string, KeyEntry>, handlers: map<Hid, Handler>) {
    && (forall k | k in keys && keys[k].maker.Made? ::
          keys[k].maker.h in handlers && KeyOf(handlers[keys[k].maker.h]) == Some((k, keys[k].pool)))
    && (forall h | h in handlers && KeyOf(handlers[h]).Some? ::
          var v := KeyOf(handlers[h]).value; v.0 in keys && keys[v.0] == KeyEntry(Made(h), v.1))
    && (forall k | k in init :: k in keys && keys[k] == init[k] && init[k].maker.Before?)
    && (forall k | k in keys && keys[k].maker.Before? :: k in init)
  }

  ghost predicate PoolsExact(init: map<string, PoolEntry>, pools: map<string, PoolEntry>, handlers: map<Hid, Handler>) {
    && (forall p | p in pools && pools[p].maker.Made? ::
          && pools[p].maker.h in handlers
          && PoolOf(handlers[pools[p].maker.h]) == Some((p, pools[p].dir, pools[p].key)))
    && (forall h | h in handlers && PoolOf(handlers[h]).Some? ::
          var v := PoolOf(handlers[h]).value; v.0 in pools && pools[v.0] == PoolEntry(Made(h), v.1, v.2))
    && (forall p | p in init :: p in pools && pools[p] == init[p] && init[p].maker.Before?)
    && (forall p | p in pools && pools[p].maker.Before? :: p in init)
  }

  ghost predicate BucketsExact(init: map<string, BucketEntry>, buckets: map<string, BucketEntry>, handlers: map<Hid, Handler>) {
    && (forall b | b in buckets && buckets[b].maker.Made? ::
          && buckets[b].maker.h in handlers
          && BucketOf(handlers[buckets[b].maker.h]) == Some((b, buckets[b].pool)))
    && (forall h | h in handlers && BucketOf(handlers[h]).Some? ::
          var v := BucketOf(handlers[h]).value; v.0 in buckets && buckets[v.0] == BucketEntry(Made(h), v.1))
    && (forall b | b in init :: b in buckets && buckets[b] == init[b] && init[b].maker.Before?)
    && (forall b | b in buckets && buckets[b].maker.Before? :: b in init)
  }

  /** A bucket handler past its check works on a registered pool, a probe has read a
      key that is there, and no handler panicked; but a probe of a pool in `lost`. */
  predicate Sound(pools: set<string>, keys: set<string>, lost: set<string>, x: Handler) {
    match x
    case MakePool(path, at) => path != "" && !at.PoolPanic? && (at.ProbingPoolKey? ==> at.found in keys)
    case MakeBucket(pool, _, step) =>
      && (step.Checking? || step.BucketLost? || pool in pools)
      && (step.ProbingBucketKey? ==> step.found in keys || pool in lost)
      && (step.BucketPanic? ==> pool in lost)
  }

  ghost predicate HandlersSound(pools: set<string>, keys: set<string>, lost: set<string>, handlers: map<Hid, Handler>) {
    forall h | h in handlers :: Sound(pools, keys, lost, handlers[h])
  }

  /** The pools whose probe key was gone before. */
  function Lost(init: State): set<string> {
    set p | p in init.pools && init.pools[p].key !in init.keys
  }

  /** What may be there before, at the least: no handlers, and a name for every pool.
      There may be names and directories without a pool, and pools without their key. */
  ghost predicate Startable(s: State) {
    && s.handlers == map[]
    && s.pools.Keys <= s.names.Keys
    && (forall k | k in s.names :: s.names[k].maker.Before?)
    && (forall d | d in s.dirs :: s.dirs[d].maker.Before?)
    && (forall k | k in s.keys :: s.keys[k].maker.Before?)
    && (forall p | p in s.pools :: s.pools[p].maker.Before?)
    && (forall b | b in s.buckets :: s.buckets[b].maker.Before?)
  }

  /** A registry with nothing missing: complete pools and their members, no handlers. */
  ghost predicate Consistent(s: State) {
    && s.handlers == map[]
    && s.names.Keys == s.pools.Keys
    && (forall k | k in s.names :: s.names[k].maker.Before?)
    && (forall d | d in s.dirs :: d != "" && s.dirs[d].maker.Before? && s.dirs[d].pool in s.pools && s.pools[s.dirs[d].pool].dir == d)
    && (forall k | k in s.keys :: s.keys[k].maker.Before? && s.keys[k].pool in s.pools)
    && (forall p | p in s.pools ::
          && s.pools[p].maker.Before?
          && s.pools[p].dir in s.dirs && s.dirs[s.pools[p].dir].pool == p
          && s.pools[p].key in s.keys && s.keys[s.pools[p].key].pool == p)
    && (forall b | b in s.buckets :: s.buckets[b].maker.Before? && s.buckets[b].pool in s.pools)
  }

  ghost predicate Inv(init: State, s: State) {
    && NamesExact(init.names, s.names, s.handlers)
    && DirsExact(init.dirs, s.dirs, s.handlers)
    && KeysExact(init.keys, s.keys, s.handlers)
    && PoolsExact(init.pools, s.pools, s.handlers)
    && BucketsExact(init.buckets, s.buckets, s.handlers)
    && HandlersSound(s.pools.Keys, s.keys.Keys, Lost(init), s.handlers)
  }

  // ---- how one step changes one table ----

  lemma NamesKeep(init: map<string, NameEntry>, names: map<string, NameEntry>, handlers: map<Hid, Handler>, h: Hid, x: Handler)
    requires NamesExact(init, names, handlers)
    requires NameOf(x) == if h in handlers then NameOf(handlers[h]) else None
    ensures NamesExact(init, names, handlers[h := x])
  {
  }

  lemma NamesAdd(init: map<string, NameEntry>, names: map<string, NameEntry>, handlers: map<Hid, Handler>, h: Hid, x: Handler)
    requires NamesExact(init, names, handlers) && h in handlers && NameOf(handlers[h]).None?
    requires NameOf(x).Some? && NameOf(x).value !in names
    ensures NamesExact(init, names[NameOf(x).value := NameEntry(Made(h))], handlers[h := x])
  {
  }

  lemma NamesRemove(init: map<string, NameEntry>, names: map<string, NameEntry>, handlers: map<Hid, Handler>, h: Hid, x: Handler)
    requires NamesExact(init, names, handlers) && h in handlers && NameOf(handlers[h]).Some?
    requires NameOf(x).None?
    ensures NamesExact(init, names - {NameOf(handlers[h]).value}, handlers[h := x])
  {
  }

  lemma DirsKeep(init: map<string, DirEntry>, dirs: map<string, DirEntry>, handlers: map<Hid, Handler>, h: Hid, x: Handler)
    requires DirsExact(init, dirs, handlers)
    requires DirOf(x) == if h in handlers then DirOf(handlers[h]) else None
    ensures DirsExact(init, dirs, handlers[h := x])
  {
  }

  lemma DirsAdd(init: map<string, DirEntry>, dirs: map<string, DirEntry>, handlers: map<Hid, Handler>, h: Hid, x: Handler)
    requires DirsExact(init, dirs, handlers) && h in handlers && DirOf(handlers[h]).None?
    requires DirOf(x).Some? && DirOf(x).value.0 !in dirs
    ensures DirsExact(init, dirs[DirOf(x).value.0 := DirEntry(Made(h), DirOf(x).value.1)], handlers[h := x])
  {
  }

  lemma KeysKeep(init: map<string, KeyEntry>, keys: map<string, KeyEntry>, handlers: map<Hid, Handler>, h: Hid, x: Handler)
    requires KeysExact(init, keys, handlers)
    requires KeyOf(x) == if h in handlers then KeyOf(handlers[h]) else None
    ensures KeysExact(init, keys, handlers[h := x])
  {
  }

  lemma KeysAdd(init: map<string, KeyEntry>, keys: map<string, KeyEntry>, handlers: map<Hid, Handler>, h: Hid, x: Handler)
    requires KeysExact(init, keys, handlers) && h in handlers && KeyOf(handlers[h]).None?
    requires KeyOf(x).Some? && KeyOf(x).value.0 !in keys
    ensures KeysExact(init, keys[KeyOf(x).value.0 := KeyEntry(Made(h), KeyOf(x).value.1)], handlers[h := x])
  {
  }

  lemma PoolsKeep(init: map<string, PoolEntry>, pools: map<string, PoolEntry>, handlers: map<Hid, Handler>, h: Hid, x: Handler)
    requires PoolsExact(init, pools, handlers)
    requires PoolOf(x) == if h in handlers then PoolOf(handlers[h]) else None
    ensures PoolsExact(init, pools, handlers[h := x])
  {
  }

  lemma PoolsAdd(init: map<string, PoolEntry>, pools: map<string, PoolEntry>, handlers: map<Hid, Handler>, h: Hid, x: Handler)
    requires PoolsExact(init, pools, handlers) && h in handlers && PoolOf(handlers[h]).None?
    requires PoolOf(x).Some? && PoolOf(x).value.0 !in pools
    ensures PoolsExact(init, pools[PoolOf(x).value.0 := PoolEntry(Made(h), PoolOf(x).value.1, PoolOf(x).value.2)], handlers[h := x])
  {
  }

  lemma BucketsKeep(init: map<string, BucketEntry>, buckets: map<string, BucketEntry>, handlers: map<Hid, Handler>, h: Hid, x: Handler)
    requires BucketsExact(init, buckets, handlers)
    requires BucketOf(x) == if h in handlers then BucketOf(handlers[h]) else None
    ensures BucketsExact(init, buckets, handlers[h := x])
  {
  }

  lemma BucketsAdd(init: map<string, BucketEntry>, buckets: map<string, BucketEntry>, handlers: map<Hid, Handler>, h: Hid, x: Handler)
    requires BucketsExact(init, buckets, handlers) && h in handlers && BucketOf(handlers[h]).None?
    requires BucketOf(x).Some? && BucketOf(x).value.0 !in buckets
    ensures BucketsExact(init, buckets[BucketOf(x).value.0 := BucketEntry(Made(h), BucketOf(x).value.1)], handlers[h := x])
  {
  }

  lemma BucketsRemove(init: map<string, BucketEntry>, buckets: map<string, BucketEntry>, handlers: map<Hid, Handler>, h: Hid, x: Handler)
    requires BucketsExact(init, buckets, handlers) && h in handlers && BucketOf(handlers[h]).Some?
    requires BucketOf(x).None?
    ensures BucketsExact(init, buckets - {BucketOf(handlers[h]).value.0}, handlers[h := x])
  {
  }

  lemma SoundUpdate(s: State, lost: set<string>, pools: set<string>, keys: set<string>, h: Hid, x: Handler)
    requires HandlersSound(s.pools.Keys, s.keys.Keys, lost, s.handlers)
    requires s.pools.Keys <= pools && s.keys.Keys <= keys && Sound(pools, keys, lost, x)
    ensures HandlersSound(pools, keys, lost, s.handlers[h := x])
  {
  }

  /** A step that only moves the handler on. */
  lemma MoveKeeps(init: State, s: State, h: Hid, x: Handler)
    requires Inv(init, s) && h in s.handlers && Sound(s.pools.Keys, s.keys.Keys, Lost(init), x)
    requires var y := s.handlers[h];
             && NameOf(x) == NameOf(y) && DirOf(x) == DirOf(y) && KeyOf(x) == KeyOf(y)
             && PoolOf(x) == PoolOf(y) && BucketOf(x) == BucketOf(y)
    ensures Inv(init, With(s, h, x))
  {
    hide NamesExact, DirsExact, KeysExact, PoolsExact, BucketsExact, HandlersSound, Sound;
    hide NameOf, DirOf, KeyOf, PoolOf, BucketOf;
    NamesKeep(init.names, s.names, s.handlers, h, x);
    DirsKeep(init.dirs, s.dirs, s.handlers, h, x);
    KeysKeep(init.keys, s.keys, s.handlers, h, x);
    PoolsKeep(init.pools, s.pools, s.handlers, h, x);
    BucketsKeep(init.buckets, s.buckets, s.handlers, h, x);
    SoundUpdate(s, Lost(init), s.pools.Keys, s.keys.Keys, h, x);
  }

  /** A pool about to be put is not registered: its name is still the handler's own. */
  lemma PutIsFresh(init: State, s: State, h: Hid)
    requires Startable(init) && Inv(init, s) && h in s.handlers
    requires NameOf(s.handlers[h]).Some? && PoolOf(s.handlers[h]).None?
    ensures NameOf(s.handlers[h]).value !in s.pools
  {
    var pool := NameOf(s.handlers[h]).value;
    hide DirsExact, KeysExact, BucketsExact, HandlersSound;
    assert s.names[pool].maker == Made(h);
    assert forall p | p in init.pools.Keys :: p in init.names.Keys;
    forall g | g in s.handlers && PoolOf(s.handlers[g]).Some?
      ensures NameOf(s.handlers[g]) == Some(PoolOf(s.handlers[g]).value.0)
    {
    }
    hide NameOf, PoolOf;
  }

  lemma PoolStepKeeps(init: State, s: State, a: Action, h: Hid)
    requires Startable(init) && Inv(init, s) && h in s.handlers && s.handlers[h].MakePool?
    requires ApplyPool(s, a, h).Some?
    ensures Inv(init, ApplyPool(s, a, h).value)
  {
    hide Inv, Consistent, Startable;
    if a.DoName? || a.DoPlace? || a.DoKey? {
      AcquireKeeps(init, s, a, h);
    } else {
      AdvanceKeeps(init, s, a, h);
    }
  }

  /** The calls that may lose against another handler. */
  lemma AcquireKeeps(init: State, s: State, a: Action, h: Hid)
    requires Inv(init, s) && h in s.handlers && s.handlers[h].MakePool?
    requires (a.DoName? || a.DoPlace? || a.DoKey?) && ApplyPool(s, a, h).Some?
    ensures Inv(init, ApplyPool(s, a, h).value)
  {
    hide Inv, ApplyPool;
    if a.DoPlace? {
      PlaceStepKeeps(init, s, a, h);
    } else {
      IdStepKeeps(init, s, a, h);
    }
  }

  lemma PlaceStepKeeps(init: State, s: State, a: Action, h: Hid)
    requires Inv(init, s) && h in s.handlers && s.handlers[h].MakePool?
    requires a.DoPlace? && ApplyPool(s, a, h).Some?
    ensures Inv(init, ApplyPool(s, a, h).value)
  {
    hide Inv;
    var y := ApplyPool(s, a, h).value.handlers[h];
    if s.handlers[h].path in s.dirs { PoolMoveKeeps(init, s, h, y); } else { PlaceKeeps(init, s, h, y); }
  }

  lemma IdStepKeeps(init: State, s: State, a: Action, h: Hid)
    requires Inv(init, s) && h in s.handlers && s.handlers[h].MakePool?
    requires (a.DoName? || a.DoKey?) && ApplyPool(s, a, h).Some?
    ensures Inv(init, ApplyPool(s, a, h).value)
  {
    hide Inv;
    var y := ApplyPool(s, a, h).value.handlers[h];
    match a
    case DoName(_, id) =>
      if id in s.names { PoolMoveKeeps(init, s, h, y); } else { NameKeeps(init, s, h, y); }
    case DoKey(_, id) =>
      if id in s.keys { PoolMoveKeeps(init, s, h, y); } else { KeyKeeps(init, s, h, y); }
  }

  lemma AdvanceKeeps(init: State, s: State, a: Action, h: Hid)
    requires Startable(init) && Inv(init, s) && h in s.handlers && s.handlers[h].MakePool?
    requires !(a.DoName? || a.DoPlace? || a.DoKey?) && ApplyPool(s, a, h).Some?
    ensures Inv(init, ApplyPool(s, a, h).value)
  {
    hide Inv, Consistent, Startable;
    var y := ApplyPool(s, a, h).value.handlers[h];
    match a
    case DoUnname(_) => UnnameKeeps(init, s, h, y);
    case DoPut(_) => PutKeeps(init, s, h, y);
    case DoProbePool(_) =>
      ProbeFinds(init, s, h);
      PoolMoveKeeps(init, s, h, y);
    case DoProbePoolKey(_) =>
      ProbedKeyIsThere(init, s, h);
      PoolMoveKeeps(init, s, h, y);
    case _ => PoolMoveKeeps(init, s, h, y);
  }

  lemma PoolMoveKeeps(init: State, s: State, h: Hid, y: Handler)
    requires Inv(init, s) && h in s.handlers && s.handlers[h].MakePool?
    requires y.MakePool? && y.path == s.handlers[h].path && !y.at.PoolPanic?
    requires y.at.ProbingPoolKey? ==> y.at.found in s.keys
    requires var x := s.handlers[h];
             && NameOf(x) == NameOf(y) && DirOf(x) == DirOf(y) && KeyOf(x) == KeyOf(y) && PoolOf(x) == PoolOf(y)
    ensures Inv(init, With(s, h, y))
  {
    assert Sound(s.pools.Keys, s.keys.Keys, Lost(init), s.handlers[h]);
    hide NamesExact, DirsExact, KeysExact, PoolsExact, BucketsExact, HandlersSound;
    MoveKeeps(init, s, h, y);
  }

  lemma NameKeeps(init: State, s: State, h: Hid, y: Handler)
    requires Inv(init, s) && h in s.handlers && s.handlers[h].MakePool? && s.handlers[h].at.Naming?
    requires y.MakePool? && y.at.Placing? && y == s.handlers[h].(at := Placing(y.at.pool)) && y.at.pool !in s.names
    ensures Inv(init, With(s, h, y).(names := s.names[y.at.pool := NameEntry(Made(h))]))
  {
    hide NamesExact, DirsExact, KeysExact, PoolsExact, BucketsExact;
    NamesAdd(init.names, s.names, s.handlers, h, y);
    DirsKeep(init.dirs, s.dirs, s.handlers, h, y);
    KeysKeep(init.keys, s.keys, s.handlers, h, y);
    PoolsKeep(init.pools, s.pools, s.handlers, h, y);
    BucketsKeep(init.buckets, s.buckets, s.handlers, h, y);
    SoundUpdate(s, Lost(init), s.pools.Keys, s.keys.Keys, h, y);
  }

  lemma UnnameKeeps(init: State, s: State, h: Hid, y: Handler)
    requires Inv(init, s) && h in s.handlers && s.handlers[h].MakePool? && s.handlers[h].at.Unnaming?
    requires y == s.handlers[h].(at := Owning)
    ensures Inv(init, With(s, h, y).(names := s.names - {s.handlers[h].at.pool}))
  {
    hide NamesExact, DirsExact, KeysExact, PoolsExact, BucketsExact;
    NamesRemove(init.names, s.names, s.handlers, h, y);
    DirsKeep(init.dirs, s.dirs, s.handlers, h, y);
    KeysKeep(init.keys, s.keys, s.handlers, h, y);
    PoolsKeep(init.pools, s.pools, s.handlers, h, y);
    BucketsKeep(init.buckets, s.buckets, s.handlers, h, y);
    SoundUpdate(s, Lost(init), s.pools.Keys, s.keys.Keys, h, y);
  }

  lemma PlaceKeeps(init: State, s: State, h: Hid, y: Handler)
    requires Inv(init, s) && h in s.handlers && s.handlers[h].MakePool? && s.handlers[h].at.Placing?
    requires y == s.handlers[h].(at := Keying(s.handlers[h].at.pool, 0)) && y.path !in s.dirs
    ensures Inv(init, With(s, h, y).(dirs := s.dirs[y.path := DirEntry(Made(h), y.at.pool)]))
  {
    hide NamesExact, DirsExact, KeysExact, PoolsExact, BucketsExact;
    NamesKeep(init.names, s.names, s.handlers, h, y);
    DirsAdd(init.dirs, s.dirs, s.handlers, h, y);
    KeysKeep(init.keys, s.keys, s.handlers, h, y);
    PoolsKeep(init.pools, s.pools, s.handlers, h, y);
    BucketsKeep(init.buckets, s.buckets, s.handlers, h, y);
    SoundUpdate(s, Lost(init), s.pools.Keys, s.keys.Keys, h, y);
  }

  lemma KeyKeeps(init: State, s: State, h: Hid, y: Handler)
    requires Inv(init, s) && h in s.handlers && s.handlers[h].MakePool? && s.handlers[h].at.Keying?
    requires y.MakePool? && y.at.Putting? && y == s.handlers[h].(at := Putting(s.handlers[h].at.pool, y.at.key))
    requires y.at.key !in s.keys
    ensures Inv(init, With(s, h, y).(keys := s.keys[y.at.key := KeyEntry(Made(h), y.at.pool)]))
  {
    hide NamesExact, DirsExact, KeysExact, PoolsExact, BucketsExact;
    NamesKeep(init.names, s.names, s.handlers, h, y);
    DirsKeep(init.dirs, s.dirs, s.handlers, h, y);
    KeysAdd(init.keys, s.keys, s.handlers, h, y);
    PoolsKeep(init.pools, s.pools, s.handlers, h, y);
    BucketsKeep(init.buckets, s.buckets, s.handlers, h, y);
    SoundUpdate(s, Lost(init), s.pools.Keys, s.keys.Keys + {y.at.key}, h, y);
    assert s.keys[y.at.key := KeyEntry(Made(h), y.at.pool)].Keys == s.keys.Keys + {y.at.key};
  }

  lemma PutKeeps(init: State, s: State, h: Hid, y: Handler)
    requires Startable(init) && Inv(init, s) && h in s.handlers && s.handlers[h].MakePool? && s.handlers[h].at.Putting?
    requires y == s.handlers[h].(at := ProbingPool(s.handlers[h].at.pool, s.handlers[h].at.key))
    ensures Inv(init, With(s, h, y).(pools := s.pools[y.at.pool := PoolEntry(Made(h), y.path, y.at.key)]))
  {
    hide NamesExact, DirsExact, KeysExact, PoolsExact, BucketsExact, Startable;
    PutIsFresh(init, s, h);
    NamesKeep(init.names, s.names, s.handlers, h, y);
    DirsKeep(init.dirs, s.dirs, s.handlers, h, y);
    KeysKeep(init.keys, s.keys, s.handlers, h, y);
    PoolsAdd(init.pools, s.pools, s.handlers, h, y);
    BucketsKeep(init.buckets, s.buckets, s.handlers, h, y);
    SoundUpdate(s, Lost(init), s.pools.Keys + {y.at.pool}, s.keys.Keys, h, y);
    assert s.pools[y.at.pool := PoolEntry(Made(h), y.path, y.at.key)].Keys == s.pools.Keys + {y.at.pool};
  }

  /** The probe of a pool just put finds the pool and its key. */
  lemma ProbeFinds(init: State, s: State, h: Hid)
    requires Inv(init, s) && h in s.handlers && s.handlers[h].MakePool? && s.handlers[h].at.ProbingPool?
    ensures s.handlers[h].at.pool in s.pools && s.pools[s.handlers[h].at.pool].key in s.keys
  {
    assert PoolOf(s.handlers[h]).Some? && KeyOf(s.handlers[h]).Some?;
  }

  lemma PoolKeyIsThere(init: State, s: State, p: string)
    requires Startable(init) && Inv(init, s) && p in s.pools
    ensures s.pools[p].key in s.keys || p in Lost(init)
  {
    hide NamesExact, DirsExact, BucketsExact, HandlersSound;
    if s.pools[p].maker.Made? {
      var x := s.handlers[s.pools[p].maker.h];
      assert PoolOf(x) == Some((p, s.pools[p].dir, s.pools[p].key));
      assert KeyOf(x) == Some((s.pools[p].key, p));
    }
  }

  lemma ProbedKeyIsThere(init: State, s: State, h: Hid)
    requires Inv(init, s) && h in s.handlers
    ensures var x := s.handlers[h];
            && (x.MakePool? && x.at.ProbingPoolKey? ==> x.at.found in s.keys)
            && (x.MakeBucket? && x.step.ProbingBucketKey? ==> x.step.found in s.keys || x.pool in Lost(init))
  {
    hide NamesExact, DirsExact, KeysExact, PoolsExact, BucketsExact;
    assert Sound(s.pools.Keys, s.keys.Keys, Lost(init), s.handlers[h]);
  }

  lemma BucketStepKeeps(init: State, s: State, a: Action, h: Hid)
    requires Startable(init) && Inv(init, s) && h in s.handlers && s.handlers[h].MakeBucket?
    requires ApplyBucket(s, a, h).Some?
    ensures Inv(init, ApplyBucket(s, a, h).value)
  {
    hide NamesExact, DirsExact, KeysExact, PoolsExact, BucketsExact, Startable;
    var x := s.handlers[h];
    assert Sound(s.pools.Keys, s.keys.Keys, Lost(init), x);
    var y := ApplyBucket(s, a, h).value.handlers[h];
    match a
    case DoClaim(_) =>
      if x.bucket in s.buckets { MoveKeeps(init, s, h, y); } else { ClaimKeeps(init, s, h, y); }
    case DoDrop(_) => DropKeeps(init, s, h, y);
    case DoProbeBucketKey(_, _) =>
      ProbedKeyIsThere(init, s, h);
      MoveKeeps(init, s, h, y);
    case DoProbeBucket(_) =>
      assert x.pool in s.pools;
      PoolKeyIsThere(init, s, x.pool);
      MoveKeeps(init, s, h, y);
    case _ => MoveKeeps(init, s, h, y);
  }

  lemma ClaimKeeps(init: State, s: State, h: Hid, y: Handler)
    requires Inv(init, s) && h in s.handlers && s.handlers[h].MakeBucket? && s.handlers[h].step.Claiming?
    requires y == s.handlers[h].(step := ProbingBucket) && y.bucket !in s.buckets
    ensures Inv(init, With(s, h, y).(buckets := s.buckets[y.bucket := BucketEntry(Made(h), y.pool)]))
  {
    hide NamesExact, DirsExact, KeysExact, PoolsExact, BucketsExact;
    assert Sound(s.pools.Keys, s.keys.Keys, Lost(init), s.handlers[h]);
    NamesKeep(init.names, s.names, s.handlers, h, y);
    DirsKeep(init.dirs, s.dirs, s.handlers, h, y);
    KeysKeep(init.keys, s.keys, s.handlers, h, y);
    PoolsKeep(init.pools, s.pools, s.handlers, h, y);
    BucketsAdd(init.buckets, s.buckets, s.handlers, h, y);
    SoundUpdate(s, Lost(init), s.pools.Keys, s.keys.Keys, h, y);
  }

  lemma DropKeeps(init: State, s: State, h: Hid, y: Handler)
    requires Inv(init, s) && h in s.handlers && s.handlers[h].MakeBucket? && s.handlers[h].step.Dropping?
    requires y == s.handlers[h].(step := BucketLost)
    ensures Inv(init, With(s, h, y).(buckets := s.buckets - {y.bucket}))
  {
    hide NamesExact, DirsExact, KeysExact, PoolsExact, BucketsExact;
    NamesKeep(init.names, s.names, s.handlers, h, y);
    DirsKeep(init.dirs, s.dirs, s.handlers, h, y);
    KeysKeep(init.keys, s.keys, s.handlers, h, y);
    PoolsKeep(init.pools, s.pools, s.handlers, h, y);
    BucketsRemove(init.buckets, s.buckets, s.handlers, h, y);
    SoundUpdate(s, Lost(init), s.pools.Keys, s.keys.Keys, h, y);
  }

  lemma ArriveKeeps(init: State, s: State, h: Hid, x: Handler)
    requires Inv(init, s) && h !in s.handlers && Fresh(x)
    ensures Inv(init, With(s, h, x))
  {
    hide NamesExact, DirsExact, KeysExact, PoolsExact, BucketsExact;
    NamesKeep(init.names, s.names, s.handlers, h, x);
    DirsKeep(init.dirs, s.dirs, s.handlers, h, x);
    KeysKeep(init.keys, s.keys, s.handlers, h, x);
    PoolsKeep(init.pools, s.pools, s.handlers, h, x);
    BucketsKeep(init.buckets, s.buckets, s.handlers, h, x);
    SoundUpdate(s, Lost(init), s.pools.Keys, s.keys.Keys, h, x);
  }

  lemma InvKept(init: State, s: State, a: Action)
    requires Startable(init) && Inv(init, s) && Apply(s, a).Some?
    ensures Inv(init, Apply(s, a).value)
  {
    hide Inv, Startable, ApplyPool, ApplyBucket;
    if a.Arrive? {
      ArriveKeeps(init, s, a.h, a.handler);
    } else if s.handlers[a.h].MakePool? {
      PoolStepKeeps(init, s, a, a.h);
    } else {
      BucketStepKeeps(init, s, a, a.h);
    }
  }

  lemma {:induction false} RunKeepsInv(init: State, s: State, acts: seq<Action>)
    requires Startable(init) && Inv(init, s) && Exec(s, acts).Some?
    ensures Inv(init, Exec(s, acts).value)
    decreases |acts|
  {
    hide Inv, Startable, Apply;
    if acts != [] {
      InvKept(init, s, acts[0]);
      RunKeepsInv(init, Apply(s, acts[0]).value, acts[1..]);
    }
  }

  // ---- what this means ----

  /** A pool that can be seen already has its name, its directory and its probe key. */
  lemma VisiblePoolIsComplete(init: State, s: State, p: string)
    requires Consistent(init) && Inv(init, s) && p in s.pools
    ensures p in s.names
    ensures s.pools[p].dir in s.dirs && s.dirs[s.pools[p].dir].pool == p
    ensures s.pools[p].key in s.keys && s.keys[s.pools[p].key].pool == p
  {
    hide BucketsExact, HandlersSound;
    if s.pools[p].maker.Made? {
      var x := s.handlers[s.pools[p].maker.h];
      assert PoolOf(x) == Some((p, s.pools[p].dir, s.pools[p].key));
      assert NameOf(x) == Some(p) && DirOf(x) == Some((s.pools[p].dir, p)) && KeyOf(x) == Some((s.pools[p].key, p));
    } else {
      assert p in init.pools && p in init.names.Keys;
    }
  }

  lemma StartInv(init: State)
    requires Startable(init)
    ensures Inv(init, init)
  {
  }

  /** In every state of every run: a visible pool is complete, no two pools share a
      directory, every bucket belongs to a visible pool, and no probe panics. */
  lemma CreationIsSafe(init: State, acts: seq<Action>)
    requires Consistent(init) && Exec(init, acts).Some?
    ensures var s := Exec(init, acts).value;
            && (forall p | p in s.pools ::
                  && p in s.names
                  && s.pools[p].dir in s.dirs && s.dirs[s.pools[p].dir].pool == p
                  && s.pools[p].key in s.keys && s.keys[s.pools[p].key].pool == p)
            && (forall p, q | p in s.pools && q in s.pools && p != q :: s.pools[p].dir != s.pools[q].dir)
            && (forall b | b in s.buckets :: s.buckets[b].pool in s.pools)
            && (forall h | h in s.handlers && s.handlers[h].MakePool? :: !s.handlers[h].at.PoolPanic?)
            && (forall h | h in s.handlers && s.handlers[h].MakeBucket? :: !s.handlers[h].step.BucketPanic?)
  {
    StartInv(init);
    RunKeepsInv(init, init, acts);
    var s := Exec(init, acts).value;
    assert HandlersSound(s.pools.Keys, s.keys.Keys, Lost(init), s.handlers);
    hide Inv, Consistent, Startable;
    forall p | p in s.pools
      ensures p in s.names
      ensures s.pools[p].dir in s.dirs && s.dirs[s.pools[p].dir].pool == p
      ensures s.pools[p].key in s.keys && s.keys[s.pools[p].key].pool == p
    {
      VisiblePoolIsComplete(init, s, p);
    }
    forall b | b in s.buckets ensures s.buckets[b].pool in s.pools {
      BucketIsOwned(init, s, b);
    }
    forall h | h in s.handlers ensures Sound(s.pools.Keys, s.keys.Keys, Lost(init), s.handlers[h]) {
    }
  }

  lemma BucketIsOwned(init: State, s: State, b: string)
    requires Consistent(init) && Inv(init, s) && b in s.buckets
    ensures s.buckets[b].pool in s.pools
  {
    hide NamesExact, DirsExact, KeysExact;
    if s.buckets[b].maker.Made? {
      assert Sound(s.pools.Keys, s.keys.Keys, Lost(init), s.handlers[s.buckets[b].maker.h]);
    }
  }

  /** In every run from any start, no make-pool panics, and a make-bucket panics only
      on a pool whose probe key was gone before. */
  lemma PanicsOnLostKeyOnly(init: State, acts: seq<Action>, h: Hid)
    requires Startable(init) && Exec(init, acts).Some? && h in Exec(init, acts).value.handlers
    ensures var x := Exec(init, acts).value.handlers[h];
            && (x.MakePool? ==> !x.at.PoolPanic?)
            && (x.MakeBucket? && x.step.BucketPanic? ==> x.pool in init.pools && init.pools[x.pool].key !in init.keys)
  {
    StartInv(init);
    RunKeepsInv(init, init, acts);
    var s := Exec(init, acts).value;
    assert Sound(s.pools.Keys, s.keys.Keys, Lost(init), s.handlers[h]);
  }

  /** What is left of a handler. */
  ghost predicate LeavesNothing(s: State, h: Hid) {
    && (forall k | k in s.names :: s.names[k].maker != Made(h))
    && (forall k | k in s.dirs :: s.dirs[k].maker != Made(h))
    && (forall k | k in s.keys :: s.keys[k].maker != Made(h))
    && (forall k | k in s.pools :: s.pools[k].maker != Made(h))
    && (forall k | k in s.buckets :: s.buckets[k].maker != Made(h))
  }

  ghost predicate LeavesOrphans(s: State, h: Hid, path: string, pool: string) {
    && pool in s.names && pool !in s.pools
    && path in s.dirs && s.dirs[path].pool == pool
    && (forall k | k in s.names :: s.names[k].maker == Made(h) ==> k == pool)
    && (forall k | k in s.dirs :: s.dirs[k].maker == Made(h) ==> k == path)
    && (forall k | k in s.keys :: s.keys[k].maker != Made(h))
  }

  lemma FailedLeavesNothing(init: State, s: State, h: Hid)
    requires Inv(init, s) && h in s.handlers && Failed(s.handlers[h])
    ensures LeavesNothing(s, h)
  {
    FailedHasNothing(s.handlers[h]);
    hide HandlersSound, NameOf, DirOf, KeyOf, PoolOf, BucketOf;
  }

  lemma FailedHasNothing(x: Handler)
    requires Failed(x)
    ensures NameOf(x).None? && DirOf(x).None? && KeyOf(x).None? && PoolOf(x).None? && BucketOf(x).None?
  {
  }

  lemma NoKeyLeavesOrphans(init: State, s: State, h: Hid)
    requires Startable(init) && Inv(init, s) && h in s.handlers && s.handlers[h].MakePool? && s.handlers[h].at.NoKeyLeft?
    ensures LeavesOrphans(s, h, s.handlers[h].path, s.handlers[h].at.pool)
  {
    hide HandlersSound, Consistent, PoolsExact, BucketsExact;
    PutIsFresh(init, s, h);
    assert NameOf(s.handlers[h]).Some? && DirOf(s.handlers[h]).Some?;
  }

  lemma MadeIsThere(init: State, s: State, h: Hid)
    requires Inv(init, s) && h in s.handlers
    ensures PoolOf(s.handlers[h]).Some? ==>
              var v := PoolOf(s.handlers[h]).value; v.0 in s.pools && s.pools[v.0] == PoolEntry(Made(h), v.1, v.2)
    ensures BucketOf(s.handlers[h]).Some? ==>
              var v := BucketOf(s.handlers[h]).value; v.0 in s.buckets && s.buckets[v.0] == BucketEntry(Made(h), v.1)
  {
    hide NamesExact, DirsExact, KeysExact, HandlersSound;
  }

  /** A handler that lost a SETNX or rolled back leaves no entry of its own; one
      that ran out of access keys leaves its name and directory, nothing else; one
      that succeeded, or panicked in the probe, has everything registered. */
  lemma OutcomeOfHandlers(init: State, acts: seq<Action>, h: Hid)
    requires Startable(init) && Exec(init, acts).Some? && h in Exec(init, acts).value.handlers
    ensures var s := Exec(init, acts).value;
            var x := s.handlers[h];
            && (Failed(x) ==> LeavesNothing(s, h))
            && (x.MakePool? && x.at.NoKeyLeft? ==> LeavesOrphans(s, h, x.path, x.at.pool))
            && (x.MakePool? && x.at.PoolMade? ==>
                  x.at.pool in s.pools && s.pools[x.at.pool] == PoolEntry(Made(h), x.path, x.at.key))
            && (x.MakeBucket? && (x.step.BucketMade? || x.step.BucketPanic?) ==>
                  x.bucket in s.buckets && s.buckets[x.bucket] == BucketEntry(Made(h), x.pool))
  {
    StartInv(init);
    RunKeepsInv(init, init, acts);
    var s := Exec(init, acts).value;
    var x := s.handlers[h];
    MadeIsThere(init, s, h);
    hide Inv, Startable, LeavesNothing, LeavesOrphans, Exec;
    if Failed(x) { FailedLeavesNothing(init, s, h); }
    if x.MakePool? && x.at.NoKeyLeft? { NoKeyLeavesOrphans(init, s, h); }
  }

  /** In every run a registered bucket never changes hands: a step leaves its entry
      alone, or is the rollback of the very handler that made it. */
  lemma BucketNeverChangesHands(init: State, acts: seq<Action>, a: Action, b: string)
    requires Startable(init) && Exec(init, acts).Some? && Apply(Exec(init, acts).value, a).Some?
    requires b in Exec(init, acts).value.buckets
    ensures var s := Exec(init, acts).value; var r := Apply(s, a).value;
            || (b in r.buckets && r.buckets[b] == s.buckets[b])
            || (a.DoDrop? && s.buckets[b].maker == Made(a.h) && b !in r.buckets)
  {
    StartInv(init);
    RunKeepsInv(init, init, acts);
    hide Inv, Startable, ApplyPool, ApplyBucket, Exec;
    var s := Exec(init, acts).value;
    if !a.Arrive? && s.handlers[a.h].MakePool? {
      PoolStepLeavesBuckets(s, a, a.h);
    } else if !a.Arrive? {
      MadeIsThere(init, s, a.h);
      BucketStepOnBucket(s, a, a.h, b);
    }
  }

  lemma PoolStepLeavesBuckets(s: State, a: Action, h: Hid)
    requires h in s.handlers && s.handlers[h].MakePool? && ApplyPool(s, a, h).Some?
    ensures ApplyPool(s, a, h).value.buckets == s.buckets
  {
  }

  lemma BucketStepOnBucket(s: State, a: Action, h: Hid, b: string)
    requires h in s.handlers && s.handlers[h].MakeBucket? && ApplyBucket(s, a, h).Some? && b in s.buckets
    ensures var r := ApplyBucket(s, a, h).value;
            || (b in r.buckets && r.buckets[b] == s.buckets[b])
            || (a.DoDrop? && BucketOf(s.handlers[h]).Some? && BucketOf(s.handlers[h]).value.0 == b && b !in r.buckets)
  {
  }

  /** No handler is half-way: each was refused, has its pool in place, or makes a bucket. */
  ghost predicate Settled(handlers: map<Hid, Handler>) {
    forall h | h in handlers ::
      Failed(handlers[h]) || PoolOf(handlers[h]).Some? || handlers[h].MakeBucket?
  }

  lemma SettledNames(init: State, s: State, k: string)
    requires Consistent(init) && Inv(init, s) && Settled(s.handlers) && k in s.names
    ensures k in s.pools
  {
    hide DirsExact, KeysExact, BucketsExact, HandlersSound;
    if s.names[k].maker.Made? {
      var x := s.handlers[s.names[k].maker.h];
      assert NameOf(x) == Some(k) && PoolOf(x).Some?;
    } else {
      assert k in init.names.Keys && k in init.pools;
    }
  }

  lemma SettledDirs(init: State, s: State, d: string)
    requires Consistent(init) && Inv(init, s) && Settled(s.handlers) && d in s.dirs
    ensures s.dirs[d].pool in s.pools && s.pools[s.dirs[d].pool].dir == d
  {
    hide NamesExact, KeysExact, BucketsExact, HandlersSound;
    if s.dirs[d].maker.Made? {
      var x := s.handlers[s.dirs[d].maker.h];
      assert DirOf(x) == Some((d, s.dirs[d].pool)) && PoolOf(x).Some?;
    }
  }

  lemma SettledKeys(init: State, s: State, k: string)
    requires Consistent(init) && Inv(init, s) && Settled(s.handlers) && k in s.keys
    ensures s.keys[k].pool in s.pools
  {
    hide NamesExact, DirsExact, BucketsExact, HandlersSound;
    if s.keys[k].maker.Made? {
      var x := s.handlers[s.keys[k].maker.h];
      assert KeyOf(x) == Some((k, s.keys[k].pool)) && PoolOf(x).Some?;
    }
  }

  /** Once all handlers have come to an end, and none ran out of access keys, the
      registry is as consistent as it was before. */
  lemma QuiescentIsConsistent(init: State, acts: seq<Action>)
    requires Consistent(init) && Exec(init, acts).Some? && Settled(Exec(init, acts).value.handlers)
    ensures var s := Exec(init, acts).value;
            && s.names.Keys == s.pools.Keys
            && (forall d | d in s.dirs :: s.dirs[d].pool in s.pools && s.pools[s.dirs[d].pool].dir == d)
            && (forall k | k in s.keys :: s.keys[k].pool in s.pools)
  {
    StartInv(init);
    RunKeepsInv(init, init, acts);
    var s := Exec(init, acts).value;
    hide Inv, Consistent, Settled;
    forall k | k in s.names ensures k in s.pools { SettledNames(init, s, k); }
    forall p | p in s.pools ensures p in s.names { VisiblePoolIsComplete(init, s, p); }
    forall d | d in s.dirs ensures s.dirs[d].pool in s.pools && s.pools[s.dirs[d].pool].dir == d {
      SettledDirs(init, s, d);
    }
    forall k | k in s.keys ensures s.keys[k].pool in s.pools { SettledKeys(init, s, k); }
  }
}
