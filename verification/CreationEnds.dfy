/**
 How make-pool and make-bucket requests end (v2/lens3/registrar.go) when any number of
 them are interleaved: the answers that a handler got from the database decide its end,
 it is never stuck before, and it gets there in a bounded number of calls.
 */
module CreationEnds {
  import opened Records
  import opened Creation

  /** What the probe of a bucket came to: its key was gone, or what Mux answered. */
  datatype Probed = KeyGone | Good | Bad

  /** The answers to the calls of a make-pool: how many names and access keys were in use,
      the ones it got, and whether the directory was free. */
  datatype PoolTold = PoolTold(namesTaken: nat, named: Option<string>, placed: Option<bool>,
                               keysTaken: nat, keyed: Option<string>)

  /** And of a make-bucket: whether the pool was there and the bucket free, the probe key
      that it read, and the probe. */
  datatype BucketTold = BucketTold(there: Option<bool>, claimed: Option<bool>, read: Option<string>, probed: Option<Probed>)

  datatype Told = Told(pool: PoolTold, bucket: BucketTold)

  const Nothing := Told(PoolTold(0, None, None, 0, None), BucketTold(None, None, None, None))

  /** The answers that the tables give. */
  function PoolNoted(s: State, a: Action, path: string, told: PoolTold): PoolTold {
    match a
    case DoName(_, id) =>
      if id in s.names then told.(namesTaken := told.namesTaken + 1) else told.(named := Some(id))
    case DoPlace(_) => told.(placed := Some(path !in s.dirs))
    case DoKey(_, id) =>
      if id in s.keys then told.(keysTaken := told.keysTaken + 1) else told.(keyed := Some(id))
    case _ => told
  }

  function BucketNoted(s: State, a: Action, pool: string, bucket: string, told: BucketTold): BucketTold {
    match a
    case DoCheck(_) => told.(there := Some(pool in s.pools))
    case DoClaim(_) => told.(claimed := Some(bucket !in s.buckets))
    case DoProbeBucket(_) => told.(read := if pool in s.pools then Some(s.pools[pool].key) else None)
    case DoProbeBucketKey(_, ok) =>
      told.(probed := Some(if told.read.Some? && told.read.value !in s.keys then KeyGone else if ok then Good else Bad))
    case _ => told
  }

  function Noted(s: State, a: Action, h: Hid, told: Told): Told {
    if a.h != h || h !in s.handlers then told
    else
      match s.handlers[h]
      case MakePool(path, _) => told.(pool := PoolNoted(s, a, path, told.pool))
      case MakeBucket(pool, bucket, _) => told.(bucket := BucketNoted(s, a, pool, bucket, told.bucket))
  }

  /** All that a handler was told in a run. */
  function ToldIn(s: State, acts: seq<Action>, h: Hid, told: Told): Told
    decreases |acts|
  {
    if acts == [] then told
    else
      match Apply(s, acts[0])
      case None => told
      case Some(s1) => ToldIn(s1, acts[1..], h, Noted(s, acts[0], h, told))
  }

  // ---- where a handler is, by what it was told ----

  predicate PoolFits(at: PoolPc, told: PoolTold) {
    match at
    case Naming(n) => n < ID_LIMIT && told == PoolTold(n, None, None, 0, None)
    case NoNameLeft => told == PoolTold(ID_LIMIT, None, None, 0, None)
    case Placing(pool) => told.namesTaken < ID_LIMIT && told == PoolTold(told.namesTaken, Some(pool), None, 0, None)
    case Keying(pool, n) => Placed(pool, told) && told.keysTaken == n < ID_LIMIT && told.keyed.None?
    case NoKeyLeft(pool) => Placed(pool, told) && told.keysTaken == ID_LIMIT && told.keyed.None?
    case Putting(pool, key) => Keyed(pool, key, told)
    case ProbingPool(pool, key) => Keyed(pool, key, told)
    case ProbingPoolKey(pool, key, _) => Keyed(pool, key, told)
    case PoolMade(pool, key) => Keyed(pool, key, told)
    case PoolPanic => false
    case _ => told.namesTaken < ID_LIMIT && told == PoolTold(told.namesTaken, told.named, Some(false), 0, None)
  }

  predicate Placed(pool: string, told: PoolTold) {
    told.namesTaken < ID_LIMIT && told.named == Some(pool) && told.placed == Some(true)
  }

  predicate Keyed(pool: string, key: string, told: PoolTold) {
    Placed(pool, told) && told.keysTaken < ID_LIMIT && told.keyed == Some(key)
  }

  predicate BucketFits(step: BucketPc, told: BucketTold) {
    match step
    case Checking => told == BucketTold(None, None, None, None)
    case Claiming => told == BucketTold(Some(true), None, None, None)
    case BucketHolding => told == BucketTold(Some(true), Some(false), None, None)
    case ProbingBucket => told == BucketTold(Some(true), Some(true), None, None)
    case ProbingBucketKey(found) => told == BucketTold(Some(true), Some(true), Some(found), None)
    case Dropping => told == BucketTold(Some(true), Some(true), told.read, Some(Bad))
    case BucketMade => told == BucketTold(Some(true), Some(true), told.read, Some(Good))
    case BucketPanic => told == BucketTold(Some(true), Some(true), told.read, Some(KeyGone))
    case BucketLost =>
      || told == BucketTold(Some(false), None, None, None)
      || told == BucketTold(Some(true), Some(false), None, None)
      || told == BucketTold(Some(true), Some(true), told.read, Some(Bad))
  }

  predicate Fits(x: Handler, told: Told) {
    match x
    case MakePool(_, at) => PoolFits(at, told.pool)
    case MakeBucket(_, _, step) => BucketFits(step, told.bucket)
  }

  // The calls that may lose against another handler.

  lemma NameFits(s: State, a: Action, h: Hid, told: PoolTold)
    requires h in s.handlers && s.handlers[h].MakePool? && a.h == h && PoolFits(s.handlers[h].at, told)
    requires a.DoName? && ApplyPool(s, a, h).Some?
    ensures var x := ApplyPool(s, a, h).value.handlers[h];
            x.MakePool? && PoolFits(x.at, PoolNoted(s, a, s.handlers[h].path, told))
  {
  }

  lemma PlaceFits(s: State, a: Action, h: Hid, told: PoolTold)
    requires h in s.handlers && s.handlers[h].MakePool? && a.h == h && PoolFits(s.handlers[h].at, told)
    requires a.DoPlace? && ApplyPool(s, a, h).Some?
    ensures var x := ApplyPool(s, a, h).value.handlers[h];
            x.MakePool? && PoolFits(x.at, PoolNoted(s, a, s.handlers[h].path, told))
  {
  }

  lemma KeyFits(s: State, a: Action, h: Hid, told: PoolTold)
    requires h in s.handlers && s.handlers[h].MakePool? && a.h == h && PoolFits(s.handlers[h].at, told)
    requires a.DoKey? && ApplyPool(s, a, h).Some?
    ensures var x := ApplyPool(s, a, h).value.handlers[h];
            x.MakePool? && PoolFits(x.at, PoolNoted(s, a, s.handlers[h].path, told))
  {
  }

  lemma AdvanceFits(s: State, a: Action, h: Hid, told: PoolTold)
    requires h in s.handlers && s.handlers[h].MakePool? && a.h == h && PoolFits(s.handlers[h].at, told)
    requires !(a.DoName? || a.DoPlace? || a.DoKey?) && ApplyPool(s, a, h).Some?
    requires ApplyPool(s, a, h).value.handlers[h] != s.handlers[h].(at := PoolPanic)
    ensures var x := ApplyPool(s, a, h).value.handlers[h];
            x.MakePool? && PoolFits(x.at, PoolNoted(s, a, s.handlers[h].path, told))
  {
  }

  lemma BucketStepFits(s: State, a: Action, h: Hid, told: BucketTold)
    requires h in s.handlers && s.handlers[h].MakeBucket? && a.h == h && BucketFits(s.handlers[h].step, told)
    requires ApplyBucket(s, a, h).Some?
    requires s.handlers[h].step.ProbingBucket? ==> s.handlers[h].pool in s.pools
    ensures var x := ApplyBucket(s, a, h).value.handlers[h];
            x.MakeBucket? && BucketFits(x.step, BucketNoted(s, a, s.handlers[h].pool, s.handlers[h].bucket, told))
  {
  }

  lemma OwnStepFits(init: State, s: State, a: Action, h: Hid, told: Told)
    requires Startable(init) && Inv(init, s) && h in s.handlers && a.h == h && Apply(s, a).Some? && Fits(s.handlers[h], told)
    ensures var r := Apply(s, a).value; h in r.handlers && Fits(r.handlers[h], Noted(s, a, h, told))
  {
    var r := Apply(s, a).value;
    assert Sound(s.pools.Keys, s.keys.Keys, Lost(init), s.handlers[h]);
    InvKept(init, s, a);
    StepMovesOne(s, a);
    assert Sound(r.pools.Keys, r.keys.Keys, Lost(init), r.handlers[h]);
    hide Inv, Startable, PoolFits, BucketFits, ApplyPool, ApplyBucket, PoolNoted, BucketNoted;
    if s.handlers[h].MakeBucket? {
      BucketStepFits(s, a, h, told.bucket);
    } else if a.DoName? {
      NameFits(s, a, h, told.pool);
    } else if a.DoPlace? {
      PlaceFits(s, a, h, told.pool);
    } else if a.DoKey? {
      KeyFits(s, a, h, told.pool);
    } else {
      AdvanceFits(s, a, h, told.pool);
    }
  }

  /** A call moves its own handler. */
  ghost predicate OnlyMoves(s: State, r: State, g: Hid) {
    g in r.handlers && r.handlers == s.handlers[g := r.handlers[g]]
  }

  lemma PoolMovesOne(s: State, a: Action, g: Hid)
    requires g in s.handlers && s.handlers[g].MakePool? && ApplyPool(s, a, g).Some?
    ensures OnlyMoves(s, ApplyPool(s, a, g).value, g)
  {
  }

  lemma BucketMovesOne(s: State, a: Action, g: Hid)
    requires g in s.handlers && s.handlers[g].MakeBucket? && ApplyBucket(s, a, g).Some?
    ensures OnlyMoves(s, ApplyBucket(s, a, g).value, g)
  {
  }

  lemma StepMovesOne(s: State, a: Action)
    requires Apply(s, a).Some?
    ensures OnlyMoves(s, Apply(s, a).value, a.h)
  {
    hide ApplyPool, ApplyBucket;
    if !a.Arrive? {
      if s.handlers[a.h].MakePool? {
        PoolMovesOne(s, a, a.h);
      } else {
        BucketMovesOne(s, a, a.h);
      }
    }
  }

  /** One more step of anybody. */
  lemma StepFits(init: State, s: State, a: Action, h: Hid, told: Told)
    requires Startable(init) && Inv(init, s) && Apply(s, a).Some?
    requires if h in s.handlers then Fits(s.handlers[h], told) else told == Nothing
    ensures var r := Apply(s, a).value;
            if h in r.handlers then Fits(r.handlers[h], Noted(s, a, h, told)) else Noted(s, a, h, told) == Nothing
  {
    hide Inv, Startable, ApplyPool, ApplyBucket;
    if a.h != h {
      StepMovesOne(s, a);
      hide Apply, Fits;
    } else if h in s.handlers {
      OwnStepFits(init, s, a, h, told);
      hide Apply, Fits, Noted;
    }
  }

  lemma {:induction false} RunFits(init: State, s: State, acts: seq<Action>, h: Hid, told: Told)
    requires Startable(init) && Inv(init, s) && Exec(s, acts).Some? && h in Exec(s, acts).value.handlers
    requires if h in s.handlers then Fits(s.handlers[h], told) else told == Nothing
    ensures Fits(Exec(s, acts).value.handlers[h], ToldIn(s, acts, h, told))
    decreases |acts|
  {
    hide Inv, Startable, Apply, Fits, Noted;
    if acts != [] {
      StepFits(init, s, acts[0], h, told);
      InvKept(init, s, acts[0]);
      RunFits(init, Apply(s, acts[0]).value, acts[1..], h, Noted(s, acts[0], h, told));
    }
  }

  /** A make-pool is out of names if and only if thirty were in use; lost, with its name
      given back or to be given back, if and only if its directory was; out of keys if and
      only if thirty were in use; and else has its pool under the name and key it got. */
  predicate PoolEnds(at: PoolPc, told: PoolTold) {
    && (at.NoNameLeft? <==> told.namesTaken == ID_LIMIT)
    && (at.Holding? || at.Unnaming? || at.Owning? || at.PoolLost? <==> told.placed == Some(false))
    && (at.NoKeyLeft? <==> told.keysTaken == ID_LIMIT)
    && (at.Putting? || at.ProbingPool? || at.ProbingPoolKey? || at.PoolMade? <==> told.keyed.Some?)
    && (at.PoolMade? ==> told.named == Some(at.pool) && told.placed == Some(true) && told.keyed == Some(at.key))
  }

  /** A make-bucket succeeds if and only if its probe was good, panics if and only if the
      probe key was gone, and is refused if and only if the pool was not there, the bucket
      was taken or the probe was bad. */
  predicate BucketEnds(step: BucketPc, told: BucketTold) {
    && (step.BucketMade? <==> told.probed == Some(Good))
    && (step.BucketPanic? <==> told.probed == Some(KeyGone))
    && (step.BucketLost? || step.BucketHolding? || step.Dropping? <==>
        told.there == Some(false) || told.claimed == Some(false) || told.probed == Some(Bad))
  }

  lemma FitsEnds(x: Handler, told: Told)
    requires Fits(x, told)
    ensures x.MakePool? ==> PoolEnds(x.at, told.pool)
    ensures x.MakeBucket? ==> BucketEnds(x.step, told.bucket)
  {
  }

  /** In every run, the answers that a handler got decide how it ends. */
  lemma AnswersDecide(init: State, acts: seq<Action>, h: Hid)
    requires Startable(init) && Exec(init, acts).Some? && h in Exec(init, acts).value.handlers
    ensures var told := ToldIn(init, acts, h, Nothing); var x := Exec(init, acts).value.handlers[h];
            && (x.MakePool? ==> PoolEnds(x.at, told.pool))
            && (x.MakeBucket? ==> BucketEnds(x.step, told.bucket))
  {
    StartInv(init);
    hide Inv, Exec, ToldIn, Fits, PoolEnds, BucketEnds;
    RunFits(init, init, acts, h, Nothing);
    FitsEnds(Exec(init, acts).value.handlers[h], ToldIn(init, acts, h, Nothing));
  }

  // ---- a handler comes to its end ----

  predicate AtEnd(x: Handler) {
    match x
    case MakePool(_, at) => at.PoolMade? || at.PoolLost? || at.NoNameLeft? || at.NoKeyLeft? || at.PoolPanic?
    case MakeBucket(_, _, step) => step.BucketMade? || step.BucketLost? || step.BucketPanic?
  }

  /** The next call of a handler, with an id or a result of a probe. */
  function NextCall(x: Handler, h: Hid, id: string, ok: bool): Action {
    match x
    case MakePool(_, at) =>
      (match at
       case Naming(_) => DoName(h, id)
       case Placing(_) => DoPlace(h)
       case Holding(_) => DoHolder(h)
       case Unnaming(_) => DoUnname(h)
       case Owning => DoOwner(h)
       case Keying(_, _) => DoKey(h, id)
       case Putting(_, _) => DoPut(h)
       case ProbingPool(_, _) => DoProbePool(h)
       case _ => DoProbePoolKey(h))
    case MakeBucket(_, _, step) =>
      (match step
       case Checking => DoCheck(h)
       case Claiming => DoClaim(h)
       case BucketHolding => DoBucketHolder(h)
       case ProbingBucket => DoProbeBucket(h)
       case ProbingBucketKey(_) => DoProbeBucketKey(h, ok)
       case _ => DoDrop(h))
  }

  /** In every state a handler has a next call, whatever id or result comes, if and only
      if it is not at an end; and no other call is possible. */
  lemma NeverStuck(s: State, h: Hid, a: Action)
    requires h in s.handlers && a.h == h
    ensures Apply(s, a).Some? <==> !AtEnd(s.handlers[h]) && exists id, ok :: a == NextCall(s.handlers[h], h, id, ok)
  {
    var x := s.handlers[h];
    if Apply(s, a).Some? {
      var id := match a case DoName(_, id) => id case DoKey(_, id) => id case _ => "";
      assert a == NextCall(x, h, id, a.DoProbeBucketKey? && a.ok);
    }
  }

  /** At most so many calls are left. */
  function PoolCalls(at: PoolPc): nat {
    match at
    case Naming(n) => 34 + (if n < ID_LIMIT then ID_LIMIT - n else 0)
    case Placing(_) => 34
    case Keying(_, n) => 3 + (if n < ID_LIMIT then ID_LIMIT - n else 0)
    case Putting(_, _) => 3
    case Holding(_) => 3
    case ProbingPool(_, _) => 2
    case Unnaming(_) => 2
    case ProbingPoolKey(_, _, _) => 1
    case Owning => 1
    case _ => 0
  }

  function BucketCalls(step: BucketPc): nat {
    match step
    case Checking => 5
    case Claiming => 4
    case ProbingBucket => 3
    case ProbingBucketKey(_) => 2
    case Dropping => 1
    case BucketHolding => 1
    case _ => 0
  }

  function CallsLeft(x: Handler): nat {
    match x
    case MakePool(_, at) => PoolCalls(at)
    case MakeBucket(_, _, step) => BucketCalls(step)
  }

  /** Ids tried so far are within the limit. */
  predicate WithinLimit(x: Handler) {
    x.MakePool? && (x.at.Naming? || x.at.Keying?) ==> x.at.tries < ID_LIMIT
  }

  lemma IdCallLess(s: State, a: Action, h: Hid)
    requires h in s.handlers && s.handlers[h].MakePool? && ApplyPool(s, a, h).Some? && WithinLimit(s.handlers[h])
    requires a.DoName? || a.DoKey?
    ensures var x := ApplyPool(s, a, h).value.handlers[h];
            x.MakePool? && WithinLimit(x) && PoolCalls(x.at) < PoolCalls(s.handlers[h].at)
  {
  }

  lemma OtherCallLess(s: State, a: Action, h: Hid)
    requires h in s.handlers && s.handlers[h].MakePool? && ApplyPool(s, a, h).Some? && WithinLimit(s.handlers[h])
    requires !a.DoName? && !a.DoKey?
    ensures var x := ApplyPool(s, a, h).value.handlers[h];
            x.MakePool? && WithinLimit(x) && PoolCalls(x.at) < PoolCalls(s.handlers[h].at)
  {
  }

  lemma BucketCallLess(s: State, a: Action, h: Hid)
    requires h in s.handlers && s.handlers[h].MakeBucket? && ApplyBucket(s, a, h).Some?
    ensures var x := ApplyBucket(s, a, h).value.handlers[h];
            x.MakeBucket? && BucketCalls(x.step) < BucketCalls(s.handlers[h].step)
  {
  }

  lemma OneCallLess(s: State, a: Action, h: Hid)
    requires h in s.handlers && a.h == h && Apply(s, a).Some? && WithinLimit(s.handlers[h])
    ensures var r := Apply(s, a).value;
            h in r.handlers && WithinLimit(r.handlers[h]) && CallsLeft(r.handlers[h]) < CallsLeft(s.handlers[h])
  {
    StepMovesOne(s, a);
    hide ApplyPool, ApplyBucket, PoolCalls, BucketCalls;
    if s.handlers[h].MakeBucket? {
      BucketCallLess(s, a, h);
    } else if a.DoName? || a.DoKey? {
      IdCallLess(s, a, h);
    } else {
      OtherCallLess(s, a, h);
    }
  }

  /** The calls of a handler in a list of steps. */
  function Calls(acts: seq<Action>, h: Hid): nat {
    if acts == [] then 0
    else (if !acts[0].Arrive? && acts[0].h == h then 1 else 0) + Calls(acts[1..], h)
  }

  /** What a handler may still do, arrived or not. */
  function Budget(s: State, h: Hid): nat {
    if h in s.handlers then CallsLeft(s.handlers[h]) else 64
  }

  lemma BudgetFalls(s: State, a: Action, h: Hid)
    requires Apply(s, a).Some? && (h in s.handlers ==> WithinLimit(s.handlers[h]))
    ensures var r := Apply(s, a).value;
            && (h in r.handlers ==> WithinLimit(r.handlers[h]))
            && Budget(r, h) + Calls([a], h) <= Budget(s, h)
  {
    hide ApplyPool, ApplyBucket;
    assert Calls([a], h) == if !a.Arrive? && a.h == h then 1 else 0;
    if a.h != h {
      StepMovesOne(s, a);
    } else if h in s.handlers {
      OneCallLess(s, a, h);
    }
  }

  /** In every run from any state, a handler makes at most as many calls as it had left,
      which is 64 before it arrives. */
  lemma {:induction false} FewCalls(s: State, acts: seq<Action>, h: Hid)
    requires Exec(s, acts).Some? && (h in s.handlers ==> WithinLimit(s.handlers[h]))
    ensures Calls(acts, h) + Budget(Exec(s, acts).value, h) <= Budget(s, h)
    decreases |acts|
  {
    hide Apply, Budget;
    if acts != [] {
      BudgetFalls(s, acts[0], h);
      FewCalls(Apply(s, acts[0]).value, acts[1..], h);
    }
  }

  /** None is left exactly at an end, so that a handler which goes on comes to its end; a
      make-bucket never has more than five left. */
  lemma BudgetIsSpent(s: State, h: Hid)
    requires h in s.handlers
    ensures Budget(s, h) == 0 <==> AtEnd(s.handlers[h])
    ensures s.handlers[h].MakeBucket? ==> Budget(s, h) <= 5
  {
  }
}
