/**
 The mutex is there so that only one backend of a pool starts
 (v2/doc/design-notes.md, the entry on dx:).  It does not achieve this by itself:
 the backend record is read before the mutex is won and not again after.  This
 module proves that the promise does hold in runs that keep three rules.
 */
module SingleBackend {
  import opened Records
  import opened Protocol
  import opened ProtocolSafety
  import opened Robbery
  import opened RecordLife

  /** A backend is up: it was started and is about to be published, or it is pinged. */
  predicate Up(th: Thread) {
    Pinger(th) || (th.pc.In? && (th.pc.step.Register? || th.pc.step.Publish?))
  }

  /** Inside and not past publishing a backend. */
  predicate Before(th: Thread) {
    th.pc.In? && !th.pc.step.ShowReady? && !th.pc.step.Release?
  }

  /** Time does not pass the life that a pinger last gave to its record. */
  predicate OnTime(c: Conf, s: State, a: Action) {
    a.Tick? ==> forall t | t in s.threads && Pinger(s.threads[t]) ::
                  s.now + a.ms < s.threads[t].entered + 1000 * BackendTtl(c)
  }

  /** What a run must not do: rob a thread, win the mutex while a record of the
      pool is there, or keep a pinger from renewing or withdrawing its record
      within three heartbeat intervals. */
  predicate Careful(c: Conf, s: State, a: Action) {
    && !Robs(c, s, a)
    && (a.DoGrab? && a.t in s.threads && s.threads[a.t].pool !in s.mutex ==> s.threads[a.t].pool !in s.backend)
    && OnTime(c, s, a)
  }

  /** Every pinger has some of that life left. */
  ghost predicate InLife(c: Conf, now: nat, threads: map<Tid, Thread>) {
    forall t | t in threads && Pinger(threads[t]) :: now < threads[t].entered + 1000 * BackendTtl(c)
  }

  lemma InLifeUpdate(c: Conf, now: nat, threads: map<Tid, Thread>, after: map<Tid, Thread>, t: Tid)
    requires InLife(c, now, threads) && BackendTtl(c) > 0 && t in after && after == threads[t := after[t]]
    requires Pinger(after[t]) ==> after[t].entered == now || (t in threads && Pinger(threads[t]) && after[t].entered == threads[t].entered)
    ensures InLife(c, now, after)
  {
  }

  lemma InLifePinger(c: Conf, s: State, a: Action, t: Tid)
    requires InLife(c, s.now, s.threads) && BackendTtl(c) > 0
    requires t in s.threads && ApplyPinger(c, s, a, t).Some? && !(a.DoDropMutex? && s.threads[t].pool in s.mutex)
    ensures var r := ApplyPinger(c, s, a, t).value; InLife(c, r.now, r.threads)
  {
    hide InLife;
    InLifeUpdate(c, s.now, s.threads, ApplyPinger(c, s, a, t).value.threads, t);
  }

  lemma InLifePublish(c: Conf, s: State, a: Action, t: Tid)
    requires InLife(c, s.now, s.threads) && BackendTtl(c) > 0
    requires t in s.threads && OfPublish(a) && ApplyPublish(c, s, a, t).Some?
    ensures var r := ApplyPublish(c, s, a, t).value; InLife(c, r.now, r.threads)
  {
    hide InLife;
    var r := ApplyPublish(c, s, a, t).value;
    InLifeUpdate(c, s.now, s.threads, s.threads[t := r.threads[t]], t);
    if a.DoPublish? {
      InLifeUpdate(c, s.now, s.threads[t := r.threads[t]], r.threads, a.pinger);
    }
  }

  lemma InLifeQuiet(c: Conf, now: nat, threads: map<Tid, Thread>, after: map<Tid, Thread>, t: Tid)
    requires InLife(c, now, threads) && BackendTtl(c) > 0 && Quiet(threads, after, t)
    ensures InLife(c, now, after)
  {
    InLifeUpdate(c, now, threads, after, t);
  }

  lemma InLifeKept(c: Conf, s: State, a: Action)
    requires Inv(c, s) && NobodyRobbed(s.threads) && InLife(c, s.now, s.threads) && BackendTtl(c) > 0
    requires Careful(c, s, a) && Apply(c, s, a).Some?
    ensures var r := Apply(c, s, a).value; InLife(c, r.now, r.threads)
  {
    hide Locks, Published, GoodThreads, Counted, Timed, Clocked, NobodyRobbed, Quiet;
    hide ApplyRequest, ApplyTry, ApplyLock, ApplyPublish, ApplyPinger;
    var r := Apply(c, s, a).value;
    if OfWorld(a) {
      match a
      case Arrive(t, _, _) => InLifeUpdate(c, s.now, s.threads, r.threads, t);
      case _ =>
    } else if OfRequest(a) {
      RequestIsQuiet(s, a, a.t);
      SameTime(c, s, a);
      InLifeQuiet(c, s.now, s.threads, r.threads, a.t);
    } else if OfLock(a) {
      LockIsQuiet(c, s, a, a.t);
      SameTime(c, s, a);
      InLifeQuiet(c, s.now, s.threads, r.threads, a.t);
    } else if OfTry(a) {
      TryIsQuiet(c, s, a, a.t);
      SameTime(c, s, a);
      InLifeQuiet(c, s.now, s.threads, r.threads, a.t);
    } else if OfPublish(a) {
      InLifePublish(c, s, a, a.t);
    } else {
      InLifePinger(c, s, a, a.t);
    }
  }

  lemma SameTime(c: Conf, s: State, a: Action)
    requires OfRequest(a) || OfLock(a) || OfTry(a)
    requires Apply(c, s, a).Some?
    ensures Apply(c, s, a).value.now == s.now
  {
    hide NextRequest, NextTry;
  }

  /** So the record of a pinged backend cannot expire. */
  lemma PingedDoesNotExpire(c: Conf, s: State, p: PoolId)
    requires RecordsWell(c, s.backend, s.threads) && InLife(c, s.now, s.threads)
    requires Apply(c, s, ExpireBackend(p)).Some?
    ensures p in s.backend && s.backend[p].owner in s.threads && !Pinger(s.threads[s.backend[p].owner])
  {
  }

  /** A pinged backend has its own record in place. */
  ghost predicate OwnRecords(backend: map<PoolId, Entry>, threads: map<Tid, Thread>) {
    forall t | t in threads && Pinger(threads[t]) ::
      threads[t].pool in backend && backend[threads[t].pool].owner == t
  }

  /** While a thread is starting a backend, no backend of that pool is pinged. */
  ghost predicate NoneBefore(threads: map<Tid, Thread>) {
    forall t, u | t in threads && u in threads && Before(threads[t]) && Pinger(threads[u]) ::
      threads[t].pool != threads[u].pool
  }

  /** A step of one thread that does not enter a start or spawn a pinger. */
  ghost predicate Calm(threads: map<Tid, Thread>, after: map<Tid, Thread>, t: Tid) {
    && t in threads && t in after
    && after == threads[t := after[t]]
    && after[t].pool == threads[t].pool
    && (Before(after[t]) ==> Before(threads[t]))
    && (Pinger(after[t]) ==> Pinger(threads[t]))
  }

  lemma CalmStep(backend: map<PoolId, Entry>, threads: map<Tid, Thread>, after: map<Tid, Thread>, t: Tid)
    requires NoneBefore(threads) && OwnRecords(backend, threads) && Calm(threads, after, t)
    ensures NoneBefore(after) && OwnRecords(backend, after)
  {
  }

  lemma SameOwners(backend: map<PoolId, Entry>, after: map<PoolId, Entry>, threads: map<Tid, Thread>)
    requires OwnRecords(backend, threads)
    requires forall p | p in backend :: p in after && after[p].owner == backend[p].owner
    ensures OwnRecords(after, threads)
  {
  }

  /** A thread before its start may replace or remove the record of its pool. */
  lemma ReplaceRecord(backend: map<PoolId, Entry>, after: map<PoolId, Entry>, threads: map<Tid, Thread>, t: Tid)
    requires OwnRecords(backend, threads) && NoneBefore(threads) && t in threads && Before(threads[t])
    requires forall p | p in backend && p != threads[t].pool :: p in after && after[p] == backend[p]
    ensures OwnRecords(after, threads)
  {
  }

  lemma SingleGrab(s: State, t: Tid, after: map<Tid, Thread>)
    requires OwnRecords(s.backend, s.threads) && NoneBefore(s.threads)
    requires t in s.threads && s.threads[t].pool !in s.backend
    requires t in after && after == s.threads[t := after[t]] && after[t].pool == s.threads[t].pool && !Pinger(after[t])
    ensures OwnRecords(s.backend, after) && NoneBefore(after)
  {
  }

  lemma SingleLock(c: Conf, s: State, a: Action, t: Tid)
    requires Locks(s.mutex, s.threads) && NobodyRobbed(s.threads)
    requires OwnRecords(s.backend, s.threads) && NoneBefore(s.threads)
    requires t in s.threads && OfLock(a) && a.t == t && ApplyLock(c, s, a, t).Some? && Careful(c, s, a)
    ensures var r := ApplyLock(c, s, a, t).value; OwnRecords(r.backend, r.threads) && NoneBefore(r.threads)
  {
    var th := s.threads[t];
    var r := ApplyLock(c, s, a, t).value;
    LockFrame(c, s, a, t);
    hide OwnRecords, NoneBefore, Calm;
    if a.DoGrab? && th.pool !in s.mutex {
      SingleGrab(s, t, r.threads);
    } else {
      assert Calm(s.threads, r.threads, t) by { LockIsCalm(c, s, a, t); }
      CalmStep(s.backend, s.threads, r.threads, t);
    }
  }

  lemma LockIsCalm(c: Conf, s: State, a: Action, t: Tid)
    requires Locks(s.mutex, s.threads) && NobodyRobbed(s.threads)
    requires t in s.threads && ApplyLock(c, s, a, t).Some?
    requires !(a.DoGrab? && s.threads[t].pool !in s.mutex) && !(a.DoSetTtl? && MutexTtl(c) == 0)
    ensures Calm(s.threads, ApplyLock(c, s, a, t).value.threads, t)
  {
    var r := ApplyLock(c, s, a, t).value;
    if a.DoRelease? {
      assert s.mutex[s.threads[t].pool].owner == t;
      assert r.threads == s.threads[t := r.threads[t]];
    }
  }

  lemma SinglePublish(c: Conf, s: State, a: Action, t: Tid)
    requires Locks(s.mutex, s.threads) && NobodyRobbed(s.threads)
    requires OwnRecords(s.backend, s.threads) && NoneBefore(s.threads)
    requires t in s.threads && a.DoPublish? && ApplyPublish(c, s, a, t).Some?
    ensures var r := ApplyPublish(c, s, a, t).value; OwnRecords(r.backend, r.threads) && NoneBefore(r.threads)
  {
    var r := ApplyPublish(c, s, a, t).value;
    var p := s.threads[t].pool;
    forall u | u in r.threads && Pinger(r.threads[u])
      ensures r.threads[u].pool in r.backend && r.backend[r.threads[u].pool].owner == u
    {
      if u != a.pinger {
        assert Before(s.threads[t]) && s.threads[u].pool != p;
      }
    }
    forall v, u | v in r.threads && u in r.threads && Before(r.threads[v]) && Pinger(r.threads[u])
      ensures r.threads[v].pool != r.threads[u].pool
    {
      assert v != t && v != a.pinger && s.mutex[p].owner == t;
      assert s.threads[v].pool in s.mutex && s.mutex[s.threads[v].pool].owner == v;
    }
  }

  lemma SingleSuspend(c: Conf, s: State, a: Action, t: Tid)
    requires OwnRecords(s.backend, s.threads) && NoneBefore(s.threads)
    requires t in s.threads && OfPublish(a) && !a.DoPublish? && ApplyPublish(c, s, a, t).Some?
    ensures var r := ApplyPublish(c, s, a, t).value; OwnRecords(r.backend, r.threads) && NoneBefore(r.threads)
  {
    var r := ApplyPublish(c, s, a, t).value;
    assert Calm(s.threads, r.threads, t) by { SuspendIsCalm(c, s, a, t); }
    hide OwnRecords, NoneBefore, Calm;
    if a.DoSuspend? || a.DoSuspendTtl? {
      ReplaceRecord(s.backend, r.backend, s.threads, t);
    }
    CalmStep(r.backend, s.threads, r.threads, t);
  }

  lemma SuspendIsCalm(c: Conf, s: State, a: Action, t: Tid)
    requires t in s.threads && OfPublish(a) && !a.DoPublish? && ApplyPublish(c, s, a, t).Some?
    ensures Calm(s.threads, ApplyPublish(c, s, a, t).value.threads, t)
  {
  }

  lemma SinglePinger(c: Conf, s: State, a: Action, t: Tid)
    requires BackendTtl(c) > 0
    requires OwnRecords(s.backend, s.threads) && NoneBefore(s.threads)
    requires t in s.threads && ApplyPinger(c, s, a, t).Some?
    requires !(a.DoDropMutex? && s.threads[t].pool in s.mutex)
    ensures var r := ApplyPinger(c, s, a, t).value; OwnRecords(r.backend, r.threads) && NoneBefore(r.threads)
  {
    var r := ApplyPinger(c, s, a, t).value;
    if a.DoDropBackend? {
      assert NoneBefore(r.threads);
    } else {
      hide OwnRecords, NoneBefore;
      SameOwners(s.backend, r.backend, s.threads);
      CalmStep(r.backend, s.threads, r.threads, t);
    }
  }

  lemma SingleExpire(s: State, p: PoolId)
    requires OwnRecords(s.backend, s.threads) && p in s.backend
    requires s.backend[p].owner in s.threads ==> !Pinger(s.threads[s.backend[p].owner])
    ensures OwnRecords(s.backend - {p}, s.threads)
  {
  }

  lemma SingleArrive(backend: map<PoolId, Entry>, threads: map<Tid, Thread>, t: Tid, th: Thread)
    requires OwnRecords(backend, threads) && NoneBefore(threads) && t !in threads && th.pc.Out?
    ensures OwnRecords(backend, threads[t := th]) && NoneBefore(threads[t := th])
  {
  }

  lemma SingleRequest(s: State, a: Action, t: Tid)
    requires OwnRecords(s.backend, s.threads) && NoneBefore(s.threads)
    requires t in s.threads && ApplyRequest(s, a, t).Some?
    ensures var r := ApplyRequest(s, a, t).value; OwnRecords(r.backend, r.threads) && NoneBefore(r.threads)
  {
    hide OwnRecords, NoneBefore;
    CalmStep(s.backend, s.threads, ApplyRequest(s, a, t).value.threads, t);
  }

  lemma SingleTry(c: Conf, s: State, a: Action, t: Tid)
    requires Published(c, s.backend) && OwnRecords(s.backend, s.threads) && NoneBefore(s.threads)
    requires t in s.threads && ApplyTry(c, s, a, t).Some?
    ensures var r := ApplyTry(c, s, a, t).value; OwnRecords(r.backend, r.threads) && NoneBefore(r.threads)
  {
    hide OwnRecords, NoneBefore, Published;
    assert Before(s.threads[t]) by { TryIsBefore(c, s, a, t); }
    NextTryInside(c, s, a, t);
    hide NextTry;
    CalmStep(s.backend, s.threads, ApplyTry(c, s, a, t).value.threads, t);
  }

  lemma TryIsBefore(c: Conf, s: State, a: Action, t: Tid)
    requires t in s.threads && NextTry(c, s, a, t).Some?
    ensures Before(s.threads[t])
  {
  }

  lemma SingleKept(c: Conf, s: State, a: Action)
    requires Inv(c, s) && NobodyRobbed(s.threads) && BackendTtl(c) > 0
    requires RecordsWell(c, s.backend, s.threads) && InLife(c, s.now, s.threads)
    requires OwnRecords(s.backend, s.threads) && NoneBefore(s.threads)
    requires Careful(c, s, a) && Apply(c, s, a).Some?
    ensures var r := Apply(c, s, a).value; OwnRecords(r.backend, r.threads) && NoneBefore(r.threads)
  {
    hide Locks, Published, GoodThreads, Counted, Timed, Clocked, NobodyRobbed, OwnRecords, NoneBefore, RecordsWell, InLife, OnTime;
    hide NextTry, NextRequest, ApplyRequest, ApplyTry, ApplyLock, ApplyPublish, ApplyPinger;
    if OfWorld(a) {
      match a
      case Arrive(t, pool, muxEp) =>
        SingleArrive(s.backend, s.threads, t, Thread(pool, muxEp, Out(Stamp), false, s.now));
      case ExpireBackend(p) =>
        PingedDoesNotExpire(c, s, p);
        SingleExpire(s, p);
      case _ =>
    } else if OfRequest(a) {
      SingleRequest(s, a, a.t);
    } else if OfLock(a) {
      SingleLock(c, s, a, a.t);
    } else if OfTry(a) {
      SingleTry(c, s, a, a.t);
    } else if a.DoPublish? {
      SinglePublish(c, s, a, a.t);
    } else if OfPublish(a) {
      SingleSuspend(c, s, a, a.t);
    } else {
      SinglePinger(c, s, a, a.t);
    }
  }

  predicate CarefulRun(c: Conf, s: State, acts: seq<Action>)
    decreases |acts|
  {
    acts == [] ||
    (Careful(c, s, acts[0]) && Apply(c, s, acts[0]).Some? && CarefulRun(c, Apply(c, s, acts[0]).value, acts[1..]))
  }

  lemma {:induction false} CarefulRunKeeps(c: Conf, s: State, acts: seq<Action>)
    requires Inv(c, s) && NobodyRobbed(s.threads) && BackendTtl(c) > 0
    requires RecordsWell(c, s.backend, s.threads) && InLife(c, s.now, s.threads)
    requires OwnRecords(s.backend, s.threads) && NoneBefore(s.threads)
    requires CarefulRun(c, s, acts) && Exec(c, s, acts).Some?
    ensures var r := Exec(c, s, acts).value;
            Inv(c, r) && NobodyRobbed(r.threads) && OwnRecords(r.backend, r.threads) && NoneBefore(r.threads)
    decreases |acts|
  {
    hide Inv, NobodyRobbed, OwnRecords, NoneBefore, RecordsWell, InLife, Robs, Apply, OnTime;
    if acts != [] {
      InvKept(c, s, acts[0]);
      UnrobbedKept(c, s, acts[0]);
      RecordsKept(c, s, acts[0]);
      InLifeKept(c, s, acts[0]);
      SingleKept(c, s, acts[0]);
      CarefulRunKeeps(c, Apply(c, s, acts[0]).value, acts[1..]);
    }
  }

  ghost predicate SingleUp(s: State) {
    forall t, u | t in s.threads && u in s.threads && Up(s.threads[t]) && Up(s.threads[u])
                  && s.threads[t].pool == s.threads[u].pool :: t == u
  }

  /** In a careful run a pool never has two backends up. */
  lemma OneBackendPerPool(c: Conf, acts: seq<Action>)
    requires BackendTtl(c) > 0 && CarefulRun(c, Start, acts) && Exec(c, Start, acts).Some?
    ensures SingleUp(Exec(c, Start, acts).value)
  {
    StartInv(c);
    CarefulRunKeeps(c, Start, acts);
  }
}
