/**
 What every run of the start/stop protocol keeps.
 */
module ProtocolSafety {
  import opened Records
  import opened Ports
  import opened Protocol

  // ---- the mutex ----

  /** A thread inside that was not robbed holds the key, and a key that is set
      is held by a thread inside: every exit path releases it. */
  ghost predicate Locks(mutex: map<PoolId, Lock>, threads: map<Tid, Thread>) {
    && (forall t | t in threads && threads[t].pc.In? && !threads[t].robbed ::
          threads[t].pool in mutex && mutex[threads[t].pool].owner == t)
    && (forall p | p in mutex ::
          && mutex[p].owner in threads
          && threads[mutex[p].owner].pool == p
          && threads[mutex[p].owner].pc.In?
          && !threads[mutex[p].owner].robbed)
  }

  /** A published record: READY with an endpoint on one of the configured ports
      and with credentials, or a SUSPENDED dummy with neither. */
  predicate GoodRecord(c: Conf, be: Backend) {
    || (be.state.Ready? && be.ep.HostPort? && Free(c.portMin, c.portMax, c.width, [], be.ep.port)
        && be.rootAccess != "" && be.rootSecret != "")
    || (be.state.Suspended? && be.ep.NoEndpoint? && be.rootAccess == "" && be.rootSecret == "")
  }

  ghost predicate Published(c: Conf, backend: map<PoolId, Entry>) {
    forall p | p in backend :: backend[p].be.pool == p && GoodRecord(c, backend[p].be)
  }

  /** The steps that neither set nor remove the mutex nor spawn a thread. */
  predicate Plain(a: Action) {
    !(OfWorld(a) || OfLock(a) || a.DoDropMutex? || a.DoPublish?)
  }

  /** A plain step moves one thread within or outside the mutexed part ... */
  ghost predicate Moves(threads: map<Tid, Thread>, after: map<Tid, Thread>, t: Tid) {
    && t in threads && t in after
    && after == threads[t := after[t]]
    && after[t].pool == threads[t].pool
    && after[t].robbed == threads[t].robbed
    && (after[t].pc.In? <==> threads[t].pc.In?)
    && (after[t].pc.In? ==> after[t].entered == threads[t].entered)
  }

  /** ... and leaves the mutexes alone. */
  ghost predicate SameLocks(s: State, r: State) {
    r.mutex == s.mutex && r.wins == s.wins && r.removals == s.removals && r.now == s.now
  }

  lemma MovesTo(threads: map<Tid, Thread>, t: Tid, pc: Pc)
    requires t in threads && (pc.In? <==> threads[t].pc.In?)
    ensures Moves(threads, threads[t := threads[t].(pc := pc)], t)
    ensures !pc.In? ==> forall e :: Moves(threads, threads[t := threads[t].(pc := pc, entered := e)], t)
  {
  }

  lemma PlainRequest(s: State, a: Action, t: Tid)
    requires t in s.threads && ApplyRequest(s, a, t).Some?
    ensures Moves(s.threads, ApplyRequest(s, a, t).value.threads, t)
    ensures SameLocks(s, ApplyRequest(s, a, t).value)
  {
    hide Moves;
    MovesTo(s.threads, t, NextRequest(s, a, t).value);
  }

  lemma PlainTry(c: Conf, s: State, a: Action, t: Tid)
    requires t in s.threads && Published(c, s.backend) && ApplyTry(c, s, a, t).Some?
    ensures Moves(s.threads, ApplyTry(c, s, a, t).value.threads, t)
    ensures SameLocks(s, ApplyTry(c, s, a, t).value)
  {
    hide Moves;
    NextTryInside(c, s, a, t);
    hide NextTry;
    MovesTo(s.threads, t, NextTry(c, s, a, t).value);
  }

  lemma NextTryInside(c: Conf, s: State, a: Action, t: Tid)
    requires t in s.threads && Published(c, s.backend) && NextTry(c, s, a, t).Some?
    ensures s.threads[t].pc.In? && NextTry(c, s, a, t).value.In?
  {
  }

  lemma PlainPublish(c: Conf, s: State, a: Action, t: Tid)
    requires t in s.threads && Plain(a) && ApplyPublish(c, s, a, t).Some?
    ensures Moves(s.threads, ApplyPublish(c, s, a, t).value.threads, t)
    ensures SameLocks(s, ApplyPublish(c, s, a, t).value)
  {
    hide Moves;
    MovesTo(s.threads, t, ApplyPublish(c, s, a, t).value.threads[t].pc);
  }

  lemma PlainPinger(c: Conf, s: State, a: Action, t: Tid)
    requires t in s.threads && Plain(a) && ApplyPinger(c, s, a, t).Some?
    ensures Moves(s.threads, ApplyPinger(c, s, a, t).value.threads, t)
    ensures SameLocks(s, ApplyPinger(c, s, a, t).value)
  {
    hide Moves;
    MovesTo(s.threads, t, ApplyPinger(c, s, a, t).value.threads[t].pc);
  }

  lemma PlainStep(c: Conf, s: State, a: Action)
    requires Plain(a) && Published(c, s.backend) && Apply(c, s, a).Some?
    ensures a.t in s.threads && Moves(s.threads, Apply(c, s, a).value.threads, a.t)
    ensures SameLocks(s, Apply(c, s, a).value)
  {
    hide Published, Moves;
    hide ApplyRequest, ApplyTry, ApplyPublish, ApplyPinger;
    if OfRequest(a) {
      PlainRequest(s, a, a.t);
    } else if OfTry(a) {
      PlainTry(c, s, a, a.t);
    } else if OfPublish(a) {
      PlainPublish(c, s, a, a.t);
    } else {
      PlainPinger(c, s, a, a.t);
    }
  }

  lemma LocksMove(mutex: map<PoolId, Lock>, threads: map<Tid, Thread>, after: map<Tid, Thread>, t: Tid)
    requires Locks(mutex, threads) && Moves(threads, after, t)
    ensures Locks(mutex, after)
  {
  }

  lemma LocksUnlock(s: State, p: PoolId)
    requires Locks(s.mutex, s.threads)
    ensures Locks(Unlock(s, p).mutex, Unlock(s, p).threads)
    ensures p !in Unlock(s, p).mutex
    ensures Unlock(s, p).threads.Keys == s.threads.Keys
    ensures forall t | t in s.threads ::
              Unlock(s, p).threads[t] == s.threads[t].(robbed := Unlock(s, p).threads[t].robbed)
  {
  }

  /** A thread whose pool is unlocked may go anywhere outside. */
  lemma LocksLeave(mutex: map<PoolId, Lock>, threads: map<Tid, Thread>, t: Tid, pc: Pc)
    requires Locks(mutex, threads) && t in threads && !pc.In? && threads[t].pool !in mutex
    ensures Locks(mutex, threads[t := threads[t].(pc := pc)])
  {
  }

  lemma LocksGrab(mutex: map<PoolId, Lock>, threads: map<Tid, Thread>, t: Tid, now: nat)
    requires Locks(mutex, threads) && t in threads && threads[t].pool !in mutex
    ensures Locks(mutex[threads[t].pool := Lock(t, None)],
                  threads[t := threads[t].(pc := In(SetTtl), robbed := false, entered := now)])
  {
  }

  lemma LocksEnter(mutex: map<PoolId, Lock>, threads: map<Tid, Thread>, t: Tid, now: nat)
    requires Locks(mutex, threads) && t in threads && threads[t].pc.In?
    ensures Locks(mutex, threads[t := threads[t].(pc := In(GetPool), entered := now)])
  {
  }

  lemma LocksSpawn(mutex: map<PoolId, Lock>, threads: map<Tid, Thread>, t: Tid, th: Thread)
    requires Locks(mutex, threads) && t !in threads && !th.pc.In?
    ensures Locks(mutex, threads[t := th])
  {
  }

  lemma LocksExpireLock(s: State, p: PoolId, sec: nat)
    requires Locks(s.mutex, s.threads)
    ensures Locks(ExpireLock(s, p, sec).mutex, ExpireLock(s, p, sec).threads)
  {
    LocksUnlock(s, p);
  }

  lemma LocksKept(c: Conf, s: State, a: Action)
    requires Locks(s.mutex, s.threads) && Published(c, s.backend) && Apply(c, s, a).Some?
    ensures var r := Apply(c, s, a).value; Locks(r.mutex, r.threads)
  {
    hide Locks, Published, Moves, ApplyTry;
    var r := Apply(c, s, a).value;
    if Plain(a) {
      PlainStep(c, s, a);
      LocksMove(s.mutex, s.threads, r.threads, a.t);
    } else if OfWorld(a) {
      match a
      case ExpireMutex(p) => LocksUnlock(s, p);
      case Arrive(t, pool, muxEp) => LocksSpawn(s.mutex, s.threads, t, Thread(pool, muxEp, Out(Stamp), false, s.now));
      case _ =>
    } else {
      LocksKeptByLockStep(c, s, a);
    }
  }

  lemma LocksKeptByLockStep(c: Conf, s: State, a: Action)
    requires Locks(s.mutex, s.threads) && Apply(c, s, a).Some?
    requires OfLock(a) || a.DoDropMutex? || a.DoPublish?
    ensures var r := Apply(c, s, a).value; Locks(r.mutex, r.threads)
  {
    hide Locks, Moves, ApplyLock, ApplyPublish;
    var t := a.t;
    var th := s.threads[t];
    match a
    case DoDropMutex(_) =>
      LocksUnlock(s, th.pool);
      LocksLeave(Unlock(s, th.pool).mutex, Unlock(s, th.pool).threads, t, Ping(DropBackend));
    case DoPublish(_, _, _, _) =>
      LocksKeptByPublish(c, s, a, t);
    case _ =>
      LocksKeptByLockCall(c, s, a, t);
  }

  lemma LocksKeptByPublish(c: Conf, s: State, a: Action, t: Tid)
    requires Locks(s.mutex, s.threads) && t in s.threads && a.DoPublish? && ApplyPublish(c, s, a, t).Some?
    ensures var r := ApplyPublish(c, s, a, t).value; Locks(r.mutex, r.threads)
  {
    hide Locks, Moves;
    var r := ApplyPublish(c, s, a, t).value;
    var pc := r.threads[t].pc;
    MovesTo(s.threads, t, pc);
    LocksMove(s.mutex, s.threads, s.threads[t := s.threads[t].(pc := pc)], t);
    LocksSpawn(s.mutex, s.threads[t := s.threads[t].(pc := pc)], a.pinger, r.threads[a.pinger]);
  }

  lemma LocksKeptByLockCall(c: Conf, s: State, a: Action, t: Tid)
    requires Locks(s.mutex, s.threads) && t in s.threads && ApplyLock(c, s, a, t).Some?
    ensures var r := ApplyLock(c, s, a, t).value; Locks(r.mutex, r.threads)
  {
    hide Locks, Moves;
    var th := s.threads[t];
    match a
    case DoGrab(_) =>
      if th.pool in s.mutex {
        MovesTo(s.threads, t, Out(Holder));
        LocksMove(s.mutex, s.threads, s.threads[t := th.(pc := Out(Holder))], t);
      } else {
        LocksGrab(s.mutex, s.threads, t, s.now);
      }
    case DoSetTtl(_) =>
      var s1 := s.(threads := s.threads[t := th.(pc := In(GetPool), entered := s.now)]);
      LocksEnter(s.mutex, s.threads, t, s.now);
      LocksExpireLock(s1, th.pool, MutexTtl(c));
    case DoRelease(_) =>
      LocksUnlock(s, th.pool);
      LocksLeave(Unlock(s, th.pool).mutex, Unlock(s, th.pool).threads, t, Out(Answer(th.pc.step.result)));
  }

  // ---- published records and what threads carry ----

  /** What a thread carries: free ports, and good records of its own pool.  A
      request is served by a READY backend, and no thread has crashed. */
  predicate GoodThread(c: Conf, th: Thread) {
    match th.pc
    case Out(Answer(Some(be))) => be.pool == th.pool && GoodRecord(c, be)
    case Out(Served(be)) => be.pool == th.pool && GoodRecord(c, be) && be.state.Ready?
    case Out(Crashed) => false
    case In(Read(_, used)) => forall i | i in used :: Free(c.portMin, c.portMax, c.width, [], i)
    case In(Try(ports)) => forall i | i in ports :: Free(c.portMin, c.portMax, c.width, [], i)
    case In(Register(port)) => Free(c.portMin, c.portMax, c.width, [], port)
    case In(Publish(port)) => Free(c.portMin, c.portMax, c.width, [], port)
    case In(ShowReady(be)) => be.pool == th.pool && GoodRecord(c, be) && be.state.Ready?
    case In(Release(Some(be))) => be.pool == th.pool && GoodRecord(c, be)
    case _ => true
  }

  ghost predicate GoodThreads(c: Conf, threads: map<Tid, Thread>) {
    forall t | t in threads :: GoodThread(c, threads[t])
  }

  ghost predicate ShownInRange(shown: map<PoolId, PoolState>) {
    forall p | p in shown :: shown[p].Ready? || shown[p].Suspended?
  }

  lemma ListedPortsAreFree(c: Conf, used: seq<int>, ports: seq<int>)
    requires multiset(ports) == multiset(FreePorts(c.portMin, c.portMax, c.width, used))
    ensures forall i | i in ports :: Free(c.portMin, c.portMax, c.width, [], i)
  {
    FreePortsAre(c.portMin, c.portMax, c.width, used);
    forall i | i in ports ensures Free(c.portMin, c.portMax, c.width, [], i) {
      assert i in multiset(ports);
      assert i in FreePorts(c.portMin, c.portMax, c.width, used);
    }
  }

  lemma NextTryGood(c: Conf, s: State, a: Action, t: Tid)
    requires t in s.threads && Published(c, s.backend) && GoodThread(c, s.threads[t])
    requires NextTry(c, s, a, t).Some?
    ensures GoodThread(c, s.threads[t].(pc := NextTry(c, s, a, t).value))
  {
    if a.DoList? {
      ListedPortsAreFree(c, s.threads[t].pc.step.used, a.ports);
    }
  }

  lemma NextRequestGood(c: Conf, s: State, a: Action, t: Tid)
    requires t in s.threads && Published(c, s.backend) && GoodThread(c, s.threads[t])
    requires NextRequest(s, a, t).Some?
    ensures GoodThread(c, s.threads[t].(pc := NextRequest(s, a, t).value))
  {
  }

  lemma GoodThreadsUpdate(c: Conf, threads: map<Tid, Thread>, t: Tid, th: Thread)
    requires GoodThreads(c, threads) && GoodThread(c, th)
    ensures GoodThreads(c, threads[t := th])
  {
  }

  lemma GoodThreadsUnlock(c: Conf, s: State, p: PoolId)
    requires GoodThreads(c, s.threads)
    ensures GoodThreads(c, Unlock(s, p).threads)
  {
    if p in s.mutex && s.mutex[p].owner in s.threads {
      var th := s.threads[s.mutex[p].owner];
      assert GoodThread(c, th);
      GoodThreadsUpdate(c, s.threads, s.mutex[p].owner, th.(robbed := true));
    }
  }

  lemma GoodThreadsPublish(c: Conf, s: State, a: Action, t: Tid)
    requires t in s.threads && GoodThreads(c, s.threads) && ApplyPublish(c, s, a, t).Some?
    ensures GoodThreads(c, ApplyPublish(c, s, a, t).value.threads)
  {
    hide GoodThreads;
    assert GoodThread(c, s.threads[t]) by { GoodThreadAt(c, s.threads, t); }
    var r := ApplyPublish(c, s, a, t).value;
    GoodThreadsUpdate(c, s.threads, t, r.threads[t]);
    if a.DoPublish? {
      GoodThreadsUpdate(c, s.threads[t := r.threads[t]], a.pinger, r.threads[a.pinger]);
    }
  }

  lemma GoodThreadAt(c: Conf, threads: map<Tid, Thread>, t: Tid)
    requires GoodThreads(c, threads) && t in threads
    ensures GoodThread(c, threads[t])
  {
  }

  lemma GoodThreadsPinger(c: Conf, s: State, a: Action, t: Tid)
    requires t in s.threads && GoodThreads(c, s.threads) && ApplyPinger(c, s, a, t).Some?
    ensures GoodThreads(c, ApplyPinger(c, s, a, t).value.threads)
  {
    hide GoodThreads;
    var r := ApplyPinger(c, s, a, t).value;
    if a.DoDropMutex? {
      GoodThreadsUnlock(c, s, s.threads[t].pool);
      GoodThreadsUpdate(c, Unlock(s, s.threads[t].pool).threads, t, r.threads[t]);
    } else {
      GoodThreadsUpdate(c, s.threads, t, r.threads[t]);
    }
  }

  lemma GoodThreadsLock(c: Conf, s: State, a: Action, t: Tid)
    requires t in s.threads && GoodThreads(c, s.threads) && ApplyLock(c, s, a, t).Some?
    ensures GoodThreads(c, ApplyLock(c, s, a, t).value.threads)
  {
    hide GoodThreads;
    var th := s.threads[t];
    var r := ApplyLock(c, s, a, t).value;
    match a
    case DoGrab(_) => GoodThreadsUpdate(c, s.threads, t, r.threads[t]);
    case DoSetTtl(_) =>
      var s1 := s.(threads := s.threads[t := th.(pc := In(GetPool), entered := s.now)]);
      GoodThreadsUpdate(c, s.threads, t, s1.threads[t]);
      GoodThreadsUnlock(c, s1, th.pool);
    case DoRelease(_) =>
      GoodThreadAt(c, s.threads, t);
      GoodThreadsUnlock(c, s, th.pool);
      GoodThreadsUpdate(c, Unlock(s, th.pool).threads, t, r.threads[t]);
  }

  lemma GoodThreadsKept(c: Conf, s: State, a: Action)
    requires GoodThreads(c, s.threads) && Published(c, s.backend) && Apply(c, s, a).Some?
    ensures GoodThreads(c, Apply(c, s, a).value.threads)
  {
    hide GoodThreads, Published, GoodThread, NextRequest, NextTry, ApplyPublish, ApplyPinger, ApplyLock;
    if OfWorld(a) {
      match a
      case Arrive(t, pool, muxEp) => GoodThreadsArrive(c, s.threads, t, pool, muxEp, s.now);
      case ExpireMutex(p) => GoodThreadsUnlock(c, s, p);
      case _ =>
    } else {
      GoodThreadAt(c, s.threads, a.t);
      if OfRequest(a) {
        NextRequestGood(c, s, a, a.t);
        GoodThreadsUpdate(c, s.threads, a.t, s.threads[a.t].(pc := NextRequest(s, a, a.t).value));
      } else if OfTry(a) {
        NextTryGood(c, s, a, a.t);
        GoodThreadsUpdate(c, s.threads, a.t, s.threads[a.t].(pc := NextTry(c, s, a, a.t).value));
      } else if OfLock(a) {
        GoodThreadsLock(c, s, a, a.t);
      } else if OfPublish(a) {
        GoodThreadsPublish(c, s, a, a.t);
      } else {
        GoodThreadsPinger(c, s, a, a.t);
      }
    }
  }

  lemma GoodThreadsArrive(c: Conf, threads: map<Tid, Thread>, t: Tid, pool: PoolId, muxEp: string, now: nat)
    requires GoodThreads(c, threads)
    ensures GoodThreads(c, threads[t := Thread(pool, muxEp, Out(Stamp), false, now)])
  {
  }

  lemma PublishedSet(c: Conf, backend: map<PoolId, Entry>, p: PoolId, e: Entry)
    requires Published(c, backend) && e.be.pool == p && GoodRecord(c, e.be)
    ensures Published(c, backend[p := e])
  {
  }

  lemma PublishedShrinks(c: Conf, backend: map<PoolId, Entry>, p: PoolId)
    requires Published(c, backend)
    ensures Published(c, backend - {p})
  {
  }

  lemma PublishedExpire(c: Conf, s: State, p: PoolId, sec: nat)
    requires Published(c, s.backend)
    ensures Published(c, ExpireEntry(s, p, sec).backend)
  {
  }

  lemma LockFrame(c: Conf, s: State, a: Action, t: Tid)
    requires t in s.threads && ApplyLock(c, s, a, t).Some?
    ensures ApplyLock(c, s, a, t).value.backend == s.backend
    ensures ApplyLock(c, s, a, t).value.shown == s.shown
  {
  }

  /** Only the publishing steps, the pinger and expiry touch the records. */
  lemma BackendFrame(c: Conf, s: State, a: Action)
    requires Apply(c, s, a).Some? && (OfRequest(a) || OfLock(a) || OfTry(a) || (OfWorld(a) && !a.ExpireBackend?))
    ensures Apply(c, s, a).value.backend == s.backend
    ensures Apply(c, s, a).value.shown == s.shown
  {
    hide NextRequest, NextTry, ApplyLock;
    if OfLock(a) {
      LockFrame(c, s, a, a.t);
    }
  }

  lemma PublishedKeptByPublish(c: Conf, s: State, a: Action, t: Tid)
    requires t in s.threads && GoodThread(c, s.threads[t]) && Published(c, s.backend)
    requires ApplyPublish(c, s, a, t).Some?
    ensures Published(c, ApplyPublish(c, s, a, t).value.backend)
  {
    hide Published;
    var p := s.threads[t].pool;
    var r := ApplyPublish(c, s, a, t).value;
    match a
    case DoSuspendTtl(_) => PublishedExpire(c, At(s, t, r.threads[t].pc), p, Seconds(c.suspension));
    case DoPublish(_, _, _, _) => PublishedSet(c, s.backend, p, r.backend[p]);
    case DoSuspend(_) => PublishedSet(c, s.backend, p, r.backend[p]);
    case _ =>
  }

  lemma PublishedKeptByPinger(c: Conf, s: State, a: Action, t: Tid)
    requires t in s.threads && Published(c, s.backend) && ApplyPinger(c, s, a, t).Some?
    ensures Published(c, ApplyPinger(c, s, a, t).value.backend)
  {
    hide Published;
    var th := s.threads[t];
    match a
    case DoPingTtl(_) =>
      PublishedExpire(c, s.(threads := s.threads[t := th.(pc := Ping(Beat(0)), entered := s.now)]), th.pool, BackendTtl(c));
    case DoRenew(_) =>
      PublishedExpire(c, s.(threads := s.threads[t := th.(pc := Ping(Beat(th.pc.ping.misses)), entered := s.now)]), th.pool, BackendTtl(c));
    case DoDropBackend(_) => PublishedShrinks(c, s.backend, th.pool);
    case _ =>
  }

  lemma PublishedKept(c: Conf, s: State, a: Action)
    requires GoodThreads(c, s.threads) && Published(c, s.backend) && Apply(c, s, a).Some?
    ensures Published(c, Apply(c, s, a).value.backend)
  {
    hide GoodThreads, GoodThread, Published, ApplyPublish, ApplyPinger;
    if a.ExpireBackend? {
      PublishedShrinks(c, s.backend, a.pool);
    } else if OfRequest(a) || OfLock(a) || OfTry(a) || OfWorld(a) {
      BackendFrame(c, s, a);
    } else if OfPublish(a) {
      GoodThreadAt(c, s.threads, a.t);
      PublishedKeptByPublish(c, s, a, a.t);
    } else {
      PublishedKeptByPinger(c, s, a, a.t);
    }
  }

  lemma ShownKept(c: Conf, s: State, a: Action)
    requires ShownInRange(s.shown) && Apply(c, s, a).Some?
    ensures ShownInRange(Apply(c, s, a).value.shown)
  {
    hide NextRequest, NextTry, ApplyPinger;
    if OfRequest(a) || OfLock(a) || OfTry(a) || (OfWorld(a) && !a.ExpireBackend?) {
      BackendFrame(c, s, a);
    } else if OfPublish(a) || a.ExpireBackend? {
    } else {
      ShownPinger(c, s, a, a.t);
    }
  }

  lemma ShownPinger(c: Conf, s: State, a: Action, t: Tid)
    requires t in s.threads && ApplyPinger(c, s, a, t).Some?
    ensures ApplyPinger(c, s, a, t).value.shown == s.shown
  {
  }

  // ---- counting and timing the mutex ----

  /** Wins minus effective removals is one while the key is set, else zero. */
  ghost predicate Counted(s: State) {
    forall p: PoolId :: s.wins[p] == s.removals[p] + (if p in s.mutex then 1 else 0)
  }

  lemma CountedUnlock(s: State, p: PoolId)
    requires Counted(s)
    ensures Counted(Unlock(s, p))
  {
  }

  lemma CountedSame(s: State, r: State)
    requires Counted(s) && r.wins == s.wins && r.removals == s.removals && r.mutex.Keys == s.mutex.Keys
    ensures Counted(r)
  {
    forall p: PoolId ensures r.wins[p] == r.removals[p] + (if p in r.mutex then 1 else 0) {
      assert p in r.mutex.Keys <==> p in s.mutex.Keys;
    }
  }

  lemma CountedKept(c: Conf, s: State, a: Action)
    requires Counted(s) && Published(c, s.backend) && Apply(c, s, a).Some?
    ensures Counted(Apply(c, s, a).value)
  {
    hide Published, Moves, Counted, ApplyRequest, ApplyTry, ApplyPublish, ApplyLock, ApplyPinger;
    var r := Apply(c, s, a).value;
    if Plain(a) {
      PlainStep(c, s, a);
      CountedSame(s, r);
    } else {
      match a
      case ExpireMutex(p) => CountedUnlock(s, p);
      case DoDropMutex(t) => CountedDrop(c, s, a, t);
      case DoPublish(t, _, _, _) => CountedPublish(c, s, a, t);
      case DoGrab(t) => CountedLock(c, s, a, t);
      case DoSetTtl(t) => CountedLock(c, s, a, t);
      case DoRelease(t) => CountedLock(c, s, a, t);
      case _ => CountedSame(s, r);
    }
  }

  lemma CountedPublish(c: Conf, s: State, a: Action, t: Tid)
    requires Counted(s) && t in s.threads && a.DoPublish? && ApplyPublish(c, s, a, t).Some?
    ensures Counted(ApplyPublish(c, s, a, t).value)
  {
    hide Counted;
    CountedSame(s, ApplyPublish(c, s, a, t).value);
  }

  lemma CountedDrop(c: Conf, s: State, a: Action, t: Tid)
    requires Counted(s) && t in s.threads && a.DoDropMutex? && ApplyPinger(c, s, a, t).Some?
    ensures Counted(ApplyPinger(c, s, a, t).value)
  {
    hide Counted;
    CountedUnlock(s, s.threads[t].pool);
    CountedSame(Unlock(s, s.threads[t].pool), ApplyPinger(c, s, a, t).value);
  }

  lemma CountedGrab(s: State, r: State, p: PoolId)
    requires Counted(s) && p !in s.mutex
    requires r.wins == s.wins + multiset{p} && r.removals == s.removals && r.mutex.Keys == s.mutex.Keys + {p}
    ensures Counted(r)
  {
    forall q: PoolId ensures r.wins[q] == r.removals[q] + (if q in r.mutex then 1 else 0) {
      assert q in r.mutex.Keys <==> q in s.mutex.Keys || q == p;
    }
  }

  lemma CountedLock(c: Conf, s: State, a: Action, t: Tid)
    requires Counted(s) && t in s.threads && ApplyLock(c, s, a, t).Some?
    ensures Counted(ApplyLock(c, s, a, t).value)
  {
    hide Counted;
    var th := s.threads[t];
    var r := ApplyLock(c, s, a, t).value;
    match a
    case DoGrab(_) =>
      if th.pool in s.mutex { CountedSame(s, r); } else { CountedGrab(s, r, th.pool); }
    case DoSetTtl(_) =>
      var s1 := s.(threads := s.threads[t := th.(pc := In(GetPool), entered := s.now)]);
      CountedSame(s, s1);
      CountedUnlock(s1, th.pool);
      if r.mutex.Keys == s.mutex.Keys { CountedSame(s, r); }
    case DoRelease(_) =>
      CountedUnlock(s, th.pool);
      CountedSame(Unlock(s, th.pool), r);
  }

  /** A key that will expire was given its full life after its holder's EXPIRE. */
  ghost predicate Timed(c: Conf, mutex: map<PoolId, Lock>, threads: map<Tid, Thread>) {
    forall p | p in mutex && mutex[p].owner in threads && mutex[p].expireAt.Some? ::
      mutex[p].expireAt.value >= threads[mutex[p].owner].entered + 1000 * MutexTtl(c)
  }

  /** No thread is from the future. */
  ghost predicate Clocked(now: nat, threads: map<Tid, Thread>) {
    forall t | t in threads :: threads[t].entered <= now
  }

  lemma TimedMove(c: Conf, mutex: map<PoolId, Lock>, threads: map<Tid, Thread>, after: map<Tid, Thread>, t: Tid)
    requires Locks(mutex, threads) && Timed(c, mutex, threads) && Moves(threads, after, t)
    ensures Timed(c, mutex, after)
  {
  }

  lemma TimedUnlock(c: Conf, s: State, p: PoolId)
    requires Timed(c, s.mutex, s.threads)
    ensures Timed(c, Unlock(s, p).mutex, Unlock(s, p).threads)
  {
  }

  lemma TimedSpawn(c: Conf, mutex: map<PoolId, Lock>, threads: map<Tid, Thread>, t: Tid, th: Thread)
    requires Locks(mutex, threads) && Timed(c, mutex, threads) && t !in threads
    ensures Timed(c, mutex, threads[t := th])
  {
  }

  lemma TimedLock(c: Conf, s: State, a: Action, t: Tid)
    requires Locks(s.mutex, s.threads) && Timed(c, s.mutex, s.threads) && Clocked(s.now, s.threads)
    requires t in s.threads && ApplyLock(c, s, a, t).Some?
    ensures var r := ApplyLock(c, s, a, t).value; Timed(c, r.mutex, r.threads)
  {
    hide Locks, Timed, Clocked;
    var th := s.threads[t];
    var r := ApplyLock(c, s, a, t).value;
    match a
    case DoGrab(_) => TimedGrab(c, s, t, r.mutex, r.threads);
    case DoSetTtl(_) => TimedSetTtl(c, s, t);
    case DoRelease(_) =>
      TimedUnlock(c, s, th.pool);
      TimedSame(c, Unlock(s, th.pool).mutex, Unlock(s, th.pool).threads, r.threads);
  }

  lemma TimedGrab(c: Conf, s: State, t: Tid, mutex: map<PoolId, Lock>, threads: map<Tid, Thread>)
    requires Locks(s.mutex, s.threads) && Timed(c, s.mutex, s.threads) && t in s.threads && !s.threads[t].pc.In?
    requires t in threads && threads == s.threads[t := threads[t]]
    requires mutex == s.mutex || mutex == s.mutex[s.threads[t].pool := Lock(t, None)]
    ensures Timed(c, mutex, threads)
  {
  }

  lemma TimedSame(c: Conf, mutex: map<PoolId, Lock>, threads: map<Tid, Thread>, after: map<Tid, Thread>)
    requires Timed(c, mutex, threads)
    requires forall t | t in after :: t in threads && after[t].entered == threads[t].entered
    ensures Timed(c, mutex, after)
  {
  }

  lemma TimedSetTtl(c: Conf, s: State, t: Tid)
    requires Locks(s.mutex, s.threads) && Timed(c, s.mutex, s.threads) && Clocked(s.now, s.threads)
    requires t in s.threads && s.threads[t].pc.In?
    ensures var s1 := s.(threads := s.threads[t := s.threads[t].(pc := In(GetPool), entered := s.now)]);
            var r := ExpireLock(s1, s.threads[t].pool, MutexTtl(c));
            Timed(c, r.mutex, r.threads)
  {
    var p := s.threads[t].pool;
    var s1 := s.(threads := s.threads[t := s.threads[t].(pc := In(GetPool), entered := s.now)]);
    var r := ExpireLock(s1, p, MutexTtl(c));
    forall q | q in r.mutex && r.mutex[q].owner in r.threads && r.mutex[q].expireAt.Some?
      ensures r.mutex[q].expireAt.value >= r.threads[r.mutex[q].owner].entered + 1000 * MutexTtl(c)
    {
      if q != p {
        assert s.mutex[q].owner != t;
      }
    }
  }

  lemma TimedKept(c: Conf, s: State, a: Action)
    requires Locks(s.mutex, s.threads) && Timed(c, s.mutex, s.threads) && Clocked(s.now, s.threads)
    requires Published(c, s.backend) && Apply(c, s, a).Some?
    ensures var r := Apply(c, s, a).value; Timed(c, r.mutex, r.threads)
  {
    hide Locks, Timed, Clocked, Published, Moves, NextTry, ApplyLock, ApplyPublish, ApplyPinger;
    var r := Apply(c, s, a).value;
    if Plain(a) {
      PlainStep(c, s, a);
      TimedMove(c, s.mutex, s.threads, r.threads, a.t);
    } else {
      match a
      case ExpireMutex(p) => TimedUnlock(c, s, p);
      case Arrive(t, pool, muxEp) => TimedSpawn(c, s.mutex, s.threads, t, r.threads[t]);
      case DoDropMutex(t) => TimedDrop(c, s, a, t);
      case DoPublish(t, _, _, _) => TimedPublish(c, s, a, t);
      case DoGrab(t) => TimedLock(c, s, a, t);
      case DoSetTtl(t) => TimedLock(c, s, a, t);
      case DoRelease(t) => TimedLock(c, s, a, t);
      case _ =>
    }
  }

  lemma TimedDrop(c: Conf, s: State, a: Action, t: Tid)
    requires Timed(c, s.mutex, s.threads) && t in s.threads && a.DoDropMutex? && ApplyPinger(c, s, a, t).Some?
    ensures var r := ApplyPinger(c, s, a, t).value; Timed(c, r.mutex, r.threads)
  {
    TimedUnlock(c, s, s.threads[t].pool);
  }

  lemma TimedPublish(c: Conf, s: State, a: Action, t: Tid)
    requires Locks(s.mutex, s.threads) && Timed(c, s.mutex, s.threads)
    requires t in s.threads && a.DoPublish? && ApplyPublish(c, s, a, t).Some?
    ensures var r := ApplyPublish(c, s, a, t).value; Timed(c, r.mutex, r.threads)
  {
    hide Locks, Timed, Moves;
    var r := ApplyPublish(c, s, a, t).value;
    var mid := s.threads[t := r.threads[t]];
    MovesTo(s.threads, t, r.threads[t].pc);
    TimedMove(c, s.mutex, s.threads, mid, t);
    LocksMove(s.mutex, s.threads, mid, t);
    TimedSpawn(c, s.mutex, mid, a.pinger, r.threads[a.pinger]);
  }

  lemma ClockedUpdate(now: nat, threads: map<Tid, Thread>, t: Tid, th: Thread)
    requires Clocked(now, threads) && th.entered <= now
    ensures Clocked(now, threads[t := th])
  {
  }

  lemma ClockedAt(now: nat, threads: map<Tid, Thread>, t: Tid)
    requires Clocked(now, threads) && t in threads
    ensures threads[t].entered <= now
  {
  }

  lemma ClockedUnlock(s: State, p: PoolId)
    requires Clocked(s.now, s.threads)
    ensures Clocked(s.now, Unlock(s, p).threads)
  {
  }

  lemma ClockedKept(c: Conf, s: State, a: Action)
    requires Clocked(s.now, s.threads) && Apply(c, s, a).Some?
    ensures var r := Apply(c, s, a).value; Clocked(r.now, r.threads)
  {
    hide Clocked, NextTry, NextRequest, ApplyPublish, ApplyPinger, ApplyLock, ApplyWorld;
    if OfWorld(a) {
      ClockedWorld(s, a);
    } else if OfLock(a) {
      ClockedLock(c, s, a, a.t);
    } else if OfPublish(a) {
      ClockedPublish(c, s, a, a.t);
    } else if OfRequest(a) || OfTry(a) {
      ClockedAt(s.now, s.threads, a.t);
      ClockedUpdate(s.now, s.threads, a.t, Apply(c, s, a).value.threads[a.t]);
    } else {
      ClockedPinger(c, s, a, a.t);
    }
  }

  lemma ClockedWorld(s: State, a: Action)
    requires Clocked(s.now, s.threads) && OfWorld(a) && ApplyWorld(s, a).Some?
    ensures var r := ApplyWorld(s, a).value; Clocked(r.now, r.threads)
  {
  }

  lemma ClockedLock(c: Conf, s: State, a: Action, t: Tid)
    requires Clocked(s.now, s.threads) && t in s.threads && ApplyLock(c, s, a, t).Some?
    ensures var r := ApplyLock(c, s, a, t).value; Clocked(r.now, r.threads)
  {
    hide Clocked;
    var th := s.threads[t];
    var r := ApplyLock(c, s, a, t).value;
    ClockedAt(s.now, s.threads, t);
    match a
    case DoGrab(_) => ClockedUpdate(s.now, s.threads, t, r.threads[t]);
    case DoSetTtl(_) =>
      var s1 := s.(threads := s.threads[t := th.(pc := In(GetPool), entered := s.now)]);
      ClockedUpdate(s.now, s.threads, t, s1.threads[t]);
      ClockedUnlock(s1, th.pool);
    case DoRelease(_) =>
      ClockedUnlock(s, th.pool);
      ClockedUpdate(s.now, Unlock(s, th.pool).threads, t, r.threads[t]);
  }

  lemma ClockedPublish(c: Conf, s: State, a: Action, t: Tid)
    requires Clocked(s.now, s.threads) && t in s.threads && ApplyPublish(c, s, a, t).Some?
    ensures var r := ApplyPublish(c, s, a, t).value; Clocked(r.now, r.threads)
  {
    hide Clocked;
    var r := ApplyPublish(c, s, a, t).value;
    ClockedAt(s.now, s.threads, t);
    ClockedUpdate(s.now, s.threads, t, r.threads[t]);
    if a.DoPublish? {
      ClockedUpdate(s.now, s.threads[t := r.threads[t]], a.pinger, r.threads[a.pinger]);
    }
  }

  lemma ClockedPinger(c: Conf, s: State, a: Action, t: Tid)
    requires Clocked(s.now, s.threads) && t in s.threads && ApplyPinger(c, s, a, t).Some?
    ensures var r := ApplyPinger(c, s, a, t).value; Clocked(r.now, r.threads)
  {
    hide Clocked;
    var r := ApplyPinger(c, s, a, t).value;
    ClockedAt(s.now, s.threads, t);
    if a.DoDropMutex? {
      ClockedUnlock(s, s.threads[t].pool);
      ClockedUpdate(s.now, Unlock(s, s.threads[t].pool).threads, t, r.threads[t]);
    } else {
      ClockedUpdate(s.now, s.threads, t, r.threads[t]);
    }
  }

  // ---- every reachable state ----

  ghost predicate Inv(c: Conf, s: State) {
    && Locks(s.mutex, s.threads)
    && Published(c, s.backend)
    && GoodThreads(c, s.threads)
    && ShownInRange(s.shown)
    && Counted(s)
    && Timed(c, s.mutex, s.threads)
    && Clocked(s.now, s.threads)
  }

  lemma InvKept(c: Conf, s: State, a: Action)
    requires Inv(c, s) && Apply(c, s, a).Some?
    ensures Inv(c, Apply(c, s, a).value)
  {
    hide Locks, Published, GoodThreads, ShownInRange, Counted, Timed, Clocked, Apply;
    LocksKept(c, s, a);
    PublishedKept(c, s, a);
    GoodThreadsKept(c, s, a);
    ShownKept(c, s, a);
    CountedKept(c, s, a);
    TimedKept(c, s, a);
    ClockedKept(c, s, a);
  }

  lemma {:induction false} RunKeepsInv(c: Conf, s: State, acts: seq<Action>)
    requires Inv(c, s) && Exec(c, s, acts).Some?
    ensures Inv(c, Exec(c, s, acts).value)
    decreases |acts|
  {
    hide Inv, Apply;
    if acts != [] {
      InvKept(c, s, acts[0]);
      RunKeepsInv(c, Apply(c, s, acts[0]).value, acts[1..]);
    }
  }

  /** In every state of every run: wins minus removals is zero or one; of two
      threads in the mutexed part for one pool at least one has lost the key; a
      key that is set has a thread inside that will release it; and a key whose
      life has run out belongs to a thread that has been inside for all of it. */
  lemma MutexSafety(c: Conf, acts: seq<Action>)
    requires Exec(c, Start, acts).Some?
    ensures var s := Exec(c, Start, acts).value;
            && (forall p: PoolId :: s.removals[p] <= s.wins[p] <= s.removals[p] + 1)
            && (forall p: PoolId :: s.wins[p] > s.removals[p] <==> p in s.mutex)
            && (forall t, u | t in s.threads && u in s.threads && t != u
                              && s.threads[t].pc.In? && s.threads[u].pc.In? && s.threads[t].pool == s.threads[u].pool ::
                  s.threads[t].robbed || s.threads[u].robbed)
            && (forall p | p in s.mutex ::
                  exists t :: t in s.threads && s.threads[t].pool == p && s.threads[t].pc.In?)
            && (forall p | Apply(c, s, ExpireMutex(p)).Some? ::
                  && p in s.mutex && s.mutex[p].owner in s.threads
                  && s.now >= s.threads[s.mutex[p].owner].entered + 1000 * MutexTtl(c))
  {
    assert Inv(c, Start);
    RunKeepsInv(c, Start, acts);
  }

  /** No panic branch is reachable: every published record is READY with an
      endpoint and credentials or a SUSPENDED dummy, every answered request got a
      READY backend of its own pool, and the shown states are in range. */
  lemma NoPanicReachable(c: Conf, acts: seq<Action>)
    requires Exec(c, Start, acts).Some?
    ensures var s := Exec(c, Start, acts).value;
            && (forall p | p in s.backend :: s.backend[p].be.pool == p && GoodRecord(c, s.backend[p].be))
            && (forall p | p in s.shown :: s.shown[p].Ready? || s.shown[p].Suspended?)
            && (forall t | t in s.threads :: !(s.threads[t].pc == Out(Crashed)))
            && (forall t | t in s.threads && s.threads[t].pc.Out? && s.threads[t].pc.out.Served? ::
                  && s.threads[t].pc.out.be.pool == s.threads[t].pool
                  && s.threads[t].pc.out.be.state.Ready?
                  && s.threads[t].pc.out.be.ep.HostPort?)
  {
    hide Locks, Counted, Timed, Clocked, Free;
    assert Inv(c, Start) by { StartInv(c); }
    RunKeepsInv(c, Start, acts);
    var s := Exec(c, Start, acts).value;
    assert forall t | t in s.threads :: GoodThread(c, s.threads[t]);
  }

  /** In every run, the blocks of the ports a thread is given do not touch the
      blocks of the backends it found running under its Mux. */
  lemma ListedBlocksAreClear(c: Conf, acts: seq<Action>, t: Tid, ports: seq<int>, p: int, u: int)
    requires Exec(c, Start, acts).Some? && Apply(c, Exec(c, Start, acts).value, DoList(t, ports)).Some?
    requires var s := Exec(c, Start, acts).value;
             p in ports && u in s.threads[t].pc.step.used
    ensures !Overlap(p, u, c.width)
  {
    StartInv(c);
    RunKeepsInv(c, Start, acts);
    var s := Exec(c, Start, acts).value;
    var used := s.threads[t].pc.step.used;
    assert GoodThread(c, s.threads[t]);
    hide Inv, Exec, GoodThreads;
    assert Free(c.portMin, c.portMax, c.width, [], u);
    ShuffledAre(ports, c.portMin, c.portMax, c.width, used);
    FreePortsAre(c.portMin, c.portMax, c.width, used);
    OverlapsUsed(c.portMin, c.portMax, c.width, used, u);
  }

  lemma StartInv(c: Conf)
    ensures Inv(c, Start)
  {
  }
}
