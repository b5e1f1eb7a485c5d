/**
 How long the record of a running backend lasts.  Its pinger renews it with a life
 of three heartbeat intervals (v2/lens3/manager.go, ping_backend), and one kind of
 step can cut that life short.
 */
module RecordLife {
  import opened Records
  import opened Protocol
  import opened ProtocolSafety
  import opened Robbery

  /** A pinger that has not yet withdrawn its record. */
  predicate Pinger(th: Thread) {
    th.pc.Ping? && !th.pc.ping.Stopped?
  }

  predicate Suspending(th: Thread) {
    th.pc.In? && th.pc.step.SuspendTtl?
  }

  /** A record belongs to a thread that works on its pool. */
  ghost predicate Owned(backend: map<PoolId, Entry>, threads: map<Tid, Thread>) {
    forall p | p in backend :: backend[p].owner in threads && threads[backend[p].owner].pool == p
  }

  /** The record of a pinged backend was given its full life at the last renewal. */
  ghost predicate Lasting(c: Conf, backend: map<PoolId, Entry>, threads: map<Tid, Thread>) {
    forall p | p in backend && backend[p].owner in threads && Pinger(threads[backend[p].owner])
               && backend[p].expireAt.Some? ::
      backend[p].expireAt.value >= threads[backend[p].owner].entered + 1000 * BackendTtl(c)
  }

  ghost predicate Living(c: Conf, backend: map<PoolId, Entry>, threads: map<Tid, Thread>) {
    Owned(backend, threads) && Lasting(c, backend, threads)
  }

  // ---- the step that shortens a life ----

  /** A thread limits the life of what it takes for its own dummy record, but a pinged
      backend has its record there, and the suspension ends before that life would. */
  predicate Shortens(c: Conf, s: State, a: Action) {
    && a.DoSuspendTtl? && a.t in s.threads && Suspending(s.threads[a.t])
    && var p := s.threads[a.t].pool;
    && p in s.backend && s.backend[p].owner in s.threads && Pinger(s.threads[s.backend[p].owner])
    && Seconds(c.suspension) > 0
    && s.now + 1000 * Seconds(c.suspension) < s.threads[s.backend[p].owner].entered + 1000 * BackendTtl(c)
  }

  // ---- small changes ----

  /** One thread moves, without becoming a pinger or being renewed. */
  ghost predicate Quiet(threads: map<Tid, Thread>, after: map<Tid, Thread>, t: Tid) {
    && t in threads && t in after
    && after == threads[t := after[t]]
    && after[t].pool == threads[t].pool
    && (Pinger(after[t]) ==> Pinger(threads[t]) && after[t].entered == threads[t].entered)
  }

  lemma QuietKeeps(c: Conf, backend: map<PoolId, Entry>, threads: map<Tid, Thread>, after: map<Tid, Thread>, t: Tid)
    requires Living(c, backend, threads) && Quiet(threads, after, t)
    ensures Living(c, backend, after)
  {
  }

  lemma UnlockKeeps(c: Conf, s: State, p: PoolId)
    requires Living(c, s.backend, s.threads)
    ensures Living(c, s.backend, Unlock(s, p).threads)
  {
  }

  lemma ArrivalKeeps(c: Conf, backend: map<PoolId, Entry>, threads: map<Tid, Thread>, t: Tid, th: Thread)
    requires Living(c, backend, threads) && t !in threads
    ensures Living(c, backend, threads[t := th])
  {
  }

  lemma RemovalKeeps(c: Conf, backend: map<PoolId, Entry>, threads: map<Tid, Thread>, p: PoolId)
    requires Living(c, backend, threads)
    ensures Living(c, backend - {p}, threads)
  {
  }

  /** A record without an expiry, put by a thread of its pool. */
  lemma PutKeeps(c: Conf, backend: map<PoolId, Entry>, threads: map<Tid, Thread>, p: PoolId, e: Entry)
    requires Living(c, backend, threads)
    requires e.expireAt.None? && e.owner in threads && threads[e.owner].pool == p
    ensures Living(c, backend[p := e], threads)
  {
  }

  /** An expiry keeps the records living exactly when it leaves a pinger its life. */
  lemma ExpiryKeeps(c: Conf, backend: map<PoolId, Entry>, threads: map<Tid, Thread>, p: PoolId, at: nat)
    requires Living(c, backend, threads) && p in backend
    ensures Living(c, backend[p := backend[p].(expireAt := Some(at))], threads) <==>
            (Pinger(threads[backend[p].owner]) ==> at >= threads[backend[p].owner].entered + 1000 * BackendTtl(c))
  {
    var after := backend[p := backend[p].(expireAt := Some(at))];
    assert after[p].owner == backend[p].owner;
  }

  /** A pinger is renewed whose pool has no record, or one with a new life. */
  lemma RenewKeeps(c: Conf, backend: map<PoolId, Entry>, threads: map<Tid, Thread>, t: Tid, th: Thread, now: nat)
    requires Living(c, backend, threads) && Clocked(now, threads)
    requires t in threads && th.pool == threads[t].pool && th.pc.Ping? && th.entered == now
    ensures Living(c, backend - {th.pool}, threads[t := th])
    ensures th.pool in backend ==>
              Living(c, backend[th.pool := backend[th.pool].(expireAt := Some(now + 1000 * BackendTtl(c)))], threads[t := th])
  {
  }

  // ---- every step, robbed or not ----

  lemma RequestIsQuiet(s: State, a: Action, t: Tid)
    requires t in s.threads && ApplyRequest(s, a, t).Some?
    ensures Quiet(s.threads, ApplyRequest(s, a, t).value.threads, t)
  {
  }

  lemma TryIsQuiet(c: Conf, s: State, a: Action, t: Tid)
    requires t in s.threads && ApplyTry(c, s, a, t).Some?
    ensures Quiet(s.threads, ApplyTry(c, s, a, t).value.threads, t)
  {
  }

  lemma PublishIsQuiet(c: Conf, s: State, a: Action, t: Tid)
    requires t in s.threads && OfPublish(a) && !a.DoPublish? && ApplyPublish(c, s, a, t).Some?
    ensures Quiet(s.threads, ApplyPublish(c, s, a, t).value.threads, t)
  {
  }

  lemma LockKeepsLiving(c: Conf, s: State, a: Action, t: Tid)
    requires Living(c, s.backend, s.threads) && t in s.threads && ApplyLock(c, s, a, t).Some?
    ensures var r := ApplyLock(c, s, a, t).value; Living(c, s.backend, r.threads)
  {
    hide Living;
    var th := s.threads[t];
    var r := ApplyLock(c, s, a, t).value;
    match a
    case DoGrab(_) => QuietKeeps(c, s.backend, s.threads, r.threads, t);
    case DoSetTtl(_) =>
      var s1 := s.(threads := s.threads[t := th.(pc := In(GetPool), entered := s.now)]);
      QuietKeeps(c, s.backend, s.threads, s1.threads, t);
      UnlockKeeps(c, s1, th.pool);
    case DoRelease(_) =>
      var s1 := Unlock(s, th.pool);
      UnlockKeeps(c, s, th.pool);
      QuietKeeps(c, s.backend, s1.threads, r.threads, t);
  }

  lemma PublishKeepsLiving(c: Conf, s: State, a: Action, t: Tid)
    requires Living(c, s.backend, s.threads) && t in s.threads && a.DoPublish? && ApplyPublish(c, s, a, t).Some?
    ensures var r := ApplyPublish(c, s, a, t).value; Living(c, r.backend, r.threads)
  {
    hide Living;
    var r := ApplyPublish(c, s, a, t).value;
    var p := s.threads[t].pool;
    var mid := s.threads[t := r.threads[t]];
    QuietKeeps(c, s.backend, s.threads, mid, t);
    ArrivalKeeps(c, s.backend, mid, a.pinger, r.threads[a.pinger]);
    PutKeeps(c, s.backend, r.threads, p, r.backend[p]);
  }

  lemma SuspendKeepsLiving(c: Conf, s: State, a: Action, t: Tid)
    requires Living(c, s.backend, s.threads) && t in s.threads && a.DoSuspend? && ApplyPublish(c, s, a, t).Some?
    ensures var r := ApplyPublish(c, s, a, t).value; Living(c, r.backend, r.threads)
  {
    hide Living;
    var r := ApplyPublish(c, s, a, t).value;
    var p := s.threads[t].pool;
    QuietKeeps(c, s.backend, s.threads, r.threads, t);
    PutKeeps(c, s.backend, r.threads, p, r.backend[p]);
  }

  /** The only step that can shorten, and exactly when. */
  lemma SuspendTtlOnLiving(c: Conf, s: State, a: Action, t: Tid)
    requires Living(c, s.backend, s.threads)
    requires t in s.threads && a.DoSuspendTtl? && a.t == t && ApplyPublish(c, s, a, t).Some?
    ensures var r := ApplyPublish(c, s, a, t).value;
            Living(c, r.backend, r.threads) <==> !Shortens(c, s, a)
  {
    var r := ApplyPublish(c, s, a, t).value;
    var p, sec := s.threads[t].pool, Seconds(c.suspension);
    PublishIsQuiet(c, s, a, t);
    QuietKeeps(c, s.backend, s.threads, r.threads, t);
    if p in s.backend {
      assert s.backend[p].owner in s.threads;
      RemovalKeeps(c, s.backend, r.threads, p);
      ExpiryKeeps(c, s.backend, r.threads, p, s.now + 1000 * sec);
      SameOwner(s.threads, r.threads, t, s.backend[p].owner);
    }
    hide Living, Quiet;
  }

  lemma SameOwner(threads: map<Tid, Thread>, after: map<Tid, Thread>, t: Tid, u: Tid)
    requires Quiet(threads, after, t) && u in threads && !Pinger(threads[t]) && !Pinger(after[t])
    ensures u in after && (Pinger(after[u]) <==> Pinger(threads[u]))
    ensures Pinger(threads[u]) ==> after[u].entered == threads[u].entered
  {
  }

  lemma PingerKeepsLiving(c: Conf, s: State, a: Action, t: Tid)
    requires Living(c, s.backend, s.threads) && Clocked(s.now, s.threads)
    requires t in s.threads && ApplyPinger(c, s, a, t).Some?
    ensures var r := ApplyPinger(c, s, a, t).value; Living(c, r.backend, r.threads)
  {
    hide Living, Clocked;
    var th := s.threads[t];
    var r := ApplyPinger(c, s, a, t).value;
    if a.DoPingTtl? {
      RenewalKeepsLiving(c, s, t, th.(pc := Ping(Beat(0)), entered := s.now));
    } else if a.DoRenew? && th.pool in s.backend {
      RenewalKeepsLiving(c, s, t, th.(pc := Ping(Beat(th.pc.ping.misses)), entered := s.now));
    } else if a.DoDropMutex? {
      UnlockKeeps(c, s, th.pool);
      QuietKeeps(c, s.backend, Unlock(s, th.pool).threads, r.threads, t);
    } else {
      if a.DoDropBackend? {
        RemovalKeeps(c, s.backend, s.threads, th.pool);
      }
      QuietKeeps(c, r.backend, s.threads, r.threads, t);
    }
  }

  /** A pinger gives the record of its pool a new life, whose ever it is. */
  lemma RenewalKeepsLiving(c: Conf, s: State, t: Tid, th: Thread)
    requires Living(c, s.backend, s.threads) && Clocked(s.now, s.threads)
    requires t in s.threads && th.pool == s.threads[t].pool && th.pc.Ping? && th.entered == s.now
    ensures var r := ExpireEntry(s.(threads := s.threads[t := th]), th.pool, BackendTtl(c));
            Living(c, r.backend, r.threads)
  {
    hide Living, Clocked;
    RenewKeeps(c, s.backend, s.threads, t, th, s.now);
    if th.pool !in s.backend {
      assert s.backend - {th.pool} == s.backend;
    }
  }

  lemma WorldKeepsLiving(c: Conf, s: State, a: Action)
    requires Living(c, s.backend, s.threads) && OfWorld(a) && ApplyWorld(s, a).Some?
    ensures var r := ApplyWorld(s, a).value; Living(c, r.backend, r.threads)
  {
    hide Living;
    match a
    case Arrive(t, pool, muxEp) =>
      ArrivalKeeps(c, s.backend, s.threads, t, Thread(pool, muxEp, Out(Stamp), false, s.now));
    case ExpireMutex(p) => UnlockKeeps(c, s, p);
    case ExpireBackend(p) => RemovalKeeps(c, s.backend, s.threads, p);
    case _ =>
  }

  /** From any state of any run, a step keeps the records owned and lasting if and
      only if it is not one that shortens a life. */
  lemma StepKeepsLiving(c: Conf, s: State, a: Action)
    requires Inv(c, s) && Living(c, s.backend, s.threads) && Apply(c, s, a).Some?
    ensures var r := Apply(c, s, a).value; Living(c, r.backend, r.threads) <==> !Shortens(c, s, a)
  {
    hide Locks, Published, GoodThreads, Counted, Timed, Clocked, Living, Quiet;
    hide ApplyWorld, ApplyRequest, ApplyTry, ApplyLock, ApplyPublish, ApplyPinger;
    var r := Apply(c, s, a).value;
    if OfWorld(a) {
      WorldKeepsLiving(c, s, a);
    } else if OfRequest(a) {
      RequestIsQuiet(s, a, a.t);
      BackendFrame(c, s, a);
      QuietKeeps(c, s.backend, s.threads, r.threads, a.t);
    } else if OfLock(a) {
      LockKeepsLiving(c, s, a, a.t);
      BackendFrame(c, s, a);
    } else if OfTry(a) {
      TryIsQuiet(c, s, a, a.t);
      BackendFrame(c, s, a);
      QuietKeeps(c, s.backend, s.threads, r.threads, a.t);
    } else if OfPublish(a) {
      PublishingOnLiving(c, s, a, a.t);
    } else {
      PingerKeepsLiving(c, s, a, a.t);
    }
  }

  lemma PublishingOnLiving(c: Conf, s: State, a: Action, t: Tid)
    requires Living(c, s.backend, s.threads) && t in s.threads && OfPublish(a) && a.t == t && ApplyPublish(c, s, a, t).Some?
    ensures var r := ApplyPublish(c, s, a, t).value; Living(c, r.backend, r.threads) <==> !Shortens(c, s, a)
  {
    hide Living, Quiet;
    if a.DoPublish? {
      PublishKeepsLiving(c, s, a, t);
    } else if a.DoSuspend? {
      SuspendKeepsLiving(c, s, a, t);
    } else if a.DoSuspendTtl? {
      SuspendTtlOnLiving(c, s, a, t);
    } else {
      PublishIsQuiet(c, s, a, t);
      QuietKeeps(c, s.backend, s.threads, ApplyPublish(c, s, a, t).value.threads, t);
    }
  }

  // ---- runs ----

  predicate NeverShortens(c: Conf, s: State, acts: seq<Action>)
    decreases |acts|
  {
    acts == [] ||
    (!Shortens(c, s, acts[0]) && Apply(c, s, acts[0]).Some? && NeverShortens(c, Apply(c, s, acts[0]).value, acts[1..]))
  }

  lemma {:induction false} RunKeepsLiving(c: Conf, s: State, acts: seq<Action>)
    requires Inv(c, s) && Living(c, s.backend, s.threads) && NeverShortens(c, s, acts) && Exec(c, s, acts).Some?
    ensures var r := Exec(c, s, acts).value; Inv(c, r) && Living(c, r.backend, r.threads)
    decreases |acts|
  {
    hide Inv, Living, Shortens, Apply;
    if acts != [] {
      InvKept(c, s, acts[0]);
      StepKeepsLiving(c, s, acts[0]);
      RunKeepsLiving(c, Apply(c, s, acts[0]).value, acts[1..]);
    }
  }

  /** In every run without such a step, robberies or not: the record of a backend that
      is still pinged expires only when its pinger has not renewed it for its whole
      life, three heartbeat intervals. */
  lemma PingedRecordLasts(c: Conf, acts: seq<Action>, p: PoolId)
    requires NeverShortens(c, Start, acts) && Exec(c, Start, acts).Some?
    requires var s := Exec(c, Start, acts).value;
             && Apply(c, s, ExpireBackend(p)).Some?
             && s.backend[p].owner in s.threads && Pinger(s.threads[s.backend[p].owner])
    ensures var s := Exec(c, Start, acts).value;
            && s.threads[s.backend[p].owner].pool == p
            && s.now >= s.threads[s.backend[p].owner].entered + 1000 * BackendTtl(c)
  {
    StartInv(c);
    RunKeepsLiving(c, Start, acts);
  }

  // ---- without robbery nothing shortens ----

  /** A thread that is about to limit the life of a dummy record has its own there. */
  ghost predicate DummyInPlace(backend: map<PoolId, Entry>, threads: map<Tid, Thread>) {
    forall t | t in threads && Suspending(threads[t]) && threads[t].pool in backend ::
      backend[threads[t].pool].owner == t
  }

  ghost predicate RecordsWell(c: Conf, backend: map<PoolId, Entry>, threads: map<Tid, Thread>) {
    Living(c, backend, threads) && DummyInPlace(backend, threads)
  }

  lemma OwnDummyIsNotPinged(c: Conf, s: State, a: Action)
    requires DummyInPlace(s.backend, s.threads)
    ensures !Shortens(c, s, a)
  {
  }

  /** A thread moves on and does not suspend. */
  lemma MoveKeepsDummies(backend: map<PoolId, Entry>, threads: map<Tid, Thread>, t: Tid, th: Thread)
    requires DummyInPlace(backend, threads) && !Suspending(th)
    ensures DummyInPlace(backend, threads[t := th])
  {
  }

  lemma UnlockKeepsDummies(s: State, p: PoolId)
    requires DummyInPlace(s.backend, s.threads)
    ensures DummyInPlace(s.backend, Unlock(s, p).threads)
  {
  }

  /** No record changes hands. */
  lemma OwnersKeepDummies(backend: map<PoolId, Entry>, after: map<PoolId, Entry>, threads: map<Tid, Thread>)
    requires DummyInPlace(backend, threads)
    requires forall p | p in after :: p in backend && after[p].owner == backend[p].owner
    ensures DummyInPlace(after, threads)
  {
  }

  /** While nobody is robbed, the thread inside for a pool is alone. */
  lemma AloneInside(mutex: map<PoolId, Lock>, threads: map<Tid, Thread>, t: Tid, u: Tid)
    requires Locks(mutex, threads) && NobodyRobbed(threads) && t in threads && u in threads
    requires threads[t].pc.In? && threads[u].pc.In? && threads[t].pool == threads[u].pool
    ensures t == u
  {
  }

  lemma LockIsQuiet(c: Conf, s: State, a: Action, t: Tid)
    requires Locks(s.mutex, s.threads) && NobodyRobbed(s.threads)
    requires t in s.threads && ApplyLock(c, s, a, t).Some? && !(a.DoSetTtl? && MutexTtl(c) == 0)
    ensures Quiet(s.threads, ApplyLock(c, s, a, t).value.threads, t)
  {
    var r := ApplyLock(c, s, a, t).value;
    if a.DoRelease? {
      assert s.mutex[s.threads[t].pool].owner == t;
      assert r.threads == s.threads[t := r.threads[t]];
    }
  }

  /** A thread inside puts a record for its pool: no other one suspends there. */
  lemma PutKeepsDummies(c: Conf, s: State, a: Action, t: Tid)
    requires Locks(s.mutex, s.threads) && NobodyRobbed(s.threads) && DummyInPlace(s.backend, s.threads)
    requires t in s.threads && (a.DoPublish? || a.DoSuspend?) && ApplyPublish(c, s, a, t).Some?
    ensures var r := ApplyPublish(c, s, a, t).value; DummyInPlace(r.backend, r.threads)
  {
    var r := ApplyPublish(c, s, a, t).value;
    var p := s.threads[t].pool;
    forall u | u in r.threads && u != t && r.threads[u].pool == p ensures !Suspending(r.threads[u]) {
      if u in s.threads && s.threads[u].pc.In? {
        AloneInside(s.mutex, s.threads, t, u);
      }
    }
  }

  lemma RestKeepsDummies(c: Conf, s: State, a: Action, t: Tid)
    requires DummyInPlace(s.backend, s.threads) && t in s.threads
    requires OfPublish(a) && !a.DoPublish? && !a.DoSuspend? && ApplyPublish(c, s, a, t).Some?
    ensures var r := ApplyPublish(c, s, a, t).value; DummyInPlace(r.backend, r.threads)
  {
    hide DummyInPlace;
    var r := ApplyPublish(c, s, a, t).value;
    MoveKeepsDummies(s.backend, s.threads, t, r.threads[t]);
    OwnersKeepDummies(s.backend, r.backend, r.threads);
  }

  lemma PingerKeepsDummies(c: Conf, s: State, a: Action, t: Tid)
    requires DummyInPlace(s.backend, s.threads) && t in s.threads && ApplyPinger(c, s, a, t).Some?
    ensures var r := ApplyPinger(c, s, a, t).value; DummyInPlace(r.backend, r.threads)
  {
    hide DummyInPlace, BackendTtl, ExpireEntry;
    var th := s.threads[t];
    match a
    case DoPingTtl(_) => RenewalKeepsDummies(c, s, t, th.(pc := Ping(Beat(0)), entered := s.now));
    case DoBeat(_, _, _, _) =>
      MoveKeepsDummies(s.backend, s.threads, t, ApplyPinger(c, s, a, t).value.threads[t]);
    case DoRenew(_) =>
      MoveKeepsDummies(s.backend, s.threads, t, th.(pc := Ping(DropMutex)));
      RenewalKeepsDummies(c, s, t, th.(pc := Ping(Beat(th.pc.ping.misses)), entered := s.now));
    case DoDropMutex(_) =>
      UnlockKeepsDummies(s, th.pool);
      var s1 := Unlock(s, th.pool);
      MoveKeepsDummies(s.backend, s1.threads, t, s1.threads[t].(pc := Ping(DropBackend)));
    case DoDropBackend(_) =>
      MoveKeepsDummies(s.backend, s.threads, t, th.(pc := Ping(Stopped)));
      OwnersKeepDummies(s.backend, s.backend - {th.pool}, s.threads[t := th.(pc := Ping(Stopped))]);
  }

  lemma RenewalKeepsDummies(c: Conf, s: State, t: Tid, th: Thread)
    requires DummyInPlace(s.backend, s.threads) && th.pc.Ping?
    ensures var r := ExpireEntry(s.(threads := s.threads[t := th]), th.pool, BackendTtl(c));
            DummyInPlace(r.backend, r.threads)
  {
    hide DummyInPlace;
    MoveKeepsDummies(s.backend, s.threads, t, th);
    var r := ExpireEntry(s.(threads := s.threads[t := th]), th.pool, BackendTtl(c));
    OwnersKeepDummies(s.backend, r.backend, r.threads);
  }

  lemma LockKeepsDummies(c: Conf, s: State, a: Action, t: Tid)
    requires DummyInPlace(s.backend, s.threads) && t in s.threads && ApplyLock(c, s, a, t).Some?
    ensures var r := ApplyLock(c, s, a, t).value; DummyInPlace(s.backend, r.threads)
  {
    hide DummyInPlace;
    var th := s.threads[t];
    var r := ApplyLock(c, s, a, t).value;
    match a
    case DoGrab(_) => MoveKeepsDummies(s.backend, s.threads, t, r.threads[t]);
    case DoSetTtl(_) =>
      var s1 := s.(threads := s.threads[t := th.(pc := In(GetPool), entered := s.now)]);
      MoveKeepsDummies(s.backend, s.threads, t, s1.threads[t]);
      UnlockKeepsDummies(s1, th.pool);
    case DoRelease(_) =>
      UnlockKeepsDummies(s, th.pool);
      MoveKeepsDummies(s.backend, Unlock(s, th.pool).threads, t, r.threads[t]);
  }

  lemma RequestKeepsDummies(s: State, a: Action, t: Tid)
    requires DummyInPlace(s.backend, s.threads) && t in s.threads && ApplyRequest(s, a, t).Some?
    ensures var r := ApplyRequest(s, a, t).value; DummyInPlace(r.backend, r.threads)
  {
    hide DummyInPlace;
    MoveKeepsDummies(s.backend, s.threads, t, s.threads[t].(pc := NextRequest(s, a, t).value));
  }

  lemma TryKeepsDummies(c: Conf, s: State, a: Action, t: Tid)
    requires DummyInPlace(s.backend, s.threads) && t in s.threads && ApplyTry(c, s, a, t).Some?
    ensures var r := ApplyTry(c, s, a, t).value; DummyInPlace(r.backend, r.threads)
  {
    hide DummyInPlace;
    TryIsNotSuspending(c, s, a, t);
    hide NextTry;
    MoveKeepsDummies(s.backend, s.threads, t, s.threads[t].(pc := NextTry(c, s, a, t).value));
  }

  lemma TryIsNotSuspending(c: Conf, s: State, a: Action, t: Tid)
    requires t in s.threads
    ensures NextTry(c, s, a, t).Some? && NextTry(c, s, a, t).value.In? ==> !NextTry(c, s, a, t).value.step.SuspendTtl?
  {
  }

  lemma WorldKeepsDummies(s: State, a: Action)
    requires DummyInPlace(s.backend, s.threads) && OfWorld(a) && ApplyWorld(s, a).Some?
    ensures var r := ApplyWorld(s, a).value; DummyInPlace(r.backend, r.threads)
  {
    hide DummyInPlace;
    var r := ApplyWorld(s, a).value;
    match a
    case Arrive(t, _, _) => MoveKeepsDummies(s.backend, s.threads, t, r.threads[t]);
    case ExpireMutex(p) => UnlockKeepsDummies(s, p);
    case ExpireBackend(p) => OwnersKeepDummies(s.backend, r.backend, s.threads);
    case _ =>
  }

  lemma DummiesKept(c: Conf, s: State, a: Action)
    requires Inv(c, s) && NobodyRobbed(s.threads) && DummyInPlace(s.backend, s.threads) && Apply(c, s, a).Some?
    ensures var r := Apply(c, s, a).value; DummyInPlace(r.backend, r.threads)
  {
    hide Locks, Published, GoodThreads, Counted, Timed, Clocked, NobodyRobbed, DummyInPlace;
    hide ApplyWorld, ApplyRequest, ApplyTry, ApplyLock, ApplyPublish, ApplyPinger;
    if OfWorld(a) {
      WorldKeepsDummies(s, a);
    } else if OfRequest(a) {
      RequestKeepsDummies(s, a, a.t);
    } else if OfTry(a) {
      TryKeepsDummies(c, s, a, a.t);
    } else if OfLock(a) {
      LockKeepsDummies(c, s, a, a.t);
      BackendFrame(c, s, a);
    } else if a.DoPublish? || a.DoSuspend? {
      PutKeepsDummies(c, s, a, a.t);
    } else if OfPublish(a) {
      RestKeepsDummies(c, s, a, a.t);
    } else {
      PingerKeepsDummies(c, s, a, a.t);
    }
  }

  lemma RecordsKept(c: Conf, s: State, a: Action)
    requires Inv(c, s) && NobodyRobbed(s.threads) && RecordsWell(c, s.backend, s.threads)
    requires Apply(c, s, a).Some?
    ensures var r := Apply(c, s, a).value; RecordsWell(c, r.backend, r.threads)
    ensures !Shortens(c, s, a)
  {
    OwnDummyIsNotPinged(c, s, a);
    hide Inv, NobodyRobbed, Living, DummyInPlace, Apply, Shortens;
    StepKeepsLiving(c, s, a);
    DummiesKept(c, s, a);
  }

  lemma {:induction false} PeacefulNeverShortens(c: Conf, s: State, acts: seq<Action>)
    requires Inv(c, s) && NobodyRobbed(s.threads) && RecordsWell(c, s.backend, s.threads)
    requires Peaceful(c, s, acts) && Exec(c, s, acts).Some?
    ensures NeverShortens(c, s, acts)
    decreases |acts|
  {
    hide Inv, NobodyRobbed, RecordsWell, Robs, Apply, Shortens;
    if acts != [] {
      InvKept(c, s, acts[0]);
      UnrobbedKept(c, s, acts[0]);
      RecordsKept(c, s, acts[0]);
      PeacefulNeverShortens(c, Apply(c, s, acts[0]).value, acts[1..]);
    }
  }

  /** So in a run in which no mutex is taken away, no life is ever cut short. */
  lemma PeacefulRecordLasts(c: Conf, acts: seq<Action>, p: PoolId)
    requires Peaceful(c, Start, acts) && Exec(c, Start, acts).Some?
    requires var s := Exec(c, Start, acts).value;
             && Apply(c, s, ExpireBackend(p)).Some?
             && s.backend[p].owner in s.threads && Pinger(s.threads[s.backend[p].owner])
    ensures var s := Exec(c, Start, acts).value;
            s.now >= s.threads[s.backend[p].owner].entered + 1000 * BackendTtl(c)
  {
    StartInv(c);
    PeacefulNeverShortens(c, Start, acts);
    PingedRecordLasts(c, acts, p);
  }
}
