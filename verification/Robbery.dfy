/**
 The mutex of a start can be taken away from a thread that is still inside.  While
 that does not happen, one thread per pool is inside.
 */
module Robbery {
  import opened Records
  import opened Protocol
  import opened ProtocolSafety

  /** The key of a thread that is still inside goes away: by expiry, by the
      unconditional DEL of stop_backend, or by an EXPIRE of zero seconds. */
  predicate Robs(c: Conf, s: State, a: Action) {
    || a.ExpireMutex?
    || (a.DoDropMutex? && a.t in s.threads && s.threads[a.t].pool in s.mutex)
    || (a.DoSetTtl? && MutexTtl(c) == 0)
  }

  ghost predicate NobodyRobbed(threads: map<Tid, Thread>) {
    forall t | t in threads && threads[t].pc.In? :: !threads[t].robbed
  }

  lemma UnrobbedMove(threads: map<Tid, Thread>, after: map<Tid, Thread>, t: Tid)
    requires NobodyRobbed(threads) && Moves(threads, after, t)
    ensures NobodyRobbed(after)
  {
  }

  lemma UnrobbedLock(c: Conf, s: State, a: Action, t: Tid)
    requires Locks(s.mutex, s.threads) && NobodyRobbed(s.threads)
    requires t in s.threads && ApplyLock(c, s, a, t).Some? && !(a.DoSetTtl? && MutexTtl(c) == 0)
    ensures NobodyRobbed(ApplyLock(c, s, a, t).value.threads)
  {
  }

  lemma UnrobbedPublish(c: Conf, s: State, a: Action, t: Tid)
    requires NobodyRobbed(s.threads) && t in s.threads && a.DoPublish? && ApplyPublish(c, s, a, t).Some?
    ensures NobodyRobbed(ApplyPublish(c, s, a, t).value.threads)
  {
  }

  lemma UnrobbedDrop(c: Conf, s: State, a: Action, t: Tid)
    requires NobodyRobbed(s.threads) && t in s.threads && a.DoDropMutex? && ApplyPinger(c, s, a, t).Some?
    requires s.threads[t].pool !in s.mutex
    ensures NobodyRobbed(ApplyPinger(c, s, a, t).value.threads)
  {
  }

  lemma UnrobbedKept(c: Conf, s: State, a: Action)
    requires Inv(c, s) && NobodyRobbed(s.threads) && !Robs(c, s, a) && Apply(c, s, a).Some?
    ensures NobodyRobbed(Apply(c, s, a).value.threads)
  {
    hide Locks, Published, GoodThreads, Counted, Timed, Clocked, Moves, ApplyRequest, ApplyTry, ApplyLock, ApplyPublish, ApplyPinger;
    var r := Apply(c, s, a).value;
    if Plain(a) {
      PlainStep(c, s, a);
      UnrobbedMove(s.threads, r.threads, a.t);
    } else {
      match a
      case DoDropMutex(t) => UnrobbedDrop(c, s, a, t);
      case DoPublish(t, _, _, _) => UnrobbedPublish(c, s, a, t);
      case DoGrab(t) => UnrobbedLock(c, s, a, t);
      case DoSetTtl(t) => UnrobbedLock(c, s, a, t);
      case DoRelease(t) => UnrobbedLock(c, s, a, t);
      case _ =>
    }
  }

  /** No step of the run robs a thread. */
  predicate Peaceful(c: Conf, s: State, acts: seq<Action>)
    decreases |acts|
  {
    acts == [] ||
    (!Robs(c, s, acts[0]) && Apply(c, s, acts[0]).Some? && Peaceful(c, Apply(c, s, acts[0]).value, acts[1..]))
  }

  lemma {:induction false} PeacefulRun(c: Conf, s: State, acts: seq<Action>)
    requires Inv(c, s) && NobodyRobbed(s.threads) && Peaceful(c, s, acts) && Exec(c, s, acts).Some?
    ensures Inv(c, Exec(c, s, acts).value) && NobodyRobbed(Exec(c, s, acts).value.threads)
    decreases |acts|
  {
    hide Inv, NobodyRobbed, Robs, Apply;
    if acts != [] {
      InvKept(c, s, acts[0]);
      UnrobbedKept(c, s, acts[0]);
      PeacefulRun(c, Apply(c, s, acts[0]).value, acts[1..]);
    }
  }

  /** Mutual exclusion: when no key is taken away from a thread inside, at most
      one thread per pool is inside start_backend_in_mutexed. */
  lemma AtMostOneInside(c: Conf, acts: seq<Action>)
    requires Peaceful(c, Start, acts) && Exec(c, Start, acts).Some?
    ensures var s := Exec(c, Start, acts).value;
            forall t, u | t in s.threads && u in s.threads && s.threads[t].pc.In? && s.threads[u].pc.In?
                          && s.threads[t].pool == s.threads[u].pool :: t == u
  {
    StartInv(c);
    PeacefulRun(c, Start, acts);
  }
}
