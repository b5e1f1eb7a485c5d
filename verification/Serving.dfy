/**
 What a request gets (v2/lens3/multiplexer.go, ensure_backend_running): in every run
 it is served by the READY record it found, and refused only for a cause.  And what
 an uninterrupted start leaves behind.
 */
module Serving {
  import opened Records
  import opened Ports
  import opened Protocol
  import opened ProtocolSafety
  import opened Robbery
  import opened RecordLife
  import opened SecondBackend
  import S = Startup
  import B = Pinger

  // ---- threads move only by their own steps ----

  /** The step is not one of the thread. */
  predicate Foreign(a: Action, t: Tid) { OfWorld(a) || a.t != t }

  ghost predicate SameThread(s: State, r: State, t: Tid) {
    t in s.threads && t in r.threads && r.threads[t] == s.threads[t].(robbed := r.threads[t].robbed)
  }

  lemma UnlockLeaves(s: State, p: PoolId, t: Tid)
    requires t in s.threads
    ensures SameThread(s, Unlock(s, p), t)
  {
  }

  lemma LockLeaves(c: Conf, s: State, a: Action, u: Tid, t: Tid)
    requires u in s.threads && t in s.threads && u != t && ApplyLock(c, s, a, u).Some?
    ensures SameThread(s, ApplyLock(c, s, a, u).value, t)
  {
    var th := s.threads[u];
    match a
    case DoGrab(_) =>
    case DoSetTtl(_) =>
      UnlockLeaves(s.(threads := s.threads[u := th.(pc := In(GetPool), entered := s.now)]), th.pool, t);
    case DoRelease(_) => UnlockLeaves(s, th.pool, t);
  }

  lemma PublishLeaves(c: Conf, s: State, a: Action, u: Tid, t: Tid)
    requires u in s.threads && t in s.threads && u != t && OfPublish(a) && ApplyPublish(c, s, a, u).Some?
    ensures SameThread(s, ApplyPublish(c, s, a, u).value, t)
  {
    var r := ApplyPublish(c, s, a, u).value;
    if !a.DoPublish? {
      PublishIsQuiet(c, s, a, u);
      hide ApplyPublish;
    }
  }

  lemma PingerLeaves(c: Conf, s: State, a: Action, u: Tid, t: Tid)
    requires u in s.threads && t in s.threads && u != t && ApplyPinger(c, s, a, u).Some?
    ensures SameThread(s, ApplyPinger(c, s, a, u).value, t)
  {
    if a.DoDropMutex? {
      UnlockLeaves(s, s.threads[u].pool, t);
    }
  }

  lemma WorldLeaves(s: State, a: Action, t: Tid)
    requires t in s.threads && OfWorld(a) && ApplyWorld(s, a).Some?
    ensures SameThread(s, ApplyWorld(s, a).value, t)
  {
    if a.ExpireMutex? {
      UnlockLeaves(s, a.pool, t);
    }
  }

  lemma ForeignLeaves(c: Conf, s: State, a: Action, t: Tid)
    requires t in s.threads && Foreign(a, t) && Apply(c, s, a).Some?
    ensures SameThread(s, Apply(c, s, a).value, t)
  {
    hide ApplyWorld, ApplyRequest, ApplyTry, ApplyLock, ApplyPublish, ApplyPinger, Quiet;
    if OfWorld(a) {
      WorldLeaves(s, a, t);
    } else if OfRequest(a) {
      RequestIsQuiet(s, a, a.t);
      QuietLeaves(s, Apply(c, s, a).value, a.t, t);
    } else if OfLock(a) {
      LockLeaves(c, s, a, a.t, t);
    } else if OfTry(a) {
      TryIsQuiet(c, s, a, a.t);
      QuietLeaves(s, Apply(c, s, a).value, a.t, t);
    } else if OfPublish(a) {
      PublishLeaves(c, s, a, a.t, t);
    } else {
      PingerLeaves(c, s, a, a.t, t);
    }
  }

  lemma QuietLeaves(s: State, r: State, u: Tid, t: Tid)
    requires Quiet(s.threads, r.threads, u) && t in s.threads && u != t
    ensures SameThread(s, r, t)
  {
  }

  // ---- answers ----

  /** A request stamps the pool, takes a record that is there when it looks, goes for the
      mutex when there is none, and while it waits takes a record that comes and gives up
      at its timeout. */
  lemma LookTakes(c: Conf, s: State, t: Tid, timeout: bool)
    requires t in s.threads
    ensures s.threads[t].pc == Out(Stamp) ==>
              Apply(c, s, DoStamp(t)) == Some(At(s, t, Out(Look)).(stamps := s.stamps[s.threads[t].pool := s.now]))
    ensures s.threads[t].pc == Out(Look) ==>
              Apply(c, s, DoLook(t)) ==
              Some(At(s, t, Out(if s.threads[t].pool in s.backend then Answer(Some(s.backend[s.threads[t].pool].be)) else Grab)))
    ensures s.threads[t].pc == Out(Race) ==>
              Apply(c, s, DoRace(t, timeout)) ==
              Some(At(s, t, Out(if s.threads[t].pool in s.backend then Answer(Some(s.backend[s.threads[t].pool].be))
                                else if timeout then Answer(None) else Race)))
  {
  }

  /** In every state of every run, an answer is served if and only if it is a READY
      record, and with that record; anything else is refused. */
  lemma AnswerIs(c: Conf, s: State, t: Tid)
    requires Inv(c, s) && t in s.threads && s.threads[t].pc.Out? && s.threads[t].pc.out.Answer?
    ensures var found := s.threads[t].pc.out.result;
            Apply(c, s, DoAnswer(t)) ==
            Some(At(s, t, Out(if found.Some? && found.value.state.Ready? then Served(found.value) else Refused)))
  {
    hide Locks, Published, Counted, Timed, Clocked;
    assert GoodThread(c, s.threads[t]);
  }

  /** No step of a served thread. */
  lemma ServedIsOver(c: Conf, s: State, a: Action, t: Tid)
    requires t in s.threads && s.threads[t].pc.Out? && s.threads[t].pc.out.Served? && Apply(c, s, a).Some?
    ensures Foreign(a, t)
  {
  }

  /** An answered thread can only be answered. */
  lemma AnsweredGoesOn(c: Conf, s: State, a: Action, t: Tid)
    requires t in s.threads && s.threads[t].pc.Out? && s.threads[t].pc.out.Answer? && Apply(c, s, a).Some?
    ensures Foreign(a, t) || a == DoAnswer(t)
  {
  }

  /** A request that found a READY record is served with that record, whatever happens
      meanwhile: it waits for its answer or has it, and has it once it is answered. */
  lemma {:induction false} FoundIsServed(c: Conf, s: State, acts: seq<Action>, t: Tid, be: Backend)
    requires Inv(c, s) && t in s.threads && Exec(c, s, acts).Some? && be.state.Ready?
    requires s.threads[t].pc == Out(Answer(Some(be))) || s.threads[t].pc == Out(Served(be))
    ensures var r := Exec(c, s, acts).value;
            && t in r.threads
            && (r.threads[t].pc == Out(Served(be)) || r.threads[t].pc == Out(Answer(Some(be))))
            && (r.threads[t].pc == Out(Served(be)) <==> s.threads[t].pc == Out(Served(be)) || DoAnswer(t) in acts)
    decreases |acts|
  {
    if acts != [] {
      var a := acts[0];
      assert acts == [a] + acts[1..];
      InvKept(c, s, a);
      hide Inv, Apply;
      var s1 := Apply(c, s, a).value;
      if s.threads[t].pc.out.Served? {
        ServedIsOver(c, s, a, t);
        ForeignLeaves(c, s, a, t);
      } else {
        AnsweredGoesOn(c, s, a, t);
        if a == DoAnswer(t) {
          AnswerIs(c, s, t);
        } else {
          ForeignLeaves(c, s, a, t);
        }
      }
      FoundIsServed(c, s1, acts[1..], t, be);
    }
  }

  // ---- refusals ----

  /** On the way to a refusal, or refused. */
  predicate Doomed(th: Thread) {
    match th.pc
    case Out(Answer(found)) => found.None? || !found.value.state.Ready?
    case Out(Refused) => true
    case In(Suspend(_)) => true
    case In(SuspendTtl(_)) => true
    case In(ShowSuspended(_)) => true
    case In(Mark(_)) => true
    case In(Release(found)) => found.None? || !found.value.state.Ready?
    case _ => false
  }

  /** What can bring a thread there: a SUSPENDED record where it looks, its timeout while
      it waits, a pool that is gone, no port left, a failed start, or a shutdown. */
  predicate Cause(s: State, a: Action, t: Tid) {
    && t in s.threads && !OfWorld(a) && a.t == t
    && var p := s.threads[t].pool;
    || ((a.DoLook? || a.DoRace?) && p in s.backend && s.backend[p].be.state.Suspended?)
    || (a.DoRace? && a.timeout && p !in s.backend)
    || (a.DoGetPool? && p !in s.pools)
    || (a.DoTry? && s.threads[t].pc.In? && s.threads[t].pc.step.Try?
        && (s.threads[t].pc.step.ports == [] || a.outcome.ToTransient? || a.outcome.ToPersistent?))
    || (a.DoRegister? && a.shutdown)
  }

  lemma DoomedByRequest(c: Conf, s: State, a: Action, t: Tid)
    requires Published(c, s.backend) && t in s.threads && GoodThread(c, s.threads[t])
    requires OfRequest(a) && a.t == t && ApplyRequest(s, a, t).Some? && Doomed(ApplyRequest(s, a, t).value.threads[t])
    ensures Doomed(s.threads[t]) || Cause(s, a, t)
  {
  }

  lemma DoomedByTry(c: Conf, s: State, a: Action, t: Tid)
    requires Published(c, s.backend) && t in s.threads
    requires OfTry(a) && a.t == t && ApplyTry(c, s, a, t).Some? && Doomed(ApplyTry(c, s, a, t).value.threads[t])
    ensures Doomed(s.threads[t]) || Cause(s, a, t)
  {
  }

  lemma DoomedByLock(c: Conf, s: State, a: Action, t: Tid)
    requires t in s.threads && OfLock(a) && a.t == t && ApplyLock(c, s, a, t).Some?
    requires t in ApplyLock(c, s, a, t).value.threads && Doomed(ApplyLock(c, s, a, t).value.threads[t])
    ensures Doomed(s.threads[t])
  {
  }

  lemma DoomedByPublish(c: Conf, s: State, a: Action, t: Tid)
    requires t in s.threads && GoodThread(c, s.threads[t]) && OfPublish(a) && a.t == t && ApplyPublish(c, s, a, t).Some?
    requires t in ApplyPublish(c, s, a, t).value.threads && Doomed(ApplyPublish(c, s, a, t).value.threads[t])
    ensures Doomed(s.threads[t])
  {
  }

  lemma NewIsNotDoomed(c: Conf, s: State, a: Action, t: Tid)
    requires t !in s.threads && Apply(c, s, a).Some? && t in Apply(c, s, a).value.threads
    ensures !Doomed(Apply(c, s, a).value.threads[t])
  {
    hide NextRequest, NextTry, ApplyWorld, ApplyLock, ApplyPublish, ApplyPinger;
    if OfWorld(a) {
      NewInWorld(s, a, t);
    } else if OfLock(a) {
      NoneByLock(c, s, a, a.t);
    } else if OfPublish(a) {
      NewByPublish(c, s, a, a.t, t);
    } else if OfRequest(a) || OfTry(a) {
      NoneByMove(c, s, a);
    } else {
      NoneByPinger(c, s, a, a.t);
    }
  }

  lemma NoneByMove(c: Conf, s: State, a: Action)
    requires (OfRequest(a) || OfTry(a)) && Apply(c, s, a).Some?
    ensures Apply(c, s, a).value.threads.Keys == s.threads.Keys
  {
    hide NextRequest, NextTry;
  }

  lemma NewInWorld(s: State, a: Action, t: Tid)
    requires t !in s.threads && ApplyWorld(s, a).Some? && t in ApplyWorld(s, a).value.threads
    ensures !Doomed(ApplyWorld(s, a).value.threads[t])
  {
  }

  lemma NewByPublish(c: Conf, s: State, a: Action, u: Tid, t: Tid)
    requires u in s.threads && t !in s.threads && ApplyPublish(c, s, a, u).Some? && t in ApplyPublish(c, s, a, u).value.threads
    ensures !Doomed(ApplyPublish(c, s, a, u).value.threads[t])
  {
  }

  lemma NoneByLock(c: Conf, s: State, a: Action, u: Tid)
    requires u in s.threads && ApplyLock(c, s, a, u).Some?
    ensures ApplyLock(c, s, a, u).value.threads.Keys == s.threads.Keys
  {
  }

  lemma NoneByPinger(c: Conf, s: State, a: Action, u: Tid)
    requires u in s.threads && ApplyPinger(c, s, a, u).Some?
    ensures ApplyPinger(c, s, a, u).value.threads.Keys == s.threads.Keys
  {
  }

  lemma PingerIsNotDoomed(c: Conf, s: State, a: Action, t: Tid)
    requires t in s.threads && ApplyPinger(c, s, a, t).Some? && t in ApplyPinger(c, s, a, t).value.threads
    ensures !Doomed(ApplyPinger(c, s, a, t).value.threads[t])
  {
  }

  lemma DoomedStep(c: Conf, s: State, a: Action, t: Tid)
    requires Inv(c, s) && t in s.threads && Apply(c, s, a).Some?
    requires t in Apply(c, s, a).value.threads && Doomed(Apply(c, s, a).value.threads[t])
    ensures Doomed(s.threads[t]) || Cause(s, a, t)
  {
    assert GoodThread(c, s.threads[t]);
    if Foreign(a, t) {
      ForeignLeaves(c, s, a, t);
      hide Apply, Inv;
    } else {
      hide Locks, Published, GoodThreads, GoodThread, Counted, Timed, Clocked, Doomed, Cause;
      hide ApplyRequest, ApplyTry, ApplyLock, ApplyPublish, ApplyPinger;
      if OfRequest(a) {
        DoomedByRequest(c, s, a, t);
      } else if OfLock(a) {
        DoomedByLock(c, s, a, t);
      } else if OfTry(a) {
        DoomedByTry(c, s, a, t);
      } else if OfPublish(a) {
        DoomedByPublish(c, s, a, t);
      } else {
        PingerIsNotDoomed(c, s, a, t);
      }
    }
  }

  /** Some step of the run is a cause for the thread. */
  predicate Caused(c: Conf, s: State, acts: seq<Action>, t: Tid)
    decreases |acts|
  {
    acts != [] &&
    (Cause(s, acts[0], t) || (Apply(c, s, acts[0]).Some? && Caused(c, Apply(c, s, acts[0]).value, acts[1..], t)))
  }

  lemma {:induction false} DoomedRun(c: Conf, s: State, acts: seq<Action>, t: Tid)
    requires Inv(c, s) && Exec(c, s, acts).Some?
    requires t in Exec(c, s, acts).value.threads && Doomed(Exec(c, s, acts).value.threads[t])
    ensures (t in s.threads && Doomed(s.threads[t])) || Caused(c, s, acts, t)
    decreases |acts|
  {
    hide Inv, Apply, Doomed, Cause;
    if acts != [] {
      var s1 := Apply(c, s, acts[0]).value;
      InvKept(c, s, acts[0]);
      DoomedRun(c, s1, acts[1..], t);
      if t in s1.threads && Doomed(s1.threads[t]) {
        if t in s.threads {
          DoomedStep(c, s, acts[0], t);
        } else {
          NewIsNotDoomed(c, s, acts[0], t);
        }
      }
    }
  }

  // A cause dooms, and a doomed thread stays so.

  lemma DoomingRequest(c: Conf, s: State, a: Action, t: Tid)
    requires Published(c, s.backend) && t in s.threads && GoodThread(c, s.threads[t])
    requires OfRequest(a) && a.t == t && ApplyRequest(s, a, t).Some? && (Doomed(s.threads[t]) || Cause(s, a, t))
    ensures t in ApplyRequest(s, a, t).value.threads && Doomed(ApplyRequest(s, a, t).value.threads[t])
  {
  }

  lemma DoomingTry(c: Conf, s: State, a: Action, t: Tid)
    requires t in s.threads && OfTry(a) && a.t == t && ApplyTry(c, s, a, t).Some? && (Doomed(s.threads[t]) || Cause(s, a, t))
    ensures t in ApplyTry(c, s, a, t).value.threads && Doomed(ApplyTry(c, s, a, t).value.threads[t])
  {
  }

  lemma DoomedThroughLock(c: Conf, s: State, a: Action, t: Tid)
    requires t in s.threads && OfLock(a) && a.t == t && ApplyLock(c, s, a, t).Some? && Doomed(s.threads[t])
    ensures t in ApplyLock(c, s, a, t).value.threads && Doomed(ApplyLock(c, s, a, t).value.threads[t])
  {
  }

  lemma DoomedThroughPublish(c: Conf, s: State, a: Action, t: Tid)
    requires t in s.threads && OfPublish(a) && a.t == t && ApplyPublish(c, s, a, t).Some? && Doomed(s.threads[t])
    ensures t in ApplyPublish(c, s, a, t).value.threads && Doomed(ApplyPublish(c, s, a, t).value.threads[t])
  {
  }

  lemma DoomedNeverPings(c: Conf, s: State, a: Action, t: Tid)
    requires t in s.threads && Doomed(s.threads[t])
    ensures ApplyPinger(c, s, a, t).None?
  {
  }

  lemma DoomingStep(c: Conf, s: State, a: Action, t: Tid)
    requires Inv(c, s) && t in s.threads && Apply(c, s, a).Some? && (Doomed(s.threads[t]) || Cause(s, a, t))
    ensures t in Apply(c, s, a).value.threads && Doomed(Apply(c, s, a).value.threads[t])
  {
    assert GoodThread(c, s.threads[t]);
    if Foreign(a, t) {
      ForeignLeaves(c, s, a, t);
      hide Apply, Inv;
    } else {
      hide Locks, Published, GoodThreads, GoodThread, Counted, Timed, Clocked, Doomed;
      hide ApplyRequest, ApplyTry, ApplyLock, ApplyPublish, ApplyPinger;
      if OfRequest(a) {
        DoomingRequest(c, s, a, t);
      } else if OfLock(a) {
        DoomedThroughLock(c, s, a, t);
      } else if OfTry(a) {
        DoomingTry(c, s, a, t);
      } else if OfPublish(a) {
        DoomedThroughPublish(c, s, a, t);
      } else {
        DoomedNeverPings(c, s, a, t);
      }
    }
  }

  lemma {:induction false} CausedRun(c: Conf, s: State, acts: seq<Action>, t: Tid)
    requires Inv(c, s) && Exec(c, s, acts).Some?
    requires (t in s.threads && Doomed(s.threads[t])) || Caused(c, s, acts, t)
    ensures t in Exec(c, s, acts).value.threads && Doomed(Exec(c, s, acts).value.threads[t])
    decreases |acts|
  {
    hide Inv, Apply, Doomed, Cause;
    if acts != [] {
      var s1 := Apply(c, s, acts[0]).value;
      InvKept(c, s, acts[0]);
      if (t in s.threads && Doomed(s.threads[t])) || Cause(s, acts[0], t) {
        CauseHasThread(s, acts[0], t);
        DoomingStep(c, s, acts[0], t);
      }
      CausedRun(c, s1, acts[1..], t);
    }
  }

  lemma CauseHasThread(s: State, a: Action, t: Tid)
    ensures Cause(s, a, t) ==> t in s.threads
  {
  }

  /** In every run a request that has its answer is refused if and only if some step of
      its own was a cause: a SUSPENDED record, its timeout, a pool that is gone, no port
      left, a failed start or a shutdown; and so it is served if and only if none was. */
  lemma RefusedIffCaused(c: Conf, acts: seq<Action>, t: Tid)
    requires Exec(c, Start, acts).Some? && t in Exec(c, Start, acts).value.threads
    ensures var pc := Exec(c, Start, acts).value.threads[t].pc;
            && (pc == Out(Refused) ==> Caused(c, Start, acts, t))
            && (pc.Out? && pc.out.Served? ==> !Caused(c, Start, acts, t))
            && (Caused(c, Start, acts, t) <==> Doomed(Exec(c, Start, acts).value.threads[t]))
  {
    StartInv(c);
    hide Inv, Caused, Exec;
    if Doomed(Exec(c, Start, acts).value.threads[t]) {
      DoomedRun(c, Start, acts, t);
    }
    if Caused(c, Start, acts, t) {
      CausedRun(c, Start, acts, t);
    }
  }

  // ---- nobody is stuck ----

  /** Answered, or stopped pinging. */
  predicate Over(pc: Pc) {
    match pc
    case Out(out) => out.Served? || out.Refused? || out.Crashed?
    case In(_) => false
    case Ping(ping) => ping.Stopped?
  }

  /** The next call of a thread, with the listings and the pinger that it needs. */
  function NextAction(t: Tid, pc: Pc, keys: seq<PoolId>, ports: seq<int>, pinger: Tid): Action {
    match pc
    case Out(Stamp) => DoStamp(t)
    case Out(Look) => DoLook(t)
    case Out(Grab) => DoGrab(t)
    case Out(Holder) => DoHolder(t)
    case Out(Race) => DoRace(t, false)
    case Out(_) => DoAnswer(t)
    case In(SetTtl) => DoSetTtl(t)
    case In(GetPool) => DoGetPool(t)
    case In(Scan) => DoScan(t, keys)
    case In(Read(rest, _)) => if rest == [] then DoList(t, ports) else DoRead(t)
    case In(Try(_)) => DoTry(t, ToStarted)
    case In(Register(_)) => DoRegister(t, false)
    case In(Publish(_)) => DoPublish(t, pinger, "a", "s")
    case In(ShowReady(_)) => DoShowReady(t)
    case In(Suspend(_)) => DoSuspend(t)
    case In(SuspendTtl(_)) => DoSuspendTtl(t)
    case In(ShowSuspended(_)) => DoShowSuspended(t)
    case In(Mark(_)) => DoMark(t, false)
    case In(Release(_)) => DoRelease(t)
    case Ping(PingTtl) => DoPingTtl(t)
    case Ping(Beat(_)) => DoBeat(t, true, 0, false)
    case Ping(Renew(_)) => DoRenew(t)
    case Ping(DropMutex) => DoDropMutex(t)
    case Ping(_) => DoDropBackend(t)
  }

  /** In every state a thread has a next call unless it is over, and then it has none;
      it moves on whatever the other threads have done. */
  lemma ThreadGoesOn(c: Conf, s: State, t: Tid, pinger: Tid) returns (a: Action)
    requires t in s.threads && pinger !in s.threads
    ensures !OfWorld(a) && a.t == t && (Apply(c, s, a).Some? <==> !Over(s.threads[t].pc))
    ensures Over(s.threads[t].pc) ==> forall b: Action | !OfWorld(b) && b.t == t :: Apply(c, s, b).None?
  {
    var keys := Enumerate(s.backend.Keys);
    var pc := s.threads[t].pc;
    var ports := if pc.In? && pc.step.Read? then FreePorts(c.portMin, c.portMax, c.width, pc.step.used) else [];
    a := NextAction(t, pc, keys, ports, pinger);
    hide FreePorts;
    forall b: Action | Over(pc) && !OfWorld(b) && b.t == t ensures Apply(c, s, b).None? {
      OverIsOver(c, s, b, t);
    }
    if pc.Out? {
      RequestGoesOn(c, s, t, a);
    } else if pc.In? {
      StartGoesOn(c, s, t, a, keys, ports, pinger);
    } else {
      PingGoesOn(c, s, t, a);
    }
  }

  lemma OverIsOver(c: Conf, s: State, b: Action, t: Tid)
    requires t in s.threads && Over(s.threads[t].pc) && !OfWorld(b) && b.t == t
    ensures Apply(c, s, b).None?
  {
  }

  lemma RequestGoesOn(c: Conf, s: State, t: Tid, a: Action)
    requires t in s.threads && s.threads[t].pc.Out? && a == NextAction(t, s.threads[t].pc, [], [], 0)
    ensures Apply(c, s, a).Some? <==> !Over(s.threads[t].pc)
  {
  }

  lemma StartGoesOn(c: Conf, s: State, t: Tid, a: Action, keys: seq<PoolId>, ports: seq<int>, pinger: Tid)
    requires t in s.threads && pinger !in s.threads && s.threads[t].pc.In?
    requires a == NextAction(t, s.threads[t].pc, keys, ports, pinger) && multiset(keys) == multiset(s.backend.Keys)
    requires s.threads[t].pc.step.Read? ==> ports == FreePorts(c.portMin, c.portMax, c.width, s.threads[t].pc.step.used)
    ensures Apply(c, s, a).Some?
  {
    hide FreePorts;
  }

  lemma PingGoesOn(c: Conf, s: State, t: Tid, a: Action)
    requires t in s.threads && s.threads[t].pc.Ping? && a == NextAction(t, s.threads[t].pc, [], [], 0)
    ensures Apply(c, s, a).Some? <==> !Over(s.threads[t].pc)
  {
  }

  // ---- an uninterrupted start ----

  function OutcomeOf(r: S.Final): Outcome {
    match r.state
    case Started => ToStarted
    case ToRetry => ToRetry
    case Transient => ToTransient(r.reason)
    case Persistent => ToPersistent(r.reason)
  }

  /** Where the trial of the ports ends, by the outcome that decides. */
  function AfterTrial(ports: seq<int>, results: int -> S.Final): Starting {
    var d := S.Decision(ports, results);
    match d.state
    case Started => Register(ports[S.FirstDecided(ports, results).value])
    case Persistent => Mark(d.reason)
    case _ => Suspend(d.reason)
  }

  lemma {:induction false} TrialFollows(c: Conf, s: State, t: Tid, ports: seq<int>, results: int -> S.Final)
    requires t in s.threads && s.threads[t].pc == In(Try(ports))
    ensures Leads(c, s, At(s, t, In(AfterTrial(ports, results))))
    decreases |ports|
  {
    hide Leads, Apply, AfterTrial;
    var end := AfterTrial(ports, results);
    if ports != [] && results(ports[0]).state.ToRetry? {
      var s1 := At(s, t, In(Try(ports[1..])));
      RetryStep(c, s, t, ports);
      TrialFollows(c, s1, t, ports[1..], results);
      RetriedIsNext(ports, results);
      assert At(s1, t, In(end)) == At(s, t, In(end));
      LeadsThrough(c, s, s1, At(s, t, In(end)));
    } else {
      LastTry(c, s, t, ports, results);
    }
  }

  lemma RetryStep(c: Conf, s: State, t: Tid, ports: seq<int>)
    requires t in s.threads && s.threads[t].pc == In(Try(ports)) && ports != []
    ensures Leads(c, s, At(s, t, In(Try(ports[1..]))))
  {
    hide Leads;
    assert Apply(c, s, DoTry(t, ToRetry)) == Some(At(s, t, In(Try(ports[1..]))));
    LeadsOn(c, s, DoTry(t, ToRetry));
  }

  lemma LastTry(c: Conf, s: State, t: Tid, ports: seq<int>, results: int -> S.Final)
    requires t in s.threads && s.threads[t].pc == In(Try(ports)) && (ports == [] || !results(ports[0]).state.ToRetry?)
    ensures Leads(c, s, At(s, t, In(AfterTrial(ports, results))))
  {
    hide Leads;
    var o := if ports == [] then ToRetry else OutcomeOf(results(ports[0]));
    assert ports != [] ==> S.FirstDecided(ports, results) == Some(0);
    assert Apply(c, s, DoTry(t, o)) == Some(At(s, t, In(AfterTrial(ports, results))));
    LeadsOn(c, s, DoTry(t, o));
  }

  lemma RetriedIsNext(ports: seq<int>, results: int -> S.Final)
    requires ports != [] && results(ports[0]).state.ToRetry?
    ensures AfterTrial(ports, results) == AfterTrial(ports[1..], results)
  {
    var k := S.FirstDecided(ports[1..], results);
    if k.Some? {
      assert ports[1..][k.value] == ports[k.value + 1];
    }
  }

  /** What a start has done when it returns: the mutex is free, and the record, the shown
      state, the pool and the answer are those of the outcome that decided. */
  ghost predicate Ended(c: Conf, s: State, r: State, t: Tid, d: S.Final, port: int, access: string, secret: string)
    requires t in s.threads
  {
    var p, mux, sec := s.threads[t].pool, s.threads[t].muxEp, Seconds(c.suspension);
    var ready := Backend(p, HostPort(mux, port), Ready, access, secret, mux, s.now);
    var dummy := Backend(p, NoEndpoint, Suspended, "", "", mux, s.now);
    && r.now == s.now && p !in r.mutex && t in r.threads
    && (forall q | q != p :: Get(r.backend, q) == Get(s.backend, q) && Get(r.shown, q) == Get(s.shown, q)
                             && Get(r.pools, q) == Get(s.pools, q))
    && (d.state.Started? ==>
          && p in r.backend && r.backend[p].be == ready && r.backend[p].expireAt.None?
          && Get(r.shown, p) == Some(Ready) && Get(r.pools, p) == Get(s.pools, p)
          && r.threads[t].pc == Out(Answer(Some(ready))))
    && (d.state.Persistent? ==>
          && Get(r.backend, p) == Get(s.backend, p) && Get(r.shown, p) == Get(s.shown, p)
          && Get(r.pools, p) == Some(true) && r.threads[t].pc == Out(Answer(None)))
    && (d.state.Transient? ==>
          && (sec > 0 ==> Get(r.backend, p) == Some(Entry(dummy, t, Some(s.now + 1000 * sec))))
          && (sec == 0 ==> p !in r.backend)
          && Get(r.shown, p) == Some(Suspended) && Get(r.pools, p) == Get(s.pools, p)
          && r.threads[t].pc == Out(Answer(Some(dummy))))
  }

  /** The mutex is with the thread. */
  predicate Holds(s: State, t: Tid) {
    t in s.threads && s.threads[t].pool in s.mutex && s.mutex[s.threads[t].pool].owner == t
  }

  lemma ReleaseStep(c: Conf, s: State, t: Tid) returns (r: State)
    requires Holds(s, t) && s.threads[t].pc.In? && s.threads[t].pc.step.Release?
    ensures Leads(c, s, r) && r.now == s.now && r.backend == s.backend && r.shown == s.shown && r.pools == s.pools
    ensures s.threads[t].pool !in r.mutex && t in r.threads && r.threads[t].pc == Out(Answer(s.threads[t].pc.step.result))
  {
    hide Leads;
    r := Apply(c, s, DoRelease(t)).value;
    LeadsOn(c, s, DoRelease(t));
  }

  lemma MarkEnds(c: Conf, s: State, t: Tid) returns (r: State)
    requires Holds(s, t) && s.threads[t].pc.In? && s.threads[t].pc.step.Mark?
    ensures Leads(c, s, r) && r.now == s.now && r.backend == s.backend && r.shown == s.shown
    ensures r.pools == s.pools[s.threads[t].pool := true]
    ensures s.threads[t].pool !in r.mutex && t in r.threads && r.threads[t].pc == Out(Answer(None))
  {
    hide Leads;
    var s1 := Apply(c, s, DoMark(t, false)).value;
    LeadsOn(c, s, DoMark(t, false));
    r := ReleaseStep(c, s1, t);
    LeadsThrough(c, s, s1, r);
  }

  lemma SuspendEnds(c: Conf, s: State, t: Tid) returns (r: State)
    requires Holds(s, t) && s.threads[t].pc.In? && s.threads[t].pc.step.Suspend?
    ensures var p, sec := s.threads[t].pool, Seconds(c.suspension);
            var dummy := Backend(p, NoEndpoint, Suspended, "", "", s.threads[t].muxEp, s.now);
            && Leads(c, s, r) && r.now == s.now && r.pools == s.pools && r.shown == s.shown[p := Suspended]
            && r.backend == (if sec > 0 then s.backend[p := Entry(dummy, t, Some(s.now + 1000 * sec))] else s.backend - {p})
            && p !in r.mutex && t in r.threads && r.threads[t].pc == Out(Answer(Some(dummy)))
  {
    hide Leads;
    var s1 := DummyPut(c, s, t);
    var s2 := DummyShown(c, s1, t);
    r := ReleaseStep(c, s2, t);
    LeadsThrough(c, s, s1, s2);
    LeadsThrough(c, s, s2, r);
  }

  lemma DummyPut(c: Conf, s: State, t: Tid) returns (r: State)
    requires Holds(s, t) && s.threads[t].pc.In? && s.threads[t].pc.step.Suspend?
    ensures var p, sec := s.threads[t].pool, Seconds(c.suspension);
            var dummy := Backend(p, NoEndpoint, Suspended, "", "", s.threads[t].muxEp, s.now);
            && Leads(c, s, r) && r.now == s.now && r.pools == s.pools && r.shown == s.shown && r.mutex == s.mutex
            && r.backend == (if sec > 0 then s.backend[p := Entry(dummy, t, Some(s.now + 1000 * sec))] else s.backend - {p})
            && r.threads == s.threads[t := s.threads[t].(pc := In(ShowSuspended(s.threads[t].pc.step.reason)))]
  {
    hide Leads;
    var s1 := DummyStored(c, s, t);
    r := Apply(c, s1, DoSuspendTtl(t)).value;
    LeadsOn(c, s1, DoSuspendTtl(t));
    LeadsThrough(c, s, s1, r);
    assert s1.backend - {s.threads[t].pool} == s.backend - {s.threads[t].pool};
  }

  lemma DummyStored(c: Conf, s: State, t: Tid) returns (r: State)
    requires t in s.threads && s.threads[t].pc.In? && s.threads[t].pc.step.Suspend?
    ensures var p := s.threads[t].pool;
            var dummy := Backend(p, NoEndpoint, Suspended, "", "", s.threads[t].muxEp, s.now);
            && Leads(c, s, r) && r.now == s.now && r.pools == s.pools && r.shown == s.shown && r.mutex == s.mutex
            && r.backend == s.backend[p := Entry(dummy, t, None)]
            && r.threads == s.threads[t := s.threads[t].(pc := In(SuspendTtl(s.threads[t].pc.step.reason)))]
  {
    hide Leads;
    r := Apply(c, s, DoSuspend(t)).value;
    LeadsOn(c, s, DoSuspend(t));
  }

  lemma DummyShown(c: Conf, s: State, t: Tid) returns (r: State)
    requires Holds(s, t) && s.threads[t].pc.In? && s.threads[t].pc.step.ShowSuspended?
    ensures var p := s.threads[t].pool;
            var dummy := Backend(p, NoEndpoint, Suspended, "", "", s.threads[t].muxEp, s.now);
            && Leads(c, s, r) && r.now == s.now && r.pools == s.pools && r.shown == s.shown[p := Suspended]
            && r.mutex == s.mutex && r.backend == s.backend
            && r.threads == s.threads[t := s.threads[t].(pc := In(Release(Some(dummy))))]
  {
    hide Leads;
    r := Apply(c, s, DoShowSuspended(t)).value;
    LeadsOn(c, s, DoShowSuspended(t));
  }

  lemma ReadyEnds(c: Conf, s: State, t: Tid, pinger: Tid, access: string, secret: string) returns (r: State)
    requires Holds(s, t) && s.threads[t].pc.In? && s.threads[t].pc.step.Register?
    requires pinger !in s.threads && access != "" && secret != ""
    ensures var p, mux := s.threads[t].pool, s.threads[t].muxEp;
            var ready := Backend(p, HostPort(mux, s.threads[t].pc.step.port), Ready, access, secret, mux, s.now);
            && Leads(c, s, r) && r.now == s.now && r.pools == s.pools && r.shown == s.shown[p := Ready]
            && r.backend == s.backend[p := Entry(ready, pinger, None)]
            && p !in r.mutex && t in r.threads && r.threads[t].pc == Out(Answer(Some(ready)))
  {
    hide Leads;
    var s1 := ReadyPut(c, s, t, pinger, access, secret);
    var s2 := Apply(c, s1, DoShowReady(t)).value;
    LeadsOn(c, s1, DoShowReady(t));
    r := ReleaseStep(c, s2, t);
    LeadsThrough(c, s, s1, s2);
    LeadsThrough(c, s, s2, r);
  }

  lemma ReadyPut(c: Conf, s: State, t: Tid, pinger: Tid, access: string, secret: string) returns (r: State)
    requires Holds(s, t) && s.threads[t].pc.In? && s.threads[t].pc.step.Register?
    requires pinger !in s.threads && access != "" && secret != ""
    ensures var p, mux := s.threads[t].pool, s.threads[t].muxEp;
            var ready := Backend(p, HostPort(mux, s.threads[t].pc.step.port), Ready, access, secret, mux, s.now);
            && Leads(c, s, r) && r.now == s.now && r.pools == s.pools && r.shown == s.shown && r.mutex == s.mutex
            && r.backend == s.backend[p := Entry(ready, pinger, None)]
            && r.threads == s.threads[t := s.threads[t].(pc := In(ShowReady(ready)))]
                            [pinger := Thread(p, mux, Ping(PingTtl), false, s.now)]
  {
    hide Leads;
    var s1 := At(s, t, In(Publish(s.threads[t].pc.step.port)));
    assert Apply(c, s, DoRegister(t, false)) == Some(s1);
    LeadsOn(c, s, DoRegister(t, false));
    r := Apply(c, s1, DoPublish(t, pinger, access, secret)).value;
    LeadsOn(c, s1, DoPublish(t, pinger, access, secret));
    LeadsThrough(c, s, s1, r);
  }

  /** A start that nobody interrupts ends as the first outcome that is not a retry says,
      or with a busy server. */
  lemma StartEnds(c: Conf, s: State, t: Tid, ports: seq<int>, results: int -> S.Final,
                  pinger: Tid, access: string, secret: string) returns (r: State)
    requires Holds(s, t) && s.threads[t].pc == In(Try(ports)) && pinger !in s.threads && access != "" && secret != ""
    ensures var d := S.Decision(ports, results);
            var port := if d.state.Started? then ports[S.FirstDecided(ports, results).value] else 0;
            Leads(c, s, r) && Ended(c, s, r, t, d, port, access, secret)
  {
    var d := S.Decision(ports, results);
    var s1 := At(s, t, In(AfterTrial(ports, results)));
    hide Leads, Ended;
    TrialFollows(c, s, t, ports, results);
    if d.state.Started? {
      r := ReadyEnds(c, s1, t, pinger, access, secret);
      ReadyIsEnd(c, s, r, t, d, ports[S.FirstDecided(ports, results).value], pinger, access, secret);
    } else if d.state.Persistent? {
      r := MarkEnds(c, s1, t);
      MarkIsEnd(c, s, r, t, d, access, secret);
    } else {
      r := SuspendEnds(c, s1, t);
      SuspendIsEnd(c, s, r, t, d, access, secret);
    }
    LeadsThrough(c, s, s1, r);
  }

  lemma ReadyIsEnd(c: Conf, s: State, r: State, t: Tid, d: S.Final, port: int, pinger: Tid, access: string, secret: string)
    requires d.state.Started? && t in s.threads
    requires var p, mux := s.threads[t].pool, s.threads[t].muxEp;
             var ready := Backend(p, HostPort(mux, port), Ready, access, secret, mux, s.now);
             && r.now == s.now && r.pools == s.pools && r.shown == s.shown[p := Ready]
             && r.backend == s.backend[p := Entry(ready, pinger, None)]
             && p !in r.mutex && t in r.threads && r.threads[t].pc == Out(Answer(Some(ready)))
    ensures Ended(c, s, r, t, d, port, access, secret)
  {
  }

  lemma MarkIsEnd(c: Conf, s: State, r: State, t: Tid, d: S.Final, access: string, secret: string)
    requires d.state.Persistent? && t in s.threads
    requires r.now == s.now && r.backend == s.backend && r.shown == s.shown && r.pools == s.pools[s.threads[t].pool := true]
    requires s.threads[t].pool !in r.mutex && t in r.threads && r.threads[t].pc == Out(Answer(None))
    ensures Ended(c, s, r, t, d, 0, access, secret)
  {
  }

  lemma SuspendIsEnd(c: Conf, s: State, r: State, t: Tid, d: S.Final, access: string, secret: string)
    requires d.state.Transient? && t in s.threads
    requires var p, sec := s.threads[t].pool, Seconds(c.suspension);
             var dummy := Backend(p, NoEndpoint, Suspended, "", "", s.threads[t].muxEp, s.now);
             && r.now == s.now && r.pools == s.pools && r.shown == s.shown[p := Suspended]
             && r.backend == (if sec > 0 then s.backend[p := Entry(dummy, t, Some(s.now + 1000 * sec))] else s.backend - {p})
             && p !in r.mutex && t in r.threads && r.threads[t].pc == Out(Answer(Some(dummy)))
    ensures Ended(c, s, r, t, d, 0, access, secret)
  {
  }

  // ---- the pinger ----

  /** The miss counter of a pinger thread is that of the heartbeat loop, and it stops
      renewing for the same reasons; a renewal gives the record its life, and finds out
      that it is gone. */
  lemma BeatFollows(c: Conf, s: State, t: Tid, g: B.Settings, rounds: seq<B.Round>, k: nat)
    requires t in s.threads && k < |rounds| && g.tolerance >= 0
    requires s.threads[t].pc == Ping(Beat(B.Trailing(rounds[..k])))
    ensures Apply(c, s, DoBeat(t, rounds[k].status == B.HTTP_OK, g.tolerance, B.Idle(g, rounds, k))) ==
            Some(At(s, t, Ping(if B.Missed(g, rounds, k) || B.Idle(g, rounds, k) then DropMutex
                               else Renew(B.Trailing(rounds[..k + 1])))))
  {
    assert rounds[..k + 1][..k] == rounds[..k];
  }

  lemma RenewalIs(c: Conf, s: State, t: Tid)
    requires t in s.threads && s.threads[t].pc.Ping? && s.threads[t].pc.ping.Renew?
    ensures var p, m := s.threads[t].pool, s.threads[t].pc.ping.misses;
            && Apply(c, s, DoRenew(t)).Some?
            && var r := Apply(c, s, DoRenew(t)).value;
            && r.mutex == s.mutex && r.now == s.now
            && (p !in s.backend ==> r == At(s, t, Ping(DropMutex)))
            && (p in s.backend ==>
                  && r.threads == s.threads[t := s.threads[t].(pc := Ping(Beat(m)), entered := s.now)]
                  && r.backend == if BackendTtl(c) == 0 then s.backend - {p}
                                  else s.backend[p := s.backend[p].(expireAt := Some(s.now + 1000 * BackendTtl(c)))])
  {
  }

  /** A pinger that stops removes the mutex and the record of its pool, whose ever they are. */
  lemma StopRemoves(c: Conf, s: State, t: Tid)
    requires t in s.threads && s.threads[t].pc == Ping(DropMutex)
    ensures var p := s.threads[t].pool;
            && Apply(c, s, DoDropMutex(t)).Some?
            && var m := Apply(c, s, DoDropMutex(t)).value;
            && m.mutex == s.mutex - {p} && m.backend == s.backend && Apply(c, m, DoDropBackend(t)).Some?
            && var r := Apply(c, m, DoDropBackend(t)).value;
            && r.mutex == s.mutex - {p} && r.backend == s.backend - {p}
            && t in r.threads && r.threads[t].pc == Ping(Stopped)
  {
    MutexDropped(c, s, t);
    BackendDropped(c, Apply(c, s, DoDropMutex(t)).value, t);
  }

  lemma MutexDropped(c: Conf, s: State, t: Tid)
    requires t in s.threads && s.threads[t].pc == Ping(DropMutex)
    ensures Apply(c, s, DoDropMutex(t)).Some?
            && var m := Apply(c, s, DoDropMutex(t)).value;
            && m.mutex == s.mutex - {s.threads[t].pool} && m.backend == s.backend
            && t in m.threads && m.threads[t].pc == Ping(DropBackend) && m.threads[t].pool == s.threads[t].pool
  {
  }

  lemma BackendDropped(c: Conf, m: State, t: Tid)
    requires t in m.threads && m.threads[t].pc == Ping(DropBackend)
    ensures Apply(c, m, DoDropBackend(t)).Some?
            && var r := Apply(c, m, DoDropBackend(t)).value;
            && r.mutex == m.mutex && r.backend == m.backend - {m.threads[t].pool}
            && t in r.threads && r.threads[t].pc == Ping(Stopped)
  {
  }
}
