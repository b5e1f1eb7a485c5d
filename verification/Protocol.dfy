/**
 Starting and stopping backends (v2/lens3/manager.go, v2/lens3/multiplexer.go)
 as a step system.  Any number of request threads, on any number of Mux
 processes, and the pinger threads they spawn share only the keyval-db.  One
 database call is one step; time passes and keys expire between any two steps.
 Results of backend processes are arbitrary.
 */
module Protocol {
  import opened Records
  import opened Ports

  type PoolId = string
  type Tid = nat

  /** Times in milliseconds, ports as configured for one backend type. */
  datatype Conf = Conf(startTimeout: nat, suspension: nat, heartbeat: nat,
                       portMin: int, portMax: int, width: Width)

  /** duration_in_sec: the seconds given to EXPIRE are truncated. */
  function Seconds(ms: nat): nat { ms / 1000 }

  function MutexTtl(c: Conf): nat { Seconds(2 * c.startTimeout) }
  function BackendTtl(c: Conf): nat { Seconds(3 * c.heartbeat) }

  /** A key with its remaining life; `owner` is the thread that set it (a history tag). */
  datatype Lock = Lock(owner: Tid, expireAt: Option<nat>)
  datatype Entry = Entry(be: Backend, owner: Tid, expireAt: Option<nat>)

  datatype Outcome = ToStarted | ToRetry | ToTransient(reason: Reason) | ToPersistent(reason: Reason)

  /** ensure_backend_running, start_backend and the race waiter. */
  datatype Request =
    | Stamp | Look | Grab | Holder | Race
    | Answer(result: Option<Backend>) | Served(be: Backend) | Refused | Crashed

  /** start_backend_in_mutexed, with the mutex set. */
  datatype Starting =
    | SetTtl | GetPool | Scan | Read(keys: seq<PoolId>, used: seq<int>) | Try(ports: seq<int>)
    | Register(port: int) | Publish(port: int) | ShowReady(be: Backend)
    | Suspend(reason: Reason) | SuspendTtl(reason: Reason) | ShowSuspended(reason: Reason)
    | Mark(reason: Reason) | Release(result: Option<Backend>)

  /** ping_backend and stop_backend. */
  datatype Pinging = PingTtl | Beat(misses: nat) | Renew(misses: nat) | DropMutex | DropBackend | Stopped

  datatype Pc = Out(out: Request) | In(step: Starting) | Ping(ping: Pinging)

  datatype Thread = Thread(pool: PoolId, muxEp: string, pc: Pc, robbed: bool, entered: nat)

  datatype State = State(
    now: nat,
    mutex: map<PoolId, Lock>,        // dx:
    backend: map<PoolId, Entry>,     // de:
    shown: map<PoolId, PoolState>,   // ps:
    stamps: map<PoolId, nat>,        // pt:
    pools: map<PoolId, bool>,        // po:, true when inoperable
    threads: map<Tid, Thread>,
    wins: multiset<PoolId>,          // history: SETNX that set the key
    removals: multiset<PoolId>)      // history: removals that removed it

  datatype Action =
    | Arrive(t: Tid, pool: PoolId, muxEp: string)
    | DoStamp(t: Tid) | DoLook(t: Tid) | DoGrab(t: Tid) | DoHolder(t: Tid) | DoRace(t: Tid, timeout: bool)
    | DoSetTtl(t: Tid) | DoGetPool(t: Tid) | DoScan(t: Tid, keys: seq<PoolId>) | DoRead(t: Tid)
    | DoList(t: Tid, ports: seq<int>) | DoTry(t: Tid, outcome: Outcome)
    | DoRegister(t: Tid, shutdown: bool) | DoPublish(t: Tid, pinger: Tid, access: string, secret: string)
    | DoShowReady(t: Tid) | DoSuspend(t: Tid) | DoSuspendTtl(t: Tid) | DoShowSuspended(t: Tid)
    | DoMark(t: Tid, already: bool) | DoRelease(t: Tid) | DoAnswer(t: Tid)
    | DoPingTtl(t: Tid) | DoBeat(t: Tid, ok: bool, tolerance: nat, elapsed: bool) | DoRenew(t: Tid)
    | DoDropMutex(t: Tid) | DoDropBackend(t: Tid)
    | Tick(ms: nat) | ExpireMutex(pool: PoolId) | ExpireBackend(pool: PoolId)
    | AddPool(pool: PoolId) | RemovePool(pool: PoolId)

  // ---- database calls ----

  function At(s: State, t: Tid, pc: Pc): State
    requires t in s.threads
  {
    s.(threads := s.threads[t := s.threads[t].(pc := pc)])
  }

  /** The mutex key goes away, by whatever cause; its holder no longer has it. */
  function Unlock(s: State, p: PoolId): State {
    if p !in s.mutex then s
    else
      var h := s.mutex[p].owner;
      s.(mutex := s.mutex - {p},
      removals := s.removals + multiset{p},
      threads := if h in s.threads then s.threads[h := s.threads[h].(robbed := true)] else s.threads)
  }

  /** EXPIRE with zero seconds deletes the key at once. */
  function ExpireLock(s: State, p: PoolId, sec: nat): State {
    if p !in s.mutex then s
    else if sec == 0 then Unlock(s, p)
    else s.(mutex := s.mutex[p := s.mutex[p].(expireAt := Some(s.now + 1000 * sec))])
  }

  function ExpireEntry(s: State, p: PoolId, sec: nat): State {
    if p !in s.backend then s
    else if sec == 0 then s.(backend := s.backend - {p})
    else s.(backend := s.backend[p := s.backend[p].(expireAt := Some(s.now + 1000 * sec))])
  }

  function SetBackend(s: State, p: PoolId, be: Backend, owner: Tid): State {
    s.(backend := s.backend[p := Entry(be, owner, None)])
  }

  // ---- one step ----

  /** Time, expiry, arrivals, and pools registered and removed. */
  function ApplyWorld(s: State, a: Action): Option<State> {
    match a
    case Arrive(t, pool, muxEp) =>
      if t in s.threads then None
      else Some(s.(threads := s.threads[t := Thread(pool, muxEp, Out(Stamp), false, s.now)]))
    case Tick(ms) => Some(s.(now := s.now + ms))
    case ExpireMutex(p) =>
      if p in s.mutex && s.mutex[p].expireAt.Some? && s.mutex[p].expireAt.value <= s.now
      then Some(Unlock(s, p)) else None
    case ExpireBackend(p) =>
      if p in s.backend && s.backend[p].expireAt.Some? && s.backend[p].expireAt.value <= s.now
      then Some(s.(backend := s.backend - {p})) else None
    case AddPool(p) => if p in s.pools then None else Some(s.(pools := s.pools[p := false]))
    case RemovePool(p) => Some(s.(pools := s.pools - {p}))
    case _ => None
  }

  /** ensure_backend_running and wait_for_backend_by_race. */
  function NextRequest(s: State, a: Action, t: Tid): Option<Pc>
    requires t in s.threads
  {
    var pc, p := s.threads[t].pc, s.threads[t].pool;
    if !pc.Out? then None
    else
      match a
      case DoStamp(_) => if pc.out.Stamp? then Some(Out(Look)) else None
      case DoLook(_) =>
        if !pc.out.Look? then None
        else Some(Out(if p in s.backend then Answer(Some(s.backend[p].be)) else Grab))
      case DoHolder(_) => if pc.out.Holder? then Some(Out(Race)) else None
      case DoRace(_, timeout) =>
        if !pc.out.Race? then None
        else if p in s.backend then Some(Out(Answer(Some(s.backend[p].be))))
        else Some(Out(if timeout then Answer(None) else Race))
      case DoAnswer(_) =>
        if !pc.out.Answer? then None
        else if pc.out.result.None? then Some(Out(Refused))
        else
          var be := pc.out.result.value;
          (match be.state
           case Initial => Some(Out(Served(be)))
           case Ready => Some(Out(Served(be)))
           case Suspended => Some(Out(Refused))
           case Disabled => Some(Out(Crashed))
           case Inoperable => Some(Out(Crashed)))
      case _ => None
  }

  function ApplyRequest(s: State, a: Action, t: Tid): Option<State>
    requires t in s.threads
  {
    match NextRequest(s, a, t)
    case None => None
    case Some(pc) =>
      Some(if a.DoStamp? then At(s, t, pc).(stamps := s.stamps[s.threads[t].pool := s.now]) else At(s, t, pc))
  }

  /** start_backend: the calls on the mutex. */
  function ApplyLock(c: Conf, s: State, a: Action, t: Tid): Option<State>
    requires t in s.threads
  {
    var th := s.threads[t];
    var p := th.pool;
    match a
    case DoGrab(_) =>
      if !th.pc.Out? || !th.pc.out.Grab? then None
      else if p in s.mutex then Some(At(s, t, Out(Holder)))
      else
        Some(s.(mutex := s.mutex[p := Lock(t, None)],
             wins := s.wins + multiset{p},
             threads := s.threads[t := th.(pc := In(SetTtl), robbed := false, entered := s.now)]))
    case DoSetTtl(_) =>
      if !th.pc.In? || !th.pc.step.SetTtl? then None
      else Some(ExpireLock(s.(threads := s.threads[t := th.(pc := In(GetPool), entered := s.now)]), p, MutexTtl(c)))
    case DoRelease(_) =>
      if !th.pc.In? || !th.pc.step.Release? then None
      else Some(At(Unlock(s, p), t, Out(Answer(th.pc.step.result))))
    case _ => None
  }

  /** start_backend_in_mutexed up to a started process, a failure, or no port left. */
  function NextTry(c: Conf, s: State, a: Action, t: Tid): Option<Pc>
    requires t in s.threads
  {
    var th := s.threads[t];
    match a
    case DoGetPool(_) =>
      if !th.pc.In? || !th.pc.step.GetPool? then None
      else Some(In(if th.pool in s.pools then Scan else Release(None)))
    case DoScan(_, keys) =>
      if th.pc.In? && th.pc.step.Scan? && multiset(keys) == multiset(s.backend.Keys) then Some(In(Read(keys, []))) else None
    case DoRead(_) =>
      if !th.pc.In? || !th.pc.step.Read? || th.pc.step.keys == [] then None
      else
        var k, rest := th.pc.step.keys[0], th.pc.step.keys[1..];
        if k !in s.backend || s.backend[k].be.muxEp != th.muxEp || s.backend[k].be.state.Suspended?
        then Some(In(Read(rest, th.pc.step.used)))
        else if !s.backend[k].be.ep.HostPort? then Some(Out(Crashed))
        else Some(In(Read(rest, th.pc.step.used + [s.backend[k].be.ep.port])))
    case DoList(_, ports) =>
      if th.pc.In? && th.pc.step.Read? && th.pc.step.keys == []
         && multiset(ports) == multiset(FreePorts(c.portMin, c.portMax, c.width, th.pc.step.used))
      then Some(In(Try(ports))) else None
    case DoTry(_, outcome) =>
      if !th.pc.In? || !th.pc.step.Try? then None
      else if th.pc.step.ports == [] then Some(In(Suspend("server busy")))
      else
        (match outcome
         case ToStarted => Some(In(Register(th.pc.step.ports[0])))
         case ToRetry => Some(In(Try(th.pc.step.ports[1..])))
         case ToTransient(reason) => Some(In(Suspend(reason)))
         case ToPersistent(reason) => Some(In(Mark(reason))))
    case DoRegister(_, shutdown) =>
      if !th.pc.In? || !th.pc.step.Register? then None
      else Some(In(if shutdown then Release(None) else Publish(th.pc.step.port)))
    case _ => None
  }

  function ApplyTry(c: Conf, s: State, a: Action, t: Tid): Option<State>
    requires t in s.threads
  {
    match NextTry(c, s, a, t)
    case None => None
    case Some(pc) => Some(At(s, t, pc))
  }

  /** The publishing ends of start_backend_in_mutexed, suspend_pool and
      mark_pool_inoperable. */
  function ApplyPublish(c: Conf, s: State, a: Action, t: Tid): Option<State>
    requires t in s.threads
  {
    var th := s.threads[t];
    var p := th.pool;
    match a
    case DoPublish(_, pinger, access, secret) =>
      if !th.pc.In? || !th.pc.step.Publish? || pinger in s.threads || access == "" || secret == "" then None
      else
        var be := Backend(p, HostPort(th.muxEp, th.pc.step.port), Ready, access, secret, th.muxEp, s.now);
        Some(SetBackend(s, p, be, pinger).(
             threads := s.threads[t := th.(pc := In(ShowReady(be)))][pinger := Thread(p, th.muxEp, Ping(PingTtl), false, s.now)]))
    case DoShowReady(_) =>
      if !th.pc.In? || !th.pc.step.ShowReady? then None
      else Some(At(s, t, In(Release(Some(th.pc.step.be)))).(shown := s.shown[p := Ready]))
    case DoSuspend(_) =>
      if !th.pc.In? || !th.pc.step.Suspend? then None
      else
        var be := Backend(p, NoEndpoint, Suspended, "", "", th.muxEp, s.now);
        Some(SetBackend(At(s, t, In(SuspendTtl(th.pc.step.reason))), p, be, t))
    case DoSuspendTtl(_) =>
      if !th.pc.In? || !th.pc.step.SuspendTtl? then None
      else Some(ExpireEntry(At(s, t, In(ShowSuspended(th.pc.step.reason))), p, Seconds(c.suspension)))
    case DoShowSuspended(_) =>
      if !th.pc.In? || !th.pc.step.ShowSuspended? then None
      else
        var be := Backend(p, NoEndpoint, Suspended, "", "", th.muxEp, s.now);
        Some(At(s, t, In(Release(Some(be)))).(shown := s.shown[p := Suspended]))
    case DoMark(_, already) =>
      if !th.pc.In? || !th.pc.step.Mark? then None
      else Some(At(s, t, In(Release(None))).(pools := if already then s.pools else s.pools[p := true]))
    case _ => None
  }

  /** ping_backend and stop_backend. */
  function ApplyPinger(c: Conf, s: State, a: Action, t: Tid): Option<State>
    requires t in s.threads
  {
    var th := s.threads[t];
    var p := th.pool;
    match a
    case DoPingTtl(_) =>
      if !th.pc.Ping? || !th.pc.ping.PingTtl? then None
      else Some(ExpireEntry(s.(threads := s.threads[t := th.(pc := Ping(Beat(0)), entered := s.now)]), p, BackendTtl(c)))
    case DoBeat(_, ok, tolerance, elapsed) =>
      if !th.pc.Ping? || !th.pc.ping.Beat? then None
      else
        var m := if ok then 0 else th.pc.ping.misses + 1;
        Some(At(s, t, Ping(if m > tolerance || elapsed then DropMutex else Renew(m))))
    case DoRenew(_) =>
      if !th.pc.Ping? || !th.pc.ping.Renew? then None
      else if p !in s.backend then Some(At(s, t, Ping(DropMutex)))
      else Some(ExpireEntry(s.(threads := s.threads[t := th.(pc := Ping(Beat(th.pc.ping.misses)), entered := s.now)]), p, BackendTtl(c)))
    case DoDropMutex(_) => if th.pc.Ping? && th.pc.ping.DropMutex? then Some(At(Unlock(s, p), t, Ping(DropBackend))) else None
    case DoDropBackend(_) => if th.pc.Ping? && th.pc.ping.DropBackend? then Some(At(s, t, Ping(Stopped)).(backend := s.backend - {p})) else None
    case _ => None
  }

  predicate OfWorld(a: Action) {
    a.Arrive? || a.Tick? || a.ExpireMutex? || a.ExpireBackend? || a.AddPool? || a.RemovePool?
  }

  predicate OfRequest(a: Action) {
    a.DoStamp? || a.DoLook? || a.DoHolder? || a.DoRace? || a.DoAnswer?
  }

  predicate OfLock(a: Action) {
    a.DoGrab? || a.DoSetTtl? || a.DoRelease?
  }

  predicate OfTry(a: Action) {
    a.DoGetPool? || a.DoScan? || a.DoRead? || a.DoList? || a.DoTry? || a.DoRegister?
  }

  predicate OfPublish(a: Action) {
    a.DoPublish? || a.DoShowReady? || a.DoSuspend? || a.DoSuspendTtl? || a.DoShowSuspended? || a.DoMark?
  }

  /** One step; None when the action is not possible in this state. */
  function Apply(c: Conf, s: State, a: Action): Option<State> {
    if OfWorld(a) then ApplyWorld(s, a)
    else if a.t !in s.threads then None
    else if OfRequest(a) then ApplyRequest(s, a, a.t)
    else if OfLock(a) then ApplyLock(c, s, a, a.t)
    else if OfTry(a) then ApplyTry(c, s, a, a.t)
    else if OfPublish(a) then ApplyPublish(c, s, a, a.t)
    else ApplyPinger(c, s, a, a.t)
  }

  /** A run is a list of actions, each possible when it comes. */
  function Exec(c: Conf, s: State, acts: seq<Action>): Option<State>
    decreases |acts|
  {
    if acts == [] then Some(s)
    else
      match Apply(c, s, acts[0])
      case None => None
      case Some(s1) => Exec(c, s1, acts[1..])
  }

  const Start := State(0, map[], map[], map[], map[], map[], map[], multiset{}, multiset{})
}
