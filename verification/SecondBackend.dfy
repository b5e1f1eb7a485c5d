/**
 Why the rules of a careful run are there: a state in which one of them was broken
 leads to two backends of one pool.  And the design promise itself fails in a run
 without any expiry.
 */
module SecondBackend {
  import opened Records
  import opened Ports
  import opened Protocol
  import opened ProtocolSafety
  import opened Robbery
  import opened RecordLife
  import opened SingleBackend

  // ---- runs from one state to another ----

  lemma {:induction false} ExecAppend(c: Conf, s: State, before: seq<Action>, after: seq<Action>)
    requires Exec(c, s, before).Some?
    ensures Exec(c, s, before + after) == Exec(c, Exec(c, s, before).value, after)
    decreases |before|
  {
    hide Apply;
    if before == [] {
      assert before + after == after;
    } else {
      assert (before + after)[1..] == before[1..] + after;
      ExecAppend(c, Apply(c, s, before[0]).value, before[1..], after);
    }
  }

  lemma {:induction false} PeacefulAppend(c: Conf, s: State, before: seq<Action>, after: seq<Action>)
    requires Exec(c, s, before).Some? && Peaceful(c, s, before)
    requires Peaceful(c, Exec(c, s, before).value, after)
    ensures Peaceful(c, s, before + after)
    decreases |before|
  {
    hide Apply, Robs;
    if before == [] {
      assert before + after == after;
    } else {
      assert (before + after)[1..] == before[1..] + after;
      PeacefulAppend(c, Apply(c, s, before[0]).value, before[1..], after);
    }
  }

  ghost predicate Reaches(c: Conf, s: State, r: State) {
    exists acts :: Exec(c, s, acts) == Some(r)
  }

  /** By a run that robs nobody, unless the mutex has no life at all. */
  ghost predicate Leads(c: Conf, s: State, r: State) {
    exists acts :: Exec(c, s, acts) == Some(r) && (MutexTtl(c) > 0 ==> Peaceful(c, s, acts))
  }

  lemma OneStep(c: Conf, s: State, a: Action)
    requires Apply(c, s, a).Some?
    ensures Exec(c, s, [a]) == Apply(c, s, a)
    ensures !Robs(c, s, a) ==> Peaceful(c, s, [a])
  {
    hide Apply, Robs;
    var r := Apply(c, s, a).value;
    assert [a][1..] == [];
    assert Exec(c, r, []) == Some(r) && Peaceful(c, r, []);
  }

  lemma LeadsOn(c: Conf, s: State, a: Action)
    requires Apply(c, s, a).Some? && (MutexTtl(c) > 0 ==> !Robs(c, s, a))
    ensures Leads(c, s, Apply(c, s, a).value)
  {
    OneStep(c, s, a);
    hide Exec, Peaceful, Apply;
    assert Exec(c, s, [a]) == Some(Apply(c, s, a).value);
  }

  lemma ReachesOn(c: Conf, s: State, a: Action)
    requires Apply(c, s, a).Some?
    ensures Reaches(c, s, Apply(c, s, a).value)
  {
    OneStep(c, s, a);
    hide Exec, Peaceful, Apply;
    assert Exec(c, s, [a]) == Some(Apply(c, s, a).value);
  }

  lemma LeadsHere(c: Conf, s: State)
    ensures Leads(c, s, s)
  {
    assert Exec(c, s, []) == Some(s) && Peaceful(c, s, []);
  }

  lemma LeadsThrough(c: Conf, s: State, m: State, r: State)
    requires Leads(c, s, m) && Leads(c, m, r)
    ensures Leads(c, s, r)
  {
    hide Exec, Peaceful;
    var before :| Exec(c, s, before) == Some(m) && (MutexTtl(c) > 0 ==> Peaceful(c, s, before));
    var after :| Exec(c, m, after) == Some(r) && (MutexTtl(c) > 0 ==> Peaceful(c, m, after));
    ExecAppend(c, s, before, after);
    if MutexTtl(c) > 0 {
      PeacefulAppend(c, s, before, after);
    }
    assert Exec(c, s, before + after) == Some(r);
  }

  lemma ReachesThrough(c: Conf, s: State, m: State, r: State)
    requires Reaches(c, s, m) && (Reaches(c, m, r) || Leads(c, m, r))
    ensures Reaches(c, s, r)
  {
    hide Exec, Peaceful;
    var before :| Exec(c, s, before) == Some(m);
    var after :| Exec(c, m, after) == Some(r);
    ExecAppend(c, s, before, after);
    assert Exec(c, s, before + after) == Some(r);
  }

  // ---- how far a thread can get ----

  /** A request that finds no record goes for the mutex. */
  lemma ToGrab(c: Conf, s: State, t: Tid, p: PoolId, mux: string) returns (r: State)
    requires t !in s.threads && p !in s.backend
    ensures Leads(c, s, r)
    ensures r == s.(threads := s.threads[t := Thread(p, mux, Out(Grab), false, s.now)], stamps := s.stamps[p := s.now])
  {
    hide Leads;
    var s1 := Apply(c, s, Arrive(t, p, mux)).value;
    LeadsOn(c, s, Arrive(t, p, mux));
    r := Looked(c, s1, t);
    LeadsThrough(c, s, s1, r);
  }

  lemma Looked(c: Conf, s: State, t: Tid) returns (r: State)
    requires t in s.threads && s.threads[t].pc == Out(Stamp) && s.threads[t].pool !in s.backend
    ensures Leads(c, s, r)
    ensures r == At(s, t, Out(Grab)).(stamps := s.stamps[s.threads[t].pool := s.now])
  {
    hide Leads;
    var s1 := Apply(c, s, DoStamp(t)).value;
    LeadsOn(c, s, DoStamp(t));
    r := Apply(c, s1, DoLook(t)).value;
    LeadsOn(c, s1, DoLook(t));
    LeadsThrough(c, s, s1, r);
  }

  /** The state in which a thread has just won the mutex and set its life. */
  ghost predicate Won(c: Conf, s: State, r: State, t: Tid)
    requires t in s.threads
  {
    var p := s.threads[t].pool;
    && r.backend == s.backend && r.pools == s.pools && r.now == s.now
    && t in r.threads && r.threads == s.threads[t := r.threads[t]]
    && r.threads[t].pool == p && r.threads[t].muxEp == s.threads[t].muxEp && r.threads[t].entered == s.now
    && (MutexTtl(c) > 0 ==> !r.threads[t].robbed && r.mutex == s.mutex[p := Lock(t, Some(s.now + 1000 * MutexTtl(c)))])
    && (MutexTtl(c) == 0 ==> r.mutex == s.mutex)
  }

  lemma ToScan(c: Conf, s: State, t: Tid) returns (r: State)
    requires t in s.threads && s.threads[t].pc == Out(Grab)
    requires s.threads[t].pool !in s.mutex && s.threads[t].pool in s.pools
    ensures Leads(c, s, r) && Won(c, s, r, t) && r.threads[t].pc == In(Scan)
  {
    var s1 := Grabbed(c, s, t);
    var s2 := LifeSet(c, s1, t);
    r := At(s2, t, In(Scan));
    assert Apply(c, s2, DoGetPool(t)) == Some(r);
    LeadsOn(c, s2, DoGetPool(t));
    hide Leads, Apply;
    LeadsThrough(c, s, s1, s2);
    LeadsThrough(c, s, s2, r);
    assert MutexTtl(c) == 0 ==> s.mutex[s.threads[t].pool := Lock(t, None)] - {s.threads[t].pool} == s.mutex;
  }

  lemma Grabbed(c: Conf, s: State, t: Tid) returns (r: State)
    requires t in s.threads && s.threads[t].pc == Out(Grab) && s.threads[t].pool !in s.mutex
    ensures Leads(c, s, r)
    ensures r == s.(mutex := s.mutex[s.threads[t].pool := Lock(t, None)],
                    wins := s.wins + multiset{s.threads[t].pool},
                    threads := s.threads[t := s.threads[t].(pc := In(SetTtl), robbed := false, entered := s.now)])
  {
    r := Apply(c, s, DoGrab(t)).value;
    LeadsOn(c, s, DoGrab(t));
    hide Leads;
  }

  lemma LifeSet(c: Conf, s: State, t: Tid) returns (r: State)
    requires t in s.threads && s.threads[t].pc == In(SetTtl)
    requires s.threads[t].pool in s.mutex && s.mutex[s.threads[t].pool] == Lock(t, None)
    ensures Leads(c, s, r)
    ensures var p := s.threads[t].pool;
            && r.backend == s.backend && r.pools == s.pools && r.now == s.now
            && t in r.threads && r.threads == s.threads[t := r.threads[t]]
            && r.threads[t] == s.threads[t].(pc := In(GetPool), entered := s.now, robbed := r.threads[t].robbed)
            && (MutexTtl(c) > 0 ==> r.threads[t].robbed == s.threads[t].robbed
                                    && r.mutex == s.mutex[p := Lock(t, Some(s.now + 1000 * MutexTtl(c)))])
            && (MutexTtl(c) == 0 ==> r.mutex == s.mutex - {p})
  {
    r := Apply(c, s, DoSetTtl(t)).value;
    LeadsOn(c, s, DoSetTtl(t));
    hide Leads;
  }

  /** The port is taken by a backend that runs under the Mux. */
  ghost predicate Taken(backend: map<PoolId, Entry>, mux: string, i: int) {
    exists k :: k in backend && Mine(backend[k].be, mux) && backend[k].be.ep.HostPort? && backend[k].be.ep.port == i
  }

  /** Some block of ports is free for the backends in use under the Mux. */
  ghost predicate PortFree(c: Conf, backend: map<PoolId, Entry>, mux: string) {
    exists i :: Free(c.portMin, c.portMax, c.width, [], i) && !Taken(backend, mux, i)
  }

  /** All records are read; the ports in use under this Mux are collected. */
  lemma {:induction false} ToRead(c: Conf, s: State, t: Tid, keys: seq<PoolId>, used: seq<int>) returns (all: seq<int>)
    requires Published(c, s.backend) && t in s.threads && s.threads[t].pc == In(Read(keys, used))
    ensures Leads(c, s, At(s, t, In(Read([], all))))
    ensures forall i | i in all :: i in used || Taken(s.backend, s.threads[t].muxEp, i)
    decreases |keys|
  {
    hide Leads, Apply, Published, Taken;
    if keys == [] {
      all := used;
      assert s.threads == At(s, t, In(Read([], all))).threads;
      LeadsHere(c, s);
    } else {
      var more := ReadOne(c, s, t, keys, used);
      var s1 := At(s, t, In(Read(keys[1..], more)));
      all := ToRead(c, s1, t, keys[1..], more);
      var r := At(s, t, In(Read([], all)));
      assert At(s1, t, In(Read([], all))) == r;
      LeadsThrough(c, s, s1, r);
    }
  }

  lemma ReadOne(c: Conf, s: State, t: Tid, keys: seq<PoolId>, used: seq<int>) returns (more: seq<int>)
    requires Published(c, s.backend) && t in s.threads && s.threads[t].pc == In(Read(keys, used)) && keys != []
    ensures Leads(c, s, At(s, t, In(Read(keys[1..], more))))
    ensures forall i | i in more :: i in used || Taken(s.backend, s.threads[t].muxEp, i)
  {
    hide Leads;
    var k := keys[0];
    if k in s.backend && Mine(s.backend[k].be, s.threads[t].muxEp) {
      more := used + [s.backend[k].be.ep.port];
      assert Taken(s.backend, s.threads[t].muxEp, s.backend[k].be.ep.port);
    } else {
      more := used;
    }
    hide Taken;
    assert Apply(c, s, DoRead(t)) == Some(At(s, t, In(Read(keys[1..], more))));
    LeadsOn(c, s, DoRead(t));
  }

  lemma {:induction false} Enumerate(keys: set<PoolId>) returns (list: seq<PoolId>)
    ensures multiset(list) == multiset(keys)
    decreases |keys|
  {
    if keys == {} {
      list := [];
    } else {
      var k :| k in keys;
      var rest := Enumerate(keys - {k});
      list := [k] + rest;
      assert multiset(keys) == multiset{k} + multiset(keys - {k});
    }
  }

  /** From the scan to a list of ports that is not empty. */
  lemma ToTry(c: Conf, s: State, t: Tid) returns (ports: seq<int>)
    requires Published(c, s.backend) && t in s.threads && s.threads[t].pc == In(Scan)
    requires PortFree(c, s.backend, s.threads[t].muxEp)
    ensures ports != [] && Leads(c, s, At(s, t, In(Try(ports))))
  {
    hide Leads, Apply, Published;
    var keys := Scanned(c, s, t);
    var s1 := At(s, t, In(Read(keys, [])));
    var used := ToRead(c, s1, t, keys, []);
    var s2 := At(s, t, In(Read([], used)));
    assert At(s1, t, In(Read([], used))) == s2;
    ports := FreePorts(c.portMin, c.portMax, c.width, used);
    var r := At(s, t, In(Try(ports)));
    Listed(c, s2, t, used);
    assert At(s2, t, In(Try(ports))) == r;
    LeadsThrough(c, s, s1, s2);
    LeadsThrough(c, s, s2, r);
    FreePortsAre(c.portMin, c.portMax, c.width, used);
    var i :| Free(c.portMin, c.portMax, c.width, [], i) && !Taken(s.backend, s.threads[t].muxEp, i);
    hide Taken;
    assert i in ports;
  }

  lemma Scanned(c: Conf, s: State, t: Tid) returns (keys: seq<PoolId>)
    requires t in s.threads && s.threads[t].pc == In(Scan)
    ensures Leads(c, s, At(s, t, In(Read(keys, []))))
  {
    hide Leads;
    keys := Enumerate(s.backend.Keys);
    assert Apply(c, s, DoScan(t, keys)) == Some(At(s, t, In(Read(keys, []))));
    LeadsOn(c, s, DoScan(t, keys));
  }

  lemma Listed(c: Conf, s: State, t: Tid, used: seq<int>)
    requires t in s.threads && s.threads[t].pc == In(Read([], used))
    ensures Leads(c, s, At(s, t, In(Try(FreePorts(c.portMin, c.portMax, c.width, used)))))
  {
    hide Leads, FreePorts;
    var ports := FreePorts(c.portMin, c.portMax, c.width, used);
    assert Apply(c, s, DoList(t, ports)) == Some(At(s, t, In(Try(ports))));
    LeadsOn(c, s, DoList(t, ports));
  }

  /** A thread that goes for a free mutex can be tried ports for. */
  lemma GrabToTry(c: Conf, s: State, t: Tid) returns (r: State)
    requires Published(c, s.backend) && t in s.threads && s.threads[t].pc == Out(Grab)
    requires s.threads[t].pool !in s.mutex && s.threads[t].pool in s.pools
    requires PortFree(c, s.backend, s.threads[t].muxEp)
    ensures Leads(c, s, r) && Won(c, s, r, t)
    ensures r.threads[t].pc.In? && r.threads[t].pc.step.Try? && r.threads[t].pc.step.ports != []
  {
    hide Leads, Published, PortFree;
    var s1 := ToScan(c, s, t);
    var ports := ToTry(c, s1, t);
    r := At(s1, t, In(Try(ports)));
    LeadsThrough(c, s, s1, r);
  }

  /** And can start a backend, whatever else is up. */
  lemma SecondStart(c: Conf, s: State, t: Tid) returns (r: State)
    requires Published(c, s.backend) && t in s.threads && s.threads[t].pc == Out(Grab)
    requires s.threads[t].pool !in s.mutex && s.threads[t].pool in s.pools
    requires PortFree(c, s.backend, s.threads[t].muxEp)
    ensures Leads(c, s, r) && Won(c, s, r, t)
    ensures r.threads[t].pc.In? && r.threads[t].pc.step.Register?
  {
    hide Leads, Published, PortFree;
    var s1 := GrabToTry(c, s, t);
    r := At(s1, t, In(Register(s1.threads[t].pc.step.ports[0])));
    assert Apply(c, s1, DoTry(t, ToStarted)) == Some(r);
    LeadsOn(c, s1, DoTry(t, ToStarted));
    LeadsThrough(c, s, s1, r);
  }

  // ---- two backends ----

  /** Winning the mutex while a backend is up: the rule on wins is needed. */
  lemma UncarefulWinMakesTwo(c: Conf, s: State, t: Tid, u: Tid) returns (r: State)
    requires Published(c, s.backend) && t in s.threads && u in s.threads && s.threads[t].pool == s.threads[u].pool
    requires s.threads[t].pc == Out(Grab) && Up(s.threads[u])
    requires s.threads[t].pool !in s.mutex && s.threads[t].pool in s.pools
    requires PortFree(c, s.backend, s.threads[t].muxEp)
    ensures Leads(c, s, r) && !SingleUp(r)
  {
    hide Leads, Published, PortFree;
    r := SecondStart(c, s, t);
    assert t != u && r.threads[u] == s.threads[u] && Up(r.threads[t]);
  }

  /** A backend that is up with neither a record nor a mutex does not keep a second
      one from starting. */
  lemma UnprotectedMakesTwo(c: Conf, s: State, u: Tid, t: Tid, mux: string) returns (r: State)
    requires Published(c, s.backend) && u in s.threads && t !in s.threads && Up(s.threads[u])
    requires s.threads[u].pool !in s.mutex && s.threads[u].pool !in s.backend && s.threads[u].pool in s.pools
    requires PortFree(c, s.backend, mux)
    ensures Leads(c, s, r) && !SingleUp(r)
  {
    hide Leads, Published, PortFree;
    var s1 := ToGrab(c, s, t, s.threads[u].pool, mux);
    r := UncarefulWinMakesTwo(c, s1, t, u);
    LeadsThrough(c, s, s1, r);
  }

  /** The rule on robbery is needed: once the key of a thread that has started a
      backend is taken away, a second one can be started. */
  lemma RobberyMakesTwo(c: Conf, s: State, a: Action, u: Tid, t: Tid, mux: string) returns (r: State)
    requires Inv(c, s) && u in s.threads && t !in s.threads && s.threads[u].pc.In? && Up(s.threads[u])
    requires var p := s.threads[u].pool;
             && p in s.mutex && p !in s.backend && p in s.pools
             && (a == ExpireMutex(p) || (a.DoDropMutex? && a.t in s.threads && s.threads[a.t].pool == p))
    requires Apply(c, s, a).Some? && PortFree(c, s.backend, mux)
    ensures Robs(c, s, a) && Leads(c, Apply(c, s, a).value, r) && !SingleUp(r)
  {
    var s1 := Apply(c, s, a).value;
    assert Published(c, s.backend);
    hide Inv, Leads, Published, PortFree;
    RobbedState(c, s, a, u);
    r := UnprotectedMakesTwo(c, s1, u, t, mux);
  }

  lemma RobbedState(c: Conf, s: State, a: Action, u: Tid)
    requires u in s.threads && s.threads[u].pc.In? && s.threads[u].pool in s.mutex
    requires a == ExpireMutex(s.threads[u].pool) || (a.DoDropMutex? && a.t in s.threads && s.threads[a.t].pool == s.threads[u].pool)
    requires Apply(c, s, a).Some?
    ensures var r := Apply(c, s, a).value;
            && r.backend == s.backend && r.pools == s.pools && r.mutex == s.mutex - {s.threads[u].pool}
            && r.threads.Keys == s.threads.Keys
            && r.threads[u].pc == s.threads[u].pc && r.threads[u].pool == s.threads[u].pool
  {
  }

  /** The rule on time is needed: when the record of a pinged backend outlives its
      expiry, it goes, and a second backend can be started. */
  lemma LateRenewalMakesTwo(c: Conf, s: State, u: Tid, ms: nat, t: Tid, mux: string) returns (r: State)
    requires Inv(c, s) && u in s.threads && t !in s.threads && Pinger(s.threads[u])
    requires var p := s.threads[u].pool;
             && p !in s.mutex && p in s.pools
             && p in s.backend && s.backend[p].expireAt.Some? && s.backend[p].expireAt.value <= s.now + ms
             && PortFree(c, s.backend - {p}, mux)
    ensures Leads(c, s, r) && !SingleUp(r)
  {
    var p := s.threads[u].pool;
    PublishedShrinks(c, s.backend, p);
    hide Inv, Leads, Published, PortFree;
    var s1 := Expired(c, s, p, ms);
    r := UnprotectedMakesTwo(c, s1, u, t, mux);
    LeadsThrough(c, s, s1, r);
  }

  lemma Expired(c: Conf, s: State, p: PoolId, ms: nat) returns (r: State)
    requires p in s.backend && s.backend[p].expireAt.Some? && s.backend[p].expireAt.value <= s.now + ms
    ensures Leads(c, s, r) && r == s.(now := s.now + ms, backend := s.backend - {p})
  {
    hide Leads;
    var s1 := Apply(c, s, Tick(ms)).value;
    r := Apply(c, s1, ExpireBackend(p)).value;
    LeadsOn(c, s, Tick(ms));
    LeadsOn(c, s1, ExpireBackend(p));
    LeadsThrough(c, s, s1, r);
  }

  // ---- runs from the start ----

  lemma WithPool(c: Conf) returns (s: State)
    ensures Leads(c, Start, s) && s == Start.(pools := map["p" := false])
  {
    s := Apply(c, Start, AddPool("p")).value;
    LeadsOn(c, Start, AddPool("p"));
    hide Leads;
    assert Start.pools["p" := false] == map["p" := false];
  }

  lemma FirstStart(c: Conf) returns (s: State)
    requires PortFree(c, map[], "m1")
    ensures Leads(c, Start, s) && s.backend == map[] && "p" in s.pools && s.threads.Keys == {1}
    ensures s.threads[1].pool == "p" && s.threads[1].pc.In? && s.threads[1].pc.step.Register?
    ensures MutexTtl(c) == 0 ==> s.mutex == map[]
  {
    hide Leads, PortFree;
    var s0 := WithPool(c);
    var s1 := ToGrab(c, s0, 1, "p", "m1");
    s := SecondStart(c, s1, 1);
    LeadsThrough(c, Start, s0, s1);
    LeadsThrough(c, Start, s1, s);
  }

  /** With a start timeout under half a second the mutex has no life, and two
      backends can start. */
  lemma NoLifeMakesTwo(c: Conf) returns (r: State)
    requires c.startTimeout < 500 && PortFree(c, map[], "m1")
    ensures Leads(c, Start, r) && !SingleUp(r)
  {
    hide Leads, PortFree;
    var s := FirstStart(c);
    r := UnprotectedMakesTwo(c, s, 1, 2, "m1");
    LeadsThrough(c, Start, s, r);
  }

  /** Two requests for one pool, on two Muxes, that both found no record. */
  lemma TwoRequests(c: Conf) returns (s: State)
    ensures Leads(c, Start, s) && s.now == 0 && s.mutex == map[] && s.backend == map[] && s.pools == map["p" := false]
    ensures s.threads == map[1 := Thread("p", "m1", Out(Grab), false, 0), 2 := Thread("p", "m2", Out(Grab), false, 0)]
  {
    hide Leads;
    var s0 := WithPool(c);
    var s1 := ToGrab(c, s0, 1, "p", "m1");
    s := ToGrab(c, s1, 2, "p", "m2");
    LeadsThrough(c, Start, s0, s1);
    LeadsThrough(c, Start, s1, s);
  }

  /** The rest of a start: register and publish. */
  lemma ToPublish(c: Conf, s: State, t: Tid, pinger: Tid) returns (r: State)
    requires t in s.threads && pinger !in s.threads && s.threads[t].pc.In? && s.threads[t].pc.step.Register?
    ensures Leads(c, s, r)
    ensures var p := s.threads[t].pool;
            && r.now == s.now && r.pools == s.pools && r.mutex == s.mutex
            && p in r.backend && r.backend == s.backend[p := r.backend[p]]
            && r.backend[p].owner == pinger && r.backend[p].expireAt.None?
            && r.backend[p].be.ep == HostPort(s.threads[t].muxEp, s.threads[t].pc.step.port)
            && r.backend[p].be.muxEp == s.threads[t].muxEp
            && r.threads == s.threads[t := s.threads[t].(pc := In(ShowReady(r.backend[p].be)))]
                            [pinger := Thread(p, s.threads[t].muxEp, Ping(PingTtl), false, s.now)]
  {
    var s1 := At(s, t, In(Publish(s.threads[t].pc.step.port)));
    assert Apply(c, s, DoRegister(t, false)) == Some(s1);
    r := Apply(c, s1, DoPublish(t, pinger, "a", "b")).value;
    LeadsOn(c, s, DoRegister(t, false));
    LeadsOn(c, s1, DoPublish(t, pinger, "a", "b"));
    hide Leads;
    LeadsThrough(c, s, s1, r);
  }

  /** The state is shown and the mutex released. */
  lemma ToRelease(c: Conf, s: State, t: Tid) returns (r: State)
    requires t in s.threads && s.threads[t].pc.In? && s.threads[t].pc.step.ShowReady?
    requires s.threads[t].pool in s.mutex && s.mutex[s.threads[t].pool].owner == t
    ensures Leads(c, s, r)
    ensures r.pools == s.pools && r.mutex == s.mutex - {s.threads[t].pool} && r.backend == s.backend
    ensures t in r.threads && r.threads == s.threads[t := r.threads[t]]
  {
    var s1 := Apply(c, s, DoShowReady(t)).value;
    r := Apply(c, s1, DoRelease(t)).value;
    LeadsOn(c, s, DoShowReady(t));
    LeadsOn(c, s1, DoRelease(t));
    hide Leads;
    LeadsThrough(c, s, s1, r);
  }

  /** The promise of the design notes fails in a run without any expiry. */
  lemma MutexIsNotEnough()
    ensures exists c: Conf, acts: seq<Action> ::
              Peaceful(c, Start, acts) && Exec(c, Start, acts).Some? && !SingleUp(Exec(c, Start, acts).value)
  {
    var c := Conf(10000, 1000, 60000, 9000, 9009, 1);
    PortsOf(c);
    hide Leads, Exec, Peaceful, Apply, PortFree, SingleUp;
    var s := FirstPublished(c);
    PublishedWhereLed(c, s);
    var r := UncarefulWinMakesTwo(c, s, 2, 3);
    LeadsThrough(c, Start, s, r);
    LedRun(c, r);
  }

  lemma PortsOf(c: Conf)
    requires c.portMin == 9000 && c.portMax == 9009 && c.width == 1
    ensures PortFree(c, map[], "m1")
    ensures forall backend: map<PoolId, Entry> | (forall k | k in backend :: backend[k].be.muxEp == "m1") :: PortFree(c, backend, "m2")
  {
    assert Free(c.portMin, c.portMax, c.width, [], 9000);
    assert !Taken(map[], "m1", 9000);
    assert "m1"[1] != "m2"[1];
    forall backend: map<PoolId, Entry> | forall k | k in backend :: backend[k].be.muxEp == "m1"
      ensures PortFree(c, backend, "m2")
    {
      assert !Taken(backend, "m2", 9000);
    }
  }

  /** The first of two requests has its backend published; the other one still goes
      for the mutex, which is free again. */
  lemma FirstPublished(c: Conf) returns (s: State)
    requires MutexTtl(c) > 0 && PortFree(c, map[], "m1")
    ensures Leads(c, Start, s) && s.mutex == map[] && "p" in s.pools && s.backend.Keys == {"p"} && s.backend["p"].be.muxEp == "m1"
    ensures 2 in s.threads && s.threads[2] == Thread("p", "m2", Out(Grab), false, 0)
    ensures 3 in s.threads && s.threads[3].pool == "p" && Pinger(s.threads[3])
  {
    hide Leads, PortFree;
    var s0 := TwoRequests(c);
    var s1 := SecondStart(c, s0, 1);
    var s2 := ToPublish(c, s1, 1, 3);
    s := ToRelease(c, s2, 1);
    LeadsThrough(c, Start, s0, s1);
    LeadsThrough(c, Start, s1, s2);
    LeadsThrough(c, Start, s2, s);
  }

  lemma PublishedWhereLed(c: Conf, s: State)
    requires Leads(c, Start, s) || Reaches(c, Start, s)
    ensures Inv(c, s) && Published(c, s.backend)
  {
    var acts :| Exec(c, Start, acts) == Some(s);
    StartInv(c);
    RunKeepsInv(c, Start, acts);
  }

  lemma LedRun(c: Conf, r: State)
    requires MutexTtl(c) > 0 && Leads(c, Start, r) && !SingleUp(r)
    ensures exists acts: seq<Action> ::
              Peaceful(c, Start, acts) && Exec(c, Start, acts).Some? && !SingleUp(Exec(c, Start, acts).value)
  {
    hide Exec, Peaceful, SingleUp;
    var acts :| Exec(c, Start, acts) == Some(r) && Peaceful(c, Start, acts);
    assert !SingleUp(Exec(c, Start, acts).value);
  }

  // ---- a robbed thread and the record of another ----

  /** A thread that set a dummy record and lost the mutex cuts the life of the record
      that was published meanwhile down to its own suspension time. */
  lemma RobbedThreadShortens(c: Conf, s: State, t: Tid) returns (r: State)
    requires t in s.threads && Suspending(s.threads[t]) && s.threads[t].pool in s.backend && Seconds(c.suspension) > 0
    ensures Leads(c, s, r) && r.now == s.now + 1000 * Seconds(c.suspension)
    ensures var p := s.threads[t].pool;
            && Apply(c, r, ExpireBackend(p)).Some?
            && r.backend[p].owner == s.backend[p].owner
            && (forall u | u in s.threads && u != t :: u in r.threads && r.threads[u] == s.threads[u])
  {
    hide Leads;
    var p, sec := s.threads[t].pool, Seconds(c.suspension);
    var s1 := Apply(c, s, DoSuspendTtl(t)).value;
    LeadsOn(c, s, DoSuspendTtl(t));
    r := Apply(c, s1, Tick(1000 * sec)).value;
    LeadsOn(c, s1, Tick(1000 * sec));
    LeadsThrough(c, s, s1, r);
  }

  /** A thread that failed to start and is about to suspend its pool loses the mutex. */
  lemma RobbedAtSuspend(c: Conf) returns (s: State)
    requires c.startTimeout == 500 && PortFree(c, map[], "m1")
    ensures Reaches(c, Start, s) && s.now == 1000 && s.mutex == map[] && s.backend == map[] && "p" in s.pools
    ensures s.threads.Keys == {1} && s.threads[1].pool == "p" && s.threads[1].pc == In(Suspend("x"))
  {
    hide Leads, PortFree, Reaches;
    var s0 := WithPool(c);
    var s1 := ToGrab(c, s0, 1, "p", "m1");
    var s2 := GrabToTry(c, s1, 1);
    LeadsThrough(c, Start, s0, s1);
    LeadsThrough(c, Start, s1, s2);
    LedIsReached(c, Start, s2);
    s := Robbed(c, s2);
    ReachesThrough(c, Start, s2, s);
  }

  lemma LedIsReached(c: Conf, s: State, r: State)
    requires Leads(c, s, r)
    ensures Reaches(c, s, r)
  {
  }

  lemma Robbed(c: Conf, s: State) returns (r: State)
    requires s.now == 0 && s.mutex == map["p" := Lock(1, Some(1000))] && s.threads.Keys == {1}
    requires s.threads[1].pc.In? && s.threads[1].pc.step.Try? && s.threads[1].pc.step.ports != []
    ensures Reaches(c, s, r) && r.now == 1000 && r.mutex == map[] && r.backend == s.backend && r.pools == s.pools
    ensures r.threads.Keys == {1} && r.threads[1].pool == s.threads[1].pool && r.threads[1].pc == In(Suspend("x"))
  {
    hide Reaches;
    var s1 := At(s, 1, In(Suspend("x")));
    assert Apply(c, s, DoTry(1, ToTransient("x"))) == Some(s1);
    ReachesOn(c, s, DoTry(1, ToTransient("x")));
    var s2 := Apply(c, s1, Tick(1000)).value;
    ReachesOn(c, s1, Tick(1000));
    r := Apply(c, s2, ExpireMutex("p")).value;
    ReachesOn(c, s2, ExpireMutex("p"));
    ReachesThrough(c, s, s1, s2);
    ReachesThrough(c, s, s2, r);
  }

  /** It then sets its dummy record, and the thread that won the mutex after it
      publishes a backend, whose pinger gives the record its life. */
  lemma OverDummy(c: Conf, s: State) returns (r: State)
    requires s.backend == map[] && s.mutex == map[] && "p" in s.pools && PortFree(c, map[], "m1") && MutexTtl(c) > 0 && BackendTtl(c) > 0
    requires s.threads.Keys == {1} && s.threads[1].pool == "p" && s.threads[1].pc == In(Suspend("x"))
    ensures Leads(c, s, r) && r.now == s.now && 1 in r.threads && Suspending(r.threads[1]) && r.threads[1].pool == "p"
    ensures "p" in r.backend && r.backend["p"].owner == 3
    ensures 3 in r.threads && Pinger(r.threads[3]) && r.threads[3].entered == s.now
  {
    hide Leads, PortFree;
    var s1 := ToGrab(c, s, 2, "p", "m1");
    var s2 := SecondStart(c, s1, 2);
    var s3 := DummySet(c, s2, 1);
    var s4 := ToPublish(c, s3, 2, 3);
    r := LifeGiven(c, s4, 3);
    LeadsThrough(c, s, s1, s2);
    LeadsThrough(c, s, s2, s3);
    LeadsThrough(c, s, s3, s4);
    LeadsThrough(c, s, s4, r);
  }

  lemma DummySet(c: Conf, s: State, t: Tid) returns (r: State)
    requires t in s.threads && s.threads[t].pc == In(Suspend("x"))
    ensures Leads(c, s, r) && r.now == s.now && r.threads == s.threads[t := s.threads[t].(pc := In(SuspendTtl("x")))]
  {
    hide Leads;
    r := Apply(c, s, DoSuspend(t)).value;
    LeadsOn(c, s, DoSuspend(t));
  }

  lemma LifeGiven(c: Conf, s: State, t: Tid) returns (r: State)
    requires t in s.threads && s.threads[t].pc == Ping(PingTtl) && s.threads[t].pool in s.backend && BackendTtl(c) > 0
    ensures Leads(c, s, r) && r.now == s.now
    ensures r.threads == s.threads[t := s.threads[t].(pc := Ping(Beat(0)), entered := s.now)]
    ensures s.threads[t].pool in r.backend && r.backend[s.threads[t].pool].owner == s.backend[s.threads[t].pool].owner
  {
    hide Leads;
    r := Apply(c, s, DoPingTtl(t)).value;
    LeadsOn(c, s, DoPingTtl(t));
  }

  /** After a robbery the record of a pinged backend can expire long before its life
      is over: here after one second of a hundred and eighty. */
  lemma RobberyShortensRecord()
    ensures exists c: Conf, acts: seq<Action>, p: PoolId ::
              && Exec(c, Start, acts).Some?
              && var s := Exec(c, Start, acts).value;
              && Apply(c, s, ExpireBackend(p)).Some?
              && s.backend[p].owner in s.threads && Pinger(s.threads[s.backend[p].owner])
              && s.now < s.threads[s.backend[p].owner].entered + 1000 * BackendTtl(c)
  {
    var c := Conf(500, 1000, 60000, 9000, 9009, 1);
    PortsOf(c);
    hide PortFree, Leads;
    var s1 := RobbedAtSuspend(c);
    var s2 := OverDummy(c, s1);
    var s3 := RobbedThreadShortens(c, s2, 1);
    LeadsThrough(c, s1, s2, s3);
    ReachesThrough(c, Start, s1, s3);
    ShortenedRun(c, s3, "p");
  }

  lemma ShortenedRun(c: Conf, s: State, p: PoolId)
    requires Reaches(c, Start, s) && Apply(c, s, ExpireBackend(p)).Some?
    requires s.backend[p].owner in s.threads && Pinger(s.threads[s.backend[p].owner])
    requires s.now < s.threads[s.backend[p].owner].entered + 1000 * BackendTtl(c)
    ensures exists c: Conf, acts: seq<Action>, p: PoolId ::
              && Exec(c, Start, acts).Some?
              && var s := Exec(c, Start, acts).value;
              && Apply(c, s, ExpireBackend(p)).Some?
              && s.backend[p].owner in s.threads && Pinger(s.threads[s.backend[p].owner])
              && s.now < s.threads[s.backend[p].owner].entered + 1000 * BackendTtl(c)
  {
    hide Exec, Pinger;
    var acts :| Exec(c, Start, acts) == Some(s);
    assert Exec(c, Start, acts).Some? && Apply(c, Exec(c, Start, acts).value, ExpireBackend(p)).Some?;
  }
}
