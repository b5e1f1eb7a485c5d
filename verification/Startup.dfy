/**
 Starting one backend process (v2/lens3/manager.go): the loop that reads its
 messages, and the loop over the available ports.  What a process writes, and
 when the timer fires, is an arbitrary sequence of events.
 */
module Startup {
  import opened Records

  datatype StartState = Ongoing | Started | ToRetry | Transient | Persistent

  datatype StartResult = StartResult(state: StartState, reason: Reason)

  /** A result that ends a start. */
  type Final = r: StartResult | !r.state.Ongoing? witness StartResult(Started, "-")

  const NORMAL := "-"
  const SERVER_BUSY := "server busy"
  const START_TIMEOUT := "backend start timeout"
  const PIPE_CLOSED := "pipe closed"
  const FLOODING := "stdout/stderr flooding"
  const MESSAGE_LIMIT := 500

  datatype Stream = Stdout | Stderr

  /** What a select finds: a line, a closed channel, nothing for now, or the timer. */
  datatype Event = Line(stream: Stream, text: string) | Closed | Idle | Timeout

  /** The lines of one stream, in order. */
  function Lines(events: seq<Event>, stream: Stream): seq<string> {
    if events == [] then []
    else
      var front := Lines(events[..|events| - 1], stream);
      var last := events[|events| - 1];
      if last.Line? && last.stream == stream then front + [last.text] else front
  }

  lemma LinesNext(events: seq<Event>, k: nat, stream: Stream)
    requires k < |events|
    ensures Lines(events[..k + 1], stream) ==
            Lines(events[..k], stream) + (if events[k].Line? && events[k].stream == stream then [events[k].text] else [])
  {
    assert events[..k + 1][..k] == events[..k];
  }

  /** A stream on which nothing has been decided yet. */
  predicate Undecided(check: (Stream, seq<string>) -> StartResult, stream: Stream, lines: seq<string>) {
    lines == [] || check(stream, lines).state.Ongoing?
  }

  /** The inner loop of wait_for_backend_come_up: takes what is available now. */
  method Drain(events: seq<Event>, from: nat, out0: seq<string>, err0: seq<string>)
    returns (out: seq<string>, err: seq<string>, next: nat)
    requires 0 < from < |events| && events[|events| - 1].Timeout?
    requires out0 == Lines(events[..from], Stdout) && err0 == Lines(events[..from], Stderr)
    requires |out0| <= MESSAGE_LIMIT && |err0| <= MESSAGE_LIMIT && |out0| + |err0| < 2 * MESSAGE_LIMIT
    ensures from <= next < |events|
    ensures out == Lines(events[..next], Stdout) && err == Lines(events[..next], Stderr)
    ensures |out| <= MESSAGE_LIMIT && |err| <= MESSAGE_LIMIT && |out| + |err| < 2 * MESSAGE_LIMIT
    ensures |out| >= |out0| && |err| >= |err0|
    ensures |out| == |out0| ==> out == out0
    ensures |err| == |err0| ==> err == err0
  {
    out, err, next := out0, err0, from;
    while |out| < MESSAGE_LIMIT && |err| < MESSAGE_LIMIT
      invariant from <= next < |events|
      invariant out == Lines(events[..next], Stdout) && err == Lines(events[..next], Stderr)
      invariant |out| <= MESSAGE_LIMIT && |err| <= MESSAGE_LIMIT && |out| + |err| < 2 * MESSAGE_LIMIT
      invariant |out| >= |out0| && |err| >= |err0|
      invariant |out| == |out0| ==> out == out0
      invariant |err| == |err0| ==> err == err0
      decreases |events| - next
    {
      LinesNext(events, next, Stdout);
      LinesNext(events, next, Stderr);
      match events[next] {
        case Line(Stdout, text) => out := out + [text];
        case Line(Stderr, text) => err := err + [text];
        case Timeout => return;
        case _ =>
          next := next + 1;
          return;
      }
      next := next + 1;
    }
  }

  /** wait_for_backend_come_up: always ends with a final result; never keeps more
      than 500 lines of a stream or 999 in all; the kept lines are those consumed;
      and the result is the first decision on them, or else tells which of a closed
      pipe, a flood and the timer came without one. */
  method WaitForComeUp(events: seq<Event>, check: (Stream, seq<string>) -> StartResult)
    returns (r: Final, out: seq<string>, err: seq<string>, used: nat)
    requires events != [] && events[|events| - 1].Timeout?
    ensures used <= |events|
    ensures out == Lines(events[..used], Stdout) && err == Lines(events[..used], Stderr)
    ensures |out| <= MESSAGE_LIMIT && |err| <= MESSAGE_LIMIT && |out| + |err| <= 999
    ensures !Undecided(check, Stdout, out) ==> r == check(Stdout, out)
    ensures Undecided(check, Stdout, out) && !Undecided(check, Stderr, err) ==> r == check(Stderr, err)
    ensures Undecided(check, Stdout, out) && Undecided(check, Stderr, err) ==>
              || (r == StartResult(Transient, START_TIMEOUT) && used < |events| && events[used].Timeout?)
              || (r == StartResult(Persistent, PIPE_CLOSED) && used < |events| && events[used].Closed?)
              || (r == StartResult(Persistent, FLOODING) && (|out| == MESSAGE_LIMIT || |err| == MESSAGE_LIMIT))
  {
    out, err, used := [], [], 0;
    while true
      invariant used < |events|
      invariant out == Lines(events[..used], Stdout) && err == Lines(events[..used], Stderr)
      invariant |out| < MESSAGE_LIMIT && |err| < MESSAGE_LIMIT
      invariant Undecided(check, Stdout, out) && Undecided(check, Stderr, err)
      decreases |events| - used
    {
      match events[used] {
        case Timeout => return StartResult(Transient, START_TIMEOUT), out, err, used;
        case Closed => return StartResult(Persistent, PIPE_CLOSED), out, err, used;
        case Idle =>
          LinesNext(events, used, Stdout);
          LinesNext(events, used, Stderr);
          used := used + 1;
        case Line(_, _) =>
          var some1, some2;
          out, err, used, some1, some2 := TakeBatch(events, used, out, err);
          if some1 {
            var st := check(Stdout, out);
            if !st.state.Ongoing? { return st, out, err, used; }
          }
          if some2 {
            var st := check(Stderr, err);
            if !st.state.Ongoing? { return st, out, err, used; }
          }
          if !(|out| < MESSAGE_LIMIT && |err| < MESSAGE_LIMIT) {
            return StartResult(Persistent, FLOODING), out, err, used;
          }
      }
    }
  }

  /** One line, and all that is available after it. */
  method TakeBatch(events: seq<Event>, from: nat, out0: seq<string>, err0: seq<string>)
    returns (out: seq<string>, err: seq<string>, next: nat, some1: bool, some2: bool)
    requires from < |events| && events[|events| - 1].Timeout? && events[from].Line?
    requires out0 == Lines(events[..from], Stdout) && err0 == Lines(events[..from], Stderr)
    requires |out0| < MESSAGE_LIMIT && |err0| < MESSAGE_LIMIT
    ensures from < next < |events|
    ensures out == Lines(events[..next], Stdout) && err == Lines(events[..next], Stderr)
    ensures |out| <= MESSAGE_LIMIT && |err| <= MESSAGE_LIMIT && |out| + |err| <= 999
    ensures if some1 then out != [] else out == out0
    ensures if some2 then err != [] else err == err0
  {
    LinesNext(events, from, Stdout);
    LinesNext(events, from, Stderr);
    var out1, err1 := out0, err0;
    if events[from].stream == Stdout {
      out1 := out1 + [events[from].text];
    } else {
      err1 := err1 + [events[from].text];
    }
    out, err, next := Drain(events, from + 1, out1, err1);
    some1, some2 := |out| > |out0|, |err| > |err0|;
  }

  // ---- Baby-server (v2/lens3/backend-s3baby.go) ----

  /** The key-value pairs of a log line; None for a line that does not parse. */
  type Parser = string -> Option<seq<(string, string)>>

  predicate HasTime(line: string) { |line| >= 5 && line[..5] == "time=" }

  /** The attributes of a log line: of equal keys the last one counts. */
  function Attributes(pairs: seq<(string, string)>): map<string, string> {
    if pairs == [] then map[]
    else Attributes(pairs[..|pairs| - 1])[pairs[|pairs| - 1].0 := pairs[|pairs| - 1].1]
  }

  function Attribute(kv: map<string, string>, key: string): string {
    if key in kv then kv[key] else ""
  }

  /** Of a key that comes several times the last value counts, and no other key is there. */
  lemma {:induction false} LastCounts(pairs: seq<(string, string)>)
    ensures forall k :: k in Attributes(pairs) <==> exists i | 0 <= i < |pairs| :: pairs[i].0 == k
    ensures forall i | 0 <= i < |pairs| && (forall j | i < j < |pairs| :: pairs[j].0 != pairs[i].0) ::
              pairs[i].0 in Attributes(pairs) && Attributes(pairs)[pairs[i].0] == pairs[i].1
  {
    if pairs != [] {
      var front, last := pairs[..|pairs| - 1], pairs[|pairs| - 1];
      LastCounts(front);
      forall k ensures k in Attributes(pairs) <==> exists i | 0 <= i < |pairs| :: pairs[i].0 == k {
        if k == last.0 {
          assert pairs[|pairs| - 1].0 == k;
        } else if i :| 0 <= i < |front| && front[i].0 == k {
          assert pairs[i].0 == k;
        }
      }
    }
  }

  /** The entries among the lines, in order; others are ignored. */
  function LogEntries(parse: Parser, lines: seq<string>): seq<map<string, string>> {
    if lines == [] then []
    else
      var front := LogEntries(parse, lines[..|lines| - 1]);
      var last := lines[|lines| - 1];
      if HasTime(last) && parse(last).Some? then front + [Attributes(parse(last).value)] else front
  }

  /** convert_s3baby_logging. */
  method ConvertLogging(parse: Parser, lines: seq<string>) returns (entries: seq<map<string, string>>)
    ensures entries == LogEntries(parse, lines)
  {
    entries := [];
    var i := 0;
    while i < |lines|
      invariant 0 <= i <= |lines|
      invariant entries == LogEntries(parse, lines[..i])
    {
      assert lines[..i + 1][..i] == lines[..i];
      if HasTime(lines[i]) && parse(lines[i]).Some? {
        var pairs := parse(lines[i]).value;
        var kv: map<string, string> := map[];
        var j := 0;
        while j < |pairs|
          invariant 0 <= j <= |pairs|
          invariant kv == Attributes(pairs[..j])
        {
          assert pairs[..j + 1][..j] == pairs[..j];
          kv := kv[pairs[j].0 := pairs[j].1];
          j := j + 1;
        }
        assert pairs[..j] == pairs;
        entries := entries + [kv];
      }
      i := i + 1;
    }
    assert lines[..i] == lines;
  }

  predicate IsError(kv: map<string, string>) { Attribute(kv, "level") == "ERROR" }

  predicate IsStarting(kv: map<string, string>) {
    Attribute(kv, "level") == "INFO" && Attribute(kv, "msg") == "Starting Baby-server"
  }

  const Errors: map<string, string> -> bool := kv => IsError(kv)
  const Startings: map<string, string> -> bool := kv => IsStarting(kv)

  /** find_one. */
  function FindOne(entries: seq<map<string, string>>, wanted: map<string, string> -> bool): (r: Option<map<string, string>>)
    ensures r.Some? ==> exists k | 0 <= k < |entries| ::
              entries[k] == r.value && wanted(r.value) && forall i | 0 <= i < k :: !wanted(entries[i])
    ensures r.None? ==> forall kv | kv in entries :: !wanted(kv)
  {
    if entries == [] then None
    else if wanted(entries[0]) then Some(entries[0])
    else FindOne(entries[1..], wanted)
  }

  function Failure(inUse: string -> bool, kv: map<string, string>): StartResult {
    var m := Attribute(kv, "error");
    if inUse(m) then StartResult(ToRetry, NORMAL) else StartResult(Persistent, "Backend outputs: " + m)
  }

  /** check_startup of Baby-server. */
  function BabyCheck(parse: Parser, inUse: string -> bool, stream: Stream, lines: seq<string>): StartResult {
    if stream == Stderr then StartResult(Ongoing, NORMAL)
    else
      var entries := LogEntries(parse, lines);
      var error := FindOne(entries, Errors);
      if error.Some? then Failure(inUse, error.value)
      else
        StartResult(if FindOne(entries, Startings).Some? then Started else Ongoing, NORMAL)
  }

  /** A line that is a log entry with the wanted attributes. */
  predicate Logged(parse: Parser, wanted: map<string, string> -> bool, line: string) {
    HasTime(line) && parse(line).Some? && wanted(Attributes(parse(line).value))
  }

  /** The first line that is a log entry with the wanted attributes. */
  predicate FirstLogged(parse: Parser, wanted: map<string, string> -> bool, lines: seq<string>, k: nat) {
    k < |lines| && Logged(parse, wanted, lines[k]) && forall i | 0 <= i < k :: !Logged(parse, wanted, lines[i])
  }

  lemma {:induction false} FindOneAppend(entries: seq<map<string, string>>, kv: map<string, string>,
                                         wanted: map<string, string> -> bool)
    ensures FindOne(entries + [kv], wanted) ==
            if FindOne(entries, wanted).Some? then FindOne(entries, wanted)
            else if wanted(kv) then Some(kv) else None
  {
    if entries == [] {
      assert entries + [kv] == [kv] && FindOne([], wanted).None?;
    } else {
      assert (entries + [kv])[1..] == entries[1..] + [kv];
      FindOneAppend(entries[1..], kv, wanted);
    }
  }

  /** Searching the entries is searching the lines. */
  lemma {:induction false} FindInLog(parse: Parser, lines: seq<string>, wanted: map<string, string> -> bool)
    ensures var r := FindOne(LogEntries(parse, lines), wanted);
            && (r.None? ==> forall i | 0 <= i < |lines| :: !Logged(parse, wanted, lines[i]))
            && (r.Some? ==> exists k: nat :: FirstLogged(parse, wanted, lines, k) && Attributes(parse(lines[k]).value) == r.value)
  {
    if lines != [] {
      var front, last := lines[..|lines| - 1], lines[|lines| - 1];
      FindInLog(parse, front, wanted);
      if HasTime(last) && parse(last).Some? {
        FindOneAppend(LogEntries(parse, front), Attributes(parse(last).value), wanted);
      }
      if r :| FindOne(LogEntries(parse, front), wanted) == Some(r) {
        var k: nat :| FirstLogged(parse, wanted, front, k) && Attributes(parse(front[k]).value) == r;
        assert FirstLogged(parse, wanted, lines, k);
      } else if Logged(parse, wanted, last) {
        assert FirstLogged(parse, wanted, lines, |front|);
      }
    }
  }

  /** The text of the error in a log line. */
  function ErrorText(parse: Parser, line: string): string
    requires parse(line).Some?
  {
    Attribute(Attributes(parse(line).value), "error")
  }

  ghost predicate SomeLogged(parse: Parser, wanted: map<string, string> -> bool, lines: seq<string>) {
    exists line :: line in lines && Logged(parse, wanted, line)
  }

  /** Waiting for a Baby-server, among all the lines consumed from its stdout: the first
      error decides, a port in use for another try and any other for a failure with its
      text; without an error a starting line counts as started; and without either the
      timer, a closed pipe or a flood ended the waiting. */
  method WaitForBaby(events: seq<Event>, parse: Parser, inUse: string -> bool)
    returns (r: Final, out: seq<string>, err: seq<string>, used: nat)
    requires events != [] && events[|events| - 1].Timeout?
    ensures used <= |events| && out == Lines(events[..used], Stdout) && err == Lines(events[..used], Stderr)
    ensures forall k: nat | FirstLogged(parse, Errors, out, k) ::
              r == if inUse(ErrorText(parse, out[k])) then StartResult(ToRetry, NORMAL)
                   else StartResult(Persistent, "Backend outputs: " + ErrorText(parse, out[k]))
    ensures !SomeLogged(parse, Errors, out) && SomeLogged(parse, Startings, out) ==> r == StartResult(Started, NORMAL)
    ensures !SomeLogged(parse, Errors, out) && !SomeLogged(parse, Startings, out) ==>
              || (r == StartResult(Transient, START_TIMEOUT) && used < |events| && events[used].Timeout?)
              || (r == StartResult(Persistent, PIPE_CLOSED) && used < |events| && events[used].Closed?)
              || (r == StartResult(Persistent, FLOODING) && (|out| == MESSAGE_LIMIT || |err| == MESSAGE_LIMIT))
    ensures r.state.Started? <==> !SomeLogged(parse, Errors, out) && SomeLogged(parse, Startings, out)
  {
    r, out, err, used := WaitForComeUp(events, (stream, lines) => BabyCheck(parse, inUse, stream, lines));
    hide Lines, LogEntries, Attributes;
    BabyDecides(parse, inUse, out);
    BabyIgnoresStderr(parse, inUse, err);
    hide BabyCheck;
  }

  lemma BabyIgnoresStderr(parse: Parser, inUse: string -> bool, err: seq<string>)
    ensures BabyCheck(parse, inUse, Stderr, err).state.Ongoing?
  {
  }

  lemma BabyDecides(parse: Parser, inUse: string -> bool, out: seq<string>)
    ensures var r := BabyCheck(parse, inUse, Stdout, out);
            && (forall k: nat | FirstLogged(parse, Errors, out, k) ::
                  r == if inUse(ErrorText(parse, out[k])) then StartResult(ToRetry, NORMAL)
                       else StartResult(Persistent, "Backend outputs: " + ErrorText(parse, out[k])))
            && (!SomeLogged(parse, Errors, out) ==>
                  r == StartResult(if SomeLogged(parse, Startings, out) then Started else Ongoing, NORMAL))
            && (SomeLogged(parse, Errors, out) ==> exists k: nat :: FirstLogged(parse, Errors, out, k))
            && (out == [] ==> !SomeLogged(parse, Errors, out) && !SomeLogged(parse, Startings, out))
  {
    FindInLog(parse, out, Startings);
    FindInLog(parse, out, Errors);
    hide LogEntries, Attributes, Attribute, IsError, IsStarting, HasTime;
    FoundIsLogged(parse, Errors, out);
    FoundIsLogged(parse, Startings, out);
    var error := FindOne(LogEntries(parse, out), Errors);
    if error.Some? {
      var k: nat :| FirstLogged(parse, Errors, out, k) && Attributes(parse(out[k]).value) == error.value;
      forall j: nat | FirstLogged(parse, Errors, out, j) ensures j == k {
        assert !(j < k) && !(k < j);
      }
    }
  }

  lemma FoundIsLogged(parse: Parser, wanted: map<string, string> -> bool, out: seq<string>)
    ensures FindOne(LogEntries(parse, out), wanted).Some? <==> SomeLogged(parse, wanted, out)
  {
    FindInLog(parse, out, wanted);
    hide LogEntries, Attributes, HasTime;
    if FindOne(LogEntries(parse, out), wanted).Some? {
      var k: nat :| FirstLogged(parse, wanted, out, k);
      assert out[k] in out;
    }
  }

  // ---- all ports ----

  /** The first port whose outcome is not a retry. */
  function FirstDecided(ports: seq<int>, results: int -> Final): (k: Option<nat>)
    ensures k.Some? ==>
              && k.value < |ports| && !results(ports[k.value]).state.ToRetry?
              && forall i | 0 <= i < k.value :: results(ports[i]).state.ToRetry?
    ensures k.None? ==> forall p | p in ports :: results(p).state.ToRetry?
  {
    if ports == [] then None
    else if !results(ports[0]).state.ToRetry? then Some(0)
    else
      match FirstDecided(ports[1..], results)
      case None => None
      case Some(k) => Some(k + 1)
  }

  /** The manager of one Mux and the tables its starts change.  Expiry times of
      backend records are in seconds. */
  class Manager {
    const muxEp: string
    const host: string
    const busySuspension: nat
    const timeoutSuspension: nat
    var shutdown: bool
    var process: map<string, int>   // the port of the backend of a pool
    var mutexes: set<string>
    var backends: map<string, (Backend, Option<nat>)>
    var states: map<string, ApproxState>
    var pools: map<string, Pool>

    constructor (muxEp: string, host: string, busySuspension: nat, timeoutSuspension: nat, pools: map<string, Pool>)
      ensures !shutdown && process == map[] && mutexes == {} && backends == map[] && states == map[]
      ensures this.pools == pools && this.muxEp == muxEp && this.host == host
      ensures this.busySuspension == busySuspension && this.timeoutSuspension == timeoutSuspension
    {
      this.muxEp, this.host := muxEp, host;
      this.busySuspension, this.timeoutSuspension := busySuspension, timeoutSuspension;
      shutdown, process, mutexes, backends, states := false, map[], {}, map[], map[];
      this.pools := pools;
    }

    function Dummy(pool: string, now: int): Backend {
      Backend(pool, NoEndpoint, Suspended, "", "", muxEp, now)
    }

    /** suspend_pool: a dummy record that goes away by itself. */
    method SuspendPool(pool: string, reason: Reason, now: int) returns (be: Backend)
      modifies `backends, `states
      ensures be == Dummy(pool, now)
      ensures var sec := if reason == SERVER_BUSY then busySuspension else timeoutSuspension;
              backends == if sec > 0 then old(backends)[pool := (be, Some(sec))] else old(backends) - {pool}
      ensures states == old(states)[pool := ApproxState(pool, Suspended, reason, now)]
    {
      var sec := timeoutSuspension;
      if reason == SERVER_BUSY {
        sec := busySuspension;
      }
      be := Backend(pool, NoEndpoint, Suspended, "", "", muxEp, now);
      backends := backends[pool := (be, None)];
      if sec > 0 {
        backends := backends[pool := (be, Some(sec))];
      } else {
        backends := backends - {pool};
      }
      states := states[pool := ApproxState(pool, Suspended, reason, now)];
    }

    /** mark_pool_inoperable: the first reason stays. */
    method MarkInoperable(pool: Pool, reason: Reason, now: int)
      modifies `pools
      ensures pools == if pool.inoperable then old(pools)
                       else old(pools)[pool.pool := pool.(inoperable := true, reason := reason, timestamp := now)]
    {
      if pool.inoperable {
        return;
      }
      pools := pools[pool.pool := pool.(inoperable := true, reason := reason, timestamp := now)];
    }

    /** The end of a start: a started backend is kept as running, recorded and shown,
        a failure marks the pool, and anything passing suspends it. */
    method Conclude(data: Pool, port: int, result: Final, access: string, secret: string, now: int)
      returns (r: Option<Backend>)
      requires !result.state.ToRetry?
      modifies `process, `backends, `states, `pools
      ensures !(result.state.Started? && !shutdown) ==> process == old(process)
      ensures !result.state.Persistent? ==> pools == old(pools)
      ensures result.state.Started? && shutdown ==>
                r.None? && backends == old(backends) && states == old(states)
      ensures result.state.Started? && !shutdown ==>
                && r == Some(Backend(data.pool, HostPort(host, port), Ready, access, secret, muxEp, now))
                && backends == old(backends)[data.pool := (r.value, None)]
                && states == old(states)[data.pool := ApproxState(data.pool, Ready, NORMAL, now)]
                && process == old(process)[data.pool := port]
      ensures result.state.Persistent? ==>
                && r.None? && backends == old(backends) && states == old(states)
                && pools == if data.inoperable then old(pools)
                            else old(pools)[data.pool := data.(inoperable := true, reason := result.reason, timestamp := now)]
      ensures result.state.Transient? ==>
                var sec := if result.reason == SERVER_BUSY then busySuspension else timeoutSuspension;
                && r == Some(Dummy(data.pool, now))
                && backends == (if sec > 0 then old(backends)[data.pool := (r.value, Some(sec))] else old(backends) - {data.pool})
                && states == old(states)[data.pool := ApproxState(data.pool, Suspended, result.reason, now)]
    {
      match result.state {
        case Transient =>
          var be := SuspendPool(data.pool, result.reason, now);
          return Some(be);
        case Persistent =>
          MarkInoperable(data, result.reason, now);
          return None;
        case Started =>
      }
      if shutdown {
        return None;
      }
      process := process[data.pool := port];
      var be := Backend(data.pool, HostPort(host, port), Ready, access, secret, muxEp, now);
      backends := backends[data.pool := (be, None)];
      states := states[data.pool := ApproxState(data.pool, Ready, NORMAL, now)];
      r := Some(be);
    }

    /** start_backend_in_mutexed, with what each port would give.  The mutex is
        released whatever happens; each port is tried at most once, in order, and
        none after the first outcome that is not a retry, which decides. */
    method StartInMutexed(pool: string, ports: seq<int>, results: int -> Final, access: string, secret: string, now: int)
      returns (r: Option<Backend>, tried: seq<int>)
      requires pool in pools ==> pools[pool].pool == pool
      modifies `process, `mutexes, `backends, `states, `pools
      ensures mutexes == old(mutexes) - {pool}
      ensures pool !in old(pools) ==>
                r.None? && tried == [] && backends == old(backends) && states == old(states)
      ensures pool in old(pools) ==>
                tried == match FirstDecided(ports, results) case None => ports case Some(k) => ports[..k + 1]
      ensures !(pool in old(pools) && Decision(ports, results).state.Started? && !old(shutdown)) ==> process == old(process)
      ensures !(pool in old(pools) && Decision(ports, results).state.Persistent?) ==> pools == old(pools)
      ensures pool in old(pools) && Decision(ports, results).state.Started? && old(shutdown) ==>
                r.None? && backends == old(backends) && states == old(states)
      ensures pool in old(pools) && Decision(ports, results).state.Started? && !old(shutdown) ==>
                var port := ports[FirstDecided(ports, results).value];
                && r == Some(Backend(pool, HostPort(host, port), Ready, access, secret, muxEp, now))
                && backends == old(backends)[pool := (r.value, None)]
                && states == old(states)[pool := ApproxState(pool, Ready, NORMAL, now)]
                && process == old(process)[pool := port]
      ensures pool in old(pools) && Decision(ports, results).state.Persistent? ==>
                && r.None? && backends == old(backends) && states == old(states)
                && pools == if old(pools)[pool].inoperable then old(pools)
                            else old(pools)[pool := old(pools)[pool].(
                              inoperable := true, reason := Decision(ports, results).reason, timestamp := now)]
      ensures pool in old(pools) && Decision(ports, results).state.Transient? ==>
                var reason := Decision(ports, results).reason;
                var sec := if reason == SERVER_BUSY then busySuspension else timeoutSuspension;
                && r == Some(Dummy(pool, now))
                && backends == (if sec > 0 then old(backends)[pool := (r.value, Some(sec))] else old(backends) - {pool})
                && states == old(states)[pool := ApproxState(pool, Suspended, reason, now)]
    {
      tried := [];
      if pool !in pools {
        mutexes := mutexes - {pool};
        return None, tried;
      }
      var data := pools[pool];
      var i := 0;
      while i < |ports|
        invariant 0 <= i <= |ports|
        invariant tried == ports[..i]
        invariant forall j | 0 <= j < i :: results(ports[j]).state.ToRetry?
        invariant process == old(process) && backends == old(backends) && states == old(states)
                  && pools == old(pools) && mutexes == old(mutexes)
      {
        var port := ports[i];
        tried := tried + [port];
        if results(port).state.ToRetry? {
          i := i + 1;
          continue;
        }
        PortDecides(ports, results, i);
        hide FirstDecided, Decision;
        r := Conclude(data, port, results(port), access, secret, now);
        mutexes := mutexes - {pool};
        return;
      }
      NoPortDecides(ports, results);
      var be := SuspendPool(pool, SERVER_BUSY, now);
      mutexes := mutexes - {pool};
      r := Some(be);
    }
  }

  /** The outcome that decides a start; no usable port counts as a busy server. */
  function Decision(ports: seq<int>, results: int -> Final): (r: Final)
    ensures !r.state.ToRetry?
  {
    match FirstDecided(ports, results)
    case None => StartResult(Transient, SERVER_BUSY)
    case Some(k) => results(ports[k])
  }

  lemma PortDecides(ports: seq<int>, results: int -> Final, i: nat)
    requires i < |ports| && !results(ports[i]).state.ToRetry?
    requires forall j | 0 <= j < i :: results(ports[j]).state.ToRetry?
    ensures FirstDecided(ports, results) == Some(i) && Decision(ports, results) == results(ports[i])
  {
    assert ports[i] in ports;
    var k := FirstDecided(ports, results).value;
    assert !(k < i) && !(i < k);
  }

  lemma NoPortDecides(ports: seq<int>, results: int -> Final)
    requires forall j | 0 <= j < |ports| :: results(ports[j]).state.ToRetry?
    ensures FirstDecided(ports, results) == None && Decision(ports, results) == StartResult(Transient, SERVER_BUSY)
  {
  }

  /** When no port fails for good, the backend starts exactly if it would on some
      port, whatever the order of the ports; else the server counts as busy. */
  lemma DecisionIsStarted(ports: seq<int>, results: int -> Final)
    requires forall p | p in ports :: results(p).state.Started? || results(p).state.ToRetry?
    ensures Decision(ports, results).state.Started? <==> exists p :: p in ports && results(p).state.Started?
    ensures !Decision(ports, results).state.Started? ==> Decision(ports, results) == StartResult(Transient, SERVER_BUSY)
  {
    var k := FirstDecided(ports, results);
    if k.Some? {
      var p := ports[k.value];
      assert p in ports && Decision(ports, results) == results(p);
    }
  }
}
