/**
 Waiting for a backend that another thread starts (v2/lens3/manager.go,
 wait_for_backend_by_race), and how long the mutex of that thread lasts.
 Times are in milliseconds.
 */
module Backoff {
  import opened Records
  import opened Protocol
  import opened ProtocolSafety

  function Pow3(k: nat): nat { if k == 0 then 1 else 3 * Pow3(k - 1) }

  /** The sleep after the k-th poll, counting from zero. */
  function Sleep(k: nat): nat { if Pow3(k) < 1000 then Pow3(k) else 1000 }

  /** All the sleep asked for in the first n rounds. */
  function Slept(n: nat): nat { if n == 0 then 0 else Slept(n - 1) + Sleep(n - 1) }

  lemma {:induction false} Pow3Grows(k: nat)
    requires k >= 7
    ensures Pow3(k) >= 2187
  {
    if k == 7 {
      assert Pow3(3) == 27;
      assert Pow3(6) == 27 * Pow3(3);
    } else {
      Pow3Grows(k - 1);
    }
  }

  lemma {:induction false} SleepIsPositive(k: nat)
    ensures 1 <= Sleep(k) <= 1000
  {
    if k > 0 {
      SleepIsPositive(k - 1);
    }
  }

  /** The sleep is tripled and cut off at one second. */
  lemma SleepNext(k: nat)
    ensures Sleep(k + 1) == if 3 * Sleep(k) < 1000 then 3 * Sleep(k) else 1000
  {
    assert Pow3(k + 1) == 3 * Pow3(k);
  }

  lemma SleptNext(k: nat)
    ensures Slept(k + 1) == Slept(k) + Sleep(k)
  {
  }

  /** A clock read before each poll, with the sleep asked for in between. */
  ghost predicate Passes(clock: nat -> int) {
    forall k: nat :: clock(k + 1) >= clock(k) + Sleep(k)
  }

  lemma ClockMoves(clock: nat -> int, k: nat)
    requires Passes(clock)
    ensures clock(k + 1) >= clock(k) + Sleep(k) && Sleep(k) > 0
  {
    SleepIsPositive(k);
  }

  lemma {:induction false} SleptLong(n: nat)
    requires n >= 7
    ensures Slept(n) == 1093 + 1000 * (n - 7)
  {
    if n == 7 {
      assert Pow3(1) == 3 && Pow3(2) == 9 && Pow3(3) == 27 && Pow3(4) == 81;
      assert Pow3(5) == 243 && Pow3(6) == 729;
      assert Slept(1) == 1 && Slept(2) == 4 && Slept(3) == 13 && Slept(4) == 40;
      assert Slept(5) == 121 && Slept(6) == 364;
    } else {
      SleptLong(n - 1);
      Pow3Grows(n - 1);
    }
  }

  /** So many polls are possible within a timeout. */
  function MaxPolls(timeout: nat): nat { 8 + timeout / 1000 }

  lemma PollsAreFew(n: nat, timeout: nat)
    requires n > 0 && Slept(n - 1) < timeout
    ensures n <= MaxPolls(timeout)
    ensures Slept(n) < timeout + 1000
  {
    if n >= 8 {
      SleptLong(n - 1);
    }
  }

  /** The first n polls were in time; the first n polls found nothing. */
  ghost predicate InTime(clock: nat -> int, limit: int, n: nat) {
    forall k: nat | k < n :: clock(k) < limit
  }

  ghost predicate Missed(poll: nat -> Option<Backend>, n: int) {
    forall k: nat | k < n :: poll(k).None?
  }

  lemma NonePolled(clock: nat -> int, limit: int, poll: nat -> Option<Backend>)
    ensures InTime(clock, limit, 0) && Missed(poll, 0)
  {
  }

  lemma OnePolled(clock: nat -> int, limit: int, poll: nat -> Option<Backend>, n: nat)
    requires InTime(clock, limit, n) && Missed(poll, n) && clock(n) < limit
    ensures InTime(clock, limit, n + 1)
    ensures poll(n).None? ==> Missed(poll, n + 1)
  {
  }

  /** One more round. */
  lemma Round(clock: nat -> int, begin: int, timeout: nat, k: nat)
    requires Passes(clock) && begin + Slept(k) <= clock(k) < begin + timeout
    ensures k + 1 <= MaxPolls(timeout) && Slept(k + 1) < timeout + 1000
    ensures clock(k + 1) > clock(k) && clock(k + 1) >= begin + Slept(k + 1)
    ensures Slept(k + 1) == Slept(k) + Sleep(k)
    ensures Sleep(k + 1) == if 3 * Sleep(k) < 1000 then 3 * Sleep(k) else 1000
  {
    hide Passes, Sleep, MaxPolls;
    SleptNext(k);
    SleepNext(k);
    ClockMoves(clock, k);
    hide Slept;
    assert k + 1 - 1 == k;
    PollsAreFew(k + 1, timeout);
  }

  /** wait_for_backend_by_race: `clock(k)` is the time read before the k-th poll,
      at least the sleep asked for later than the one before; `poll(k)` is what the
      poll finds.  It makes at most 8 + T/1000 polls and asks for less than T + 1000
      of sleep; it takes the first record it finds, and gives up only when none of
      its polls found one and the time is over. */
  method WaitByRace(timeout: nat, begin: int, clock: nat -> int, poll: nat -> Option<Backend>)
    returns (r: Option<Backend>, polls: nat, slept: nat)
    requires clock(0) >= begin
    requires Passes(clock)
    ensures polls <= MaxPolls(timeout)
    ensures timeout > 0 ==> slept < timeout + 1000
    ensures timeout == 0 ==> polls == 0 && slept == 0
    ensures r.Some? ==> polls > 0 && poll(polls - 1) == r && slept == Slept(polls - 1)
    ensures r.None? ==> clock(polls) >= begin + timeout && slept == Slept(polls)
    ensures InTime(clock, begin + timeout, polls)
    ensures Missed(poll, if r.Some? then polls - 1 else polls)
  {
    assert Sleep(0) == 1 && Slept(0) == 0;
    hide Passes, Sleep, Slept, MaxPolls, InTime, Missed;
    NonePolled(clock, begin + timeout, poll);
    var limit := begin + timeout;
    var sleep := 1;
    polls, slept, r := 0, 0, None;
    while clock(polls) < limit
      invariant sleep == Sleep(polls) && slept == Slept(polls)
      invariant clock(polls) >= begin + slept
      invariant InTime(clock, limit, polls) && Missed(poll, polls)
      invariant polls <= MaxPolls(timeout)
      invariant slept < timeout + 1000 && (timeout == 0 ==> polls == 0)
      decreases limit - clock(polls)
    {
      Round(clock, begin, timeout, polls);
      OnePolled(clock, limit, poll, polls);
      var be := poll(polls);
      polls := polls + 1;
      if be.Some? {
        return be, polls, slept;
      }
      slept := slept + sleep;
      sleep := if sleep * 3 < 1000 then sleep * 3 else 1000;
    }
  }

  // ---- the life of the mutex ----

  /** The mutex is given twice the start timeout, truncated to seconds: that is at
      least the timeout exactly when this is half a second or more (or zero), and
      below it the EXPIRE removes the mutex at once. */
  lemma MutexLife(c: Conf)
    ensures 1000 * MutexTtl(c) >= c.startTimeout <==> c.startTimeout >= 500 || c.startTimeout == 0
    ensures MutexTtl(c) == 0 <==> c.startTimeout < 500
    ensures c.startTimeout >= 500 ==> 2 * c.startTimeout - 1000 < 1000 * MutexTtl(c) <= 2 * c.startTimeout
  {
  }

  /** In every run with a timeout of at least half a second, a mutex that expires
      has been with a thread inside for at least the whole start timeout. */
  lemma ExpiryComesLate(c: Conf, acts: seq<Action>, p: PoolId)
    requires c.startTimeout >= 500
    requires Exec(c, Start, acts).Some? && Apply(c, Exec(c, Start, acts).value, ExpireMutex(p)).Some?
    ensures var s := Exec(c, Start, acts).value;
            && p in s.mutex && s.mutex[p].owner in s.threads
            && s.now >= s.threads[s.mutex[p].owner].entered + c.startTimeout
  {
    MutexSafety(c, acts);
    MutexLife(c);
    hide Exec;
  }
}
