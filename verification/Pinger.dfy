/**
 Heartbeats (v2/lens3/manager.go, ping_backend).  What a backend answers, when
 the pool was last accessed and who else removes its record are arbitrary.
 Times are in seconds.
 */
module Pinger {

  /** One round of the loop: the status of the heartbeat, the last access of the
      pool (zero when there is none) and the clock read then, the time of the
      EXPIRE call, and whether someone removed the record since the last one. */
  datatype Round = Round(status: int, accessed: int, now: int, renewAt: int, removed: bool)

  datatype Why = TooManyMisses | AwakeTimeElapsed | RecordGone | StillRunning

  const HTTP_OK := 200

  /** The length of the run of failed heartbeats at the end. */
  function Trailing(rounds: seq<Round>): nat {
    if rounds == [] || rounds[|rounds| - 1].status == HTTP_OK then 0
    else 1 + Trailing(rounds[..|rounds| - 1])
  }

  /** What the counter means: the last that many heartbeats failed, and the one
      before them did not. */
  lemma {:induction false} TrailingIs(rounds: seq<Round>)
    ensures Trailing(rounds) <= |rounds|
    ensures forall i | |rounds| - Trailing(rounds) <= i < |rounds| :: rounds[i].status != HTTP_OK
    ensures Trailing(rounds) < |rounds| ==> rounds[|rounds| - Trailing(rounds) - 1].status == HTTP_OK
  {
    if rounds != [] && rounds[|rounds| - 1].status != HTTP_OK {
      TrailingIs(rounds[..|rounds| - 1]);
    }
  }

  datatype Settings = Settings(tolerance: int, awake: nat, interval: nat)

  function Expiry(c: Settings): nat { 3 * c.interval }

  /** When the record would expire before round k, if renewed until then. */
  function ExpireAt(c: Settings, begin: int, rounds: seq<Round>, k: nat): int
    requires k <= |rounds|
  {
    (if k == 0 then begin else rounds[k - 1].renewAt) + Expiry(c)
  }

  /** More heartbeats in a row have failed than is tolerated. */
  predicate Missed(c: Settings, rounds: seq<Round>, k: nat)
    requires k < |rounds|
  {
    Trailing(rounds[..k + 1]) > c.tolerance
  }

  /** The pool was not accessed for the awake time. */
  predicate Idle(c: Settings, rounds: seq<Round>, k: nat)
    requires k < |rounds|
  {
    rounds[k].now >= rounds[k].accessed + c.awake
  }

  /** The record was removed, or its life is over. */
  predicate Gone(c: Settings, begin: int, rounds: seq<Round>, k: nat)
    requires k < |rounds|
  {
    rounds[k].removed || rounds[k].renewAt >= ExpireAt(c, begin, rounds, k)
  }

  predicate Kept(c: Settings, begin: int, rounds: seq<Round>, k: nat)
    requires k < |rounds|
  {
    !Missed(c, rounds, k) && !Idle(c, rounds, k) && !Gone(c, begin, rounds, k)
  }

  /** The backend record of the pool, as far as its life is concerned. */
  class Beat {
    var misses: nat
    var expireAt: int

    constructor (c: Settings, begin: int)
      ensures misses == 0 && expireAt == begin + Expiry(c)
    {
      misses, expireAt := 0, begin + Expiry(c);
    }

    /** ping_backend: leaves in the first round that gives a reason, for the first of
        the reasons there, and keeps the backend as long as there is none; the miss
        counter is the length of the trailing run of failures. */
    method Ping(c: Settings, begin: int, rounds: seq<Round>) returns (why: Why, left: nat)
      requires misses == 0 && expireAt == begin + Expiry(c)
      modifies this
      ensures left <= |rounds|
      ensures why.StillRunning? <==> left == |rounds|
      ensures forall k | 0 <= k < left :: Kept(c, begin, rounds, k)
      ensures left < |rounds| ==> !Kept(c, begin, rounds, left)
      ensures why.TooManyMisses? <==> left < |rounds| && Missed(c, rounds, left)
      ensures why.AwakeTimeElapsed? <==> left < |rounds| && !Missed(c, rounds, left) && Idle(c, rounds, left)
      ensures why.RecordGone? <==>
              left < |rounds| && !Missed(c, rounds, left) && !Idle(c, rounds, left) && Gone(c, begin, rounds, left)
      ensures misses == Trailing(rounds[..if left < |rounds| then left + 1 else left])
      ensures expireAt == ExpireAt(c, begin, rounds, left)
    {
      left := 0;
      while left < |rounds|
        invariant 0 <= left <= |rounds|
        invariant forall k | 0 <= k < left :: Kept(c, begin, rounds, k)
        invariant misses == Trailing(rounds[..left])
        invariant expireAt == ExpireAt(c, begin, rounds, left)
      {
        var round := rounds[left];
        assert rounds[..left + 1][..left] == rounds[..left];
        if round.status == HTTP_OK {
          misses := 0;
        } else {
          misses := misses + 1;
        }
        if misses > c.tolerance {
          return TooManyMisses, left;
        }
        if !(round.now < round.accessed + c.awake) {
          return AwakeTimeElapsed, left;
        }
        if round.removed || round.renewAt >= expireAt {
          return RecordGone, left;
        }
        expireAt := round.renewAt + Expiry(c);
        left := left + 1;
      }
      why := StillRunning;
    }
  }

  /** Rounds that each take less than three intervals, with nobody else removing
      the record. */
  predicate Timely(c: Settings, begin: int, rounds: seq<Round>) {
    forall k | 0 <= k < |rounds| ::
      !rounds[k].removed && rounds[k].renewAt - (if k == 0 then begin else rounds[k - 1].renewAt) < 3 * c.interval
  }

  /** A healthy, timely, recently used backend is kept. */
  lemma HealthyIsKept(c: Settings, begin: int, rounds: seq<Round>, k: nat)
    requires Timely(c, begin, rounds) && k < |rounds| && c.tolerance >= 0
    requires rounds[k].now < rounds[k].accessed + c.awake
    requires exists i | 0 <= i <= k && k - i <= c.tolerance :: rounds[i].status == HTTP_OK
    ensures Kept(c, begin, rounds, k)
  {
    var i :| 0 <= i <= k && k - i <= c.tolerance && rounds[i].status == HTTP_OK;
    TrailingIs(rounds[..k + 1]);
    assert rounds[..k + 1][i].status == HTTP_OK;
  }

  /** A backend that fails more often in a row than tolerated is given up. */
  lemma DeadIsDropped(c: Settings, rounds: seq<Round>, k: nat)
    requires k < |rounds| && 0 <= c.tolerance <= k
    requires forall i | k - c.tolerance <= i <= k :: rounds[i].status != HTTP_OK
    ensures Missed(c, rounds, k)
  {
    TrailingIs(rounds[..k + 1]);
    var before := k - Trailing(rounds[..k + 1]);
    assert 0 <= before ==> rounds[..k + 1][before] == rounds[before];
  }
}
