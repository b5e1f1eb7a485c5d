/**
 Making the buckets of a pool exist in its backend (v2/lens3/manager.go,
 make_absent_buckets_in_backend).
 */
module Reconcile {
  import opened Records
  import opened Registry
  import opened Tables
  import A = Access
  import H = Handlers
  import O = Outcomes

  type Error = string

  /** The registered buckets that are absent and not expired, in order. */
  function Absent(needed: seq<Bucket>, existing: set<string>, now: int): seq<Bucket> {
    if needed == [] then []
    else
      var b := needed[|needed| - 1];
      var front := Absent(needed[..|needed| - 1], existing, now);
      if b.bucket !in existing && now < b.expiration then front + [b] else front
  }

  /** The error of the first bucket that could not be made. */
  function FirstError(tried: seq<Bucket>, make: Bucket -> Option<Error>): (e: Option<Error>)
    ensures e.None? <==> forall b | b in tried :: make(b).None?
  {
    if tried == [] then None
    else if make(tried[0]).Some? then make(tried[0])
    else FirstError(tried[1..], make)
  }

  /** The buckets in the backend after trying to make some. */
  function After(existing: set<string>, tried: seq<Bucket>, make: Bucket -> Option<Error>): set<string> {
    existing + set b | b in tried && make(b).None? :: b.bucket
  }

  lemma {:induction false} AbsentAre(needed: seq<Bucket>, existing: set<string>, now: int)
    ensures forall b :: b in Absent(needed, existing, now) <==> b in needed && b.bucket !in existing && now < b.expiration
  {
    if needed != [] {
      AbsentAre(needed[..|needed| - 1], existing, now);
      assert needed == needed[..|needed| - 1] + [needed[|needed| - 1]];
    }
  }

  lemma {:induction false} FirstErrorAppend(tried: seq<Bucket>, b: Bucket, make: Bucket -> Option<Error>)
    ensures FirstError(tried + [b], make) ==
            if FirstError(tried, make).Some? then FirstError(tried, make) else make(b)
  {
    if tried == [] {
      assert tried + [b] == [b];
    } else {
      assert (tried + [b])[1..] == tried[1..] + [b];
      FirstErrorAppend(tried[1..], b, make);
    }
  }

  /** The loop: every needed, unexpired, absent bucket is tried, in order and
      whatever happened to the ones before; nothing is removed; the first error is
      returned; and without one every needed, unexpired bucket is there. */
  method MakeAbsentBuckets(needed: seq<Bucket>, listed: Option<set<string>>, make: Bucket -> Option<Error>, now: int)
    returns (err: Option<Error>, tried: seq<Bucket>, after: set<string>)
    ensures listed.None? ==> err.Some? && tried == []
    ensures listed.Some? ==>
              && tried == Absent(needed, listed.value, now)
              && err == FirstError(tried, make)
              && after == After(listed.value, tried, make)
              && listed.value <= after
              && (err.None? ==> forall b | b in needed && now < b.expiration :: b.bucket in after)
  {
    tried := [];
    if listed.None? {
      return Some("list buckets"), tried, {};
    }
    var existing := listed.value;
    err, after := None, existing;
    var i := 0;
    while i < |needed|
      invariant 0 <= i <= |needed|
      invariant tried == Absent(needed[..i], existing, now)
      invariant err == FirstError(tried, make)
      invariant after == After(existing, tried, make)
    {
      var b := needed[i];
      assert needed[..i + 1][..i] == needed[..i];
      i := i + 1;
      if b.bucket in existing || !(now < b.expiration) {
        continue;
      }
      var e := make(b);
      FirstErrorAppend(tried, b, make);
      tried := tried + [b];
      if e.None? {
        after := after + {b.bucket};
      } else if err.None? {
        err := e;
      }
    }
    assert needed[..i] == needed;
    AbsentAre(needed, existing, now);
  }

  /** A second run after a successful one finds nothing to make. */
  lemma SecondRunIsIdle(needed: seq<Bucket>, existing: set<string>, make: Bucket -> Option<Error>, now: int, later: int)
    requires now <= later
    requires FirstError(Absent(needed, existing, now), make).None?
    ensures Absent(needed, After(existing, Absent(needed, existing, now), make), later) == []
  {
    var tried := Absent(needed, existing, now);
    var after := After(existing, tried, make);
    AbsentAre(needed, existing, now);
    AbsentAre(needed, after, later);
    assert forall b | b in tried :: b.bucket in after;
    var again := Absent(needed, after, later);
    assert forall b :: b !in again;
    EmptyOrNot(again);
  }

  lemma EmptyOrNot(s: seq<Bucket>)
    ensures s == [] || exists b :: b in s
  {
    if s != [] {
      assert s[0] in s;
    }
  }

  /** Whether make_absent_buckets_in_backend returns without an error; a failed
      listing of the buckets in the backend is one. */
  predicate Reconciled(needed: seq<Bucket>, listed: Option<set<string>>, make: Bucket -> Option<Error>, now: int) {
    listed.Some? && FirstError(Absent(needed, listed.value, now), make).None?
  }

  /** probe_access_mux sends a request for "/" under the probe key of the pool. */
  predicate IsProbeOf(req: A.Request, db: Store, pool: string) {
    pool in db.pools && req.credential == Some(db.pools[pool].probeKey) && req.path == "/"
  }

  /** A make-bucket request answered with success has its bucket registered to the
      pool and present in the pool's backend, which is running.  The probe that
      Registrar sent was served by a Multiplexer that saw the new registration
      (`seen`) and gathered the buckets of the pool from it. */
  lemma SuccessMeansPresent(db: Store, cfg: H.Config, op: H.Op, now: int,
                            seen: Store, w: World, backends: map<string, Backend>, req: A.Request,
                            needed: seq<Bucket>, listed: Option<set<string>>, make: Bucket -> Option<Error>)
    requires Sound(db) && op.MakeBucket? && w.now < now + cfg.bucketTerm
    requires H.Step(db, cfg, op, now).1.Okay?
    requires Get(seen.buckets, op.bucket) == Get(H.Step(db, cfg, op, now).0.buckets, op.bucket)
    requires ProbeKeysPresent(seen) && IsProbeOf(req, seen, op.pool)
    requires forall b :: b in needed <==> b in seen.buckets.Values && b.pool == op.pool
    requires op.probe.Reached? && op.probe.code == H.HTTP_OK ==>
               A.Serve(seen, w, backends, req, Reconciled(needed, listed, make, w.now)) == A.ProbeDone
    ensures var r := H.Step(db, cfg, op, now).0;
            op.bucket in r.buckets && r.buckets[op.bucket].pool == op.pool
    ensures op.pool in backends && (backends[op.pool].state.Ready? || backends[op.pool].state.Initial?)
    ensures listed.Some? && op.bucket in After(listed.value, Absent(needed, listed.value, w.now), make)
  {
    O.MakeBucketOutcome(db, cfg, op, now);
    ProbeNeedsReconciled(seen, w, backends, req, Reconciled(needed, listed, make, w.now));
    ProbeServesPool(seen, w, backends, req, Reconciled(needed, listed, make, w.now), op.pool);
    hide Sound, H.Step, A.Serve;
    AbsentAre(needed, listed.value, w.now);
    assert seen.buckets[op.bucket] in seen.buckets.Values;
  }

  /** A probe that is done was done on the backend of the probed pool. */
  lemma ProbeServesPool(db: Store, w: World, backends: map<string, Backend>, req: A.Request, reconciled: bool, pool: string)
    requires ProbeKeysPresent(db) && IsProbeOf(req, db, pool)
    requires A.Serve(db, w, backends, req, reconciled) == A.ProbeDone
    ensures pool in backends && (backends[pool].state.Ready? || backends[pool].state.Initial?)
  {
    var k := db.secrets[db.pools[pool].probeKey];
    assert k.pool == pool && k.policy.KeyInternal?;
    PickDoesNotProbe(req.path);
    hide A.PickBucket, A.EnsurePool, A.ServeAnonymous, A.ServeAuthenticated;
  }

  lemma ProbeNeedsReconciled(db: Store, w: World, backends: map<string, Backend>, req: A.Request, reconciled: bool)
    ensures A.Serve(db, w, backends, req, reconciled).ProbeDone? ==> reconciled
  {
    hide A.PickBucket, A.KeyPolicies, A.BucketPolicies;
    PickDoesNotProbe(req.path);
  }

  lemma PickDoesNotProbe(path: string)
    ensures A.PickBucket(path) != A.Stop(A.ProbeDone)
  {
  }
}
