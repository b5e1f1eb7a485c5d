/** Port allocation (v2/lens3/manager.go, list_available_ports). */
module Ports {
  import opened Records
  import opened Sequences

  /** Ports used per backend: one, or two for a backend with a control port. */
  type Width = n: int | n == 1 || n == 2 witness 1

  /** The base ports in ascending order, before the list is shuffled. */
  function FreePorts(lo: int, hi: int, n: Width, used: seq<int>): seq<int>
    decreases hi - lo
  {
    if lo > hi then []
    else
      var rest := FreePorts(lo + 1, hi, n, used);
      if lo % n == 0 && lo + (n - 1) <= hi && lo !in used then [lo] + rest else rest
  }

  /** What the list means. */
  predicate Free(lo: int, hi: int, n: Width, used: seq<int>, i: int) {
    lo <= i && i % n == 0 && i + (n - 1) <= hi && i !in used
  }

  lemma {:induction false} FreePortsAre(lo: int, hi: int, n: Width, used: seq<int>)
    ensures forall i :: i in FreePorts(lo, hi, n, used) <==> Free(lo, hi, n, used, i)
    ensures forall j, k | 0 <= j < k < |FreePorts(lo, hi, n, used)| ::
              FreePorts(lo, hi, n, used)[j] < FreePorts(lo, hi, n, used)[k]
    decreases hi - lo
  {
    if lo <= hi {
      FreePortsAre(lo + 1, hi, n, used);
      var rest := FreePorts(lo + 1, hi, n, used);
      forall j | 0 <= j < |rest| ensures lo < rest[j] { assert rest[j] in rest; }
    }
  }

  // ---- the backends of this Mux ----

  /** list_backends_under_manager keeps the records of this Mux but the dummies. */
  predicate Mine(be: Backend, muxEp: string) {
    be.muxEp == muxEp && !be.state.Suspended?
  }

  /** The base ports of the backends running under this Mux; None is `panic(nil)`. */
  method UsedPorts(belist: seq<Backend>, muxEp: string) returns (used: Option<seq<int>>)
    ensures used.Some? <==> forall be | be in belist && Mine(be, muxEp) :: be.ep.HostPort?
    ensures used.Some? ==> forall i ::
              i in used.value <==> exists be :: be in belist && Mine(be, muxEp) && be.ep.HostPort? && be.ep.port == i
  {
    var list: seq<int> := [];
    var k := 0;
    while k < |belist|
      invariant 0 <= k <= |belist|
      invariant forall j | 0 <= j < k && Mine(belist[j], muxEp) :: belist[j].ep.HostPort? && belist[j].ep.port in list
      invariant forall i | i in list ::
                  exists be :: be in belist && Mine(be, muxEp) && be.ep.HostPort? && be.ep.port == i
    {
      var be := belist[k];
      if Mine(be, muxEp) {
        if !be.ep.HostPort? {
          return None;
        }
        list := list + [be.ep.port];
      }
      k := k + 1;
    }
    used := Some(list);
  }

  /** rand.Shuffle: swaps from the end, with any source of random numbers. */
  method Shuffle(a: array<int>, random: nat -> nat)
    modifies a
    ensures multiset(a[..]) == multiset(old(a[..]))
  {
    var i := a.Length - 1;
    while i > 0
      invariant -1 <= i < a.Length
      invariant multiset(a[..]) == multiset(old(a[..]))
    {
      var j := random(i) % (i + 1);
      a[i], a[j] := a[j], a[i];
      i := i - 1;
    }
  }

  /** list_available_ports: in some order, exactly the free base ports. */
  method ListAvailablePorts(lo: int, hi: int, n: Width, belist: seq<Backend>, muxEp: string, random: nat -> nat)
    returns (r: Option<seq<int>>)
    ensures r.Some? <==> forall be | be in belist && Mine(be, muxEp) :: be.ep.HostPort?
    ensures r.Some? ==> forall i ::
              i in r.value <==>
              && lo <= i && i % n == 0 && i + (n - 1) <= hi
              && !exists be :: be in belist && Mine(be, muxEp) && be.ep.HostPort? && be.ep.port == i
    ensures r.Some? ==> forall j, k | 0 <= j < k < |r.value| :: r.value[j] != r.value[k]
  {
    var u := UsedPorts(belist, muxEp);
    if u.None? {
      return None;
    }
    var list := FilterPorts(lo, hi, n, u.value);
    var ports := new int[|list|](k requires 0 <= k < |list| => list[k]);
    assert ports[..] == list;
    Shuffle(ports, random);
    ShuffledAre(ports[..], lo, hi, n, u.value);
    hide FreePorts;
    r := Some(ports[..]);
  }

  method FilterPorts(lo: int, hi: int, n: Width, used: seq<int>) returns (list: seq<int>)
    ensures list == FreePorts(lo, hi, n, used)
  {
    list := [];
    var i := lo;
    while i <= hi
      invariant lo <= i && (i <= hi + 1 || i == lo)
      invariant list + FreePorts(i, hi, n, used) == FreePorts(lo, hi, n, used)
    {
      if i % n == 0 && i + (n - 1) <= hi {
        if i !in used {
          list := list + [i];
        }
      }
      i := i + 1;
    }
  }

  /** Any shuffle of the free ports still lists each of them once. */
  lemma ShuffledAre(ports: seq<int>, lo: int, hi: int, n: Width, used: seq<int>)
    requires multiset(ports) == multiset(FreePorts(lo, hi, n, used))
    ensures forall i :: i in ports <==> Free(lo, hi, n, used, i)
    ensures forall j, k | 0 <= j < k < |ports| :: ports[j] != ports[k]
  {
    FreePortsAre(lo, hi, n, used);
    Permuted(FreePorts(lo, hi, n, used), ports);
  }

  // ---- blocks ----

  /** Two blocks of n ports that have a port in common. */
  predicate Overlap(p: int, q: int, n: Width) {
    p <= q < p + n || q <= p < q + n
  }

  /** The blocks of listed ports lie in the configured range and are pairwise disjoint. */
  lemma BlocksAreDisjoint(lo: int, hi: int, n: Width, used: seq<int>, p: int, q: int)
    requires p in FreePorts(lo, hi, n, used) && q in FreePorts(lo, hi, n, used)
    ensures lo <= p && p + n - 1 <= hi
    ensures p != q ==> !Overlap(p, q, n)
  {
    FreePortsAre(lo, hi, n, used);
    assert p % n == 0 && q % n == 0;
  }

  /** A listed block runs into the block of a used port exactly when that port is
      not a multiple of the width and one of its neighbours is free. */
  lemma OverlapsUsed(lo: int, hi: int, n: Width, used: seq<int>, u: int)
    requires u in used
    ensures (exists p :: p in FreePorts(lo, hi, n, used) && Overlap(p, u, n)) <==>
            u % n != 0 && (Free(lo, hi, n, used, u - 1) || Free(lo, hi, n, used, u + 1))
  {
    var free := FreePorts(lo, hi, n, used);
    FreePortsAre(lo, hi, n, used);
    if u % n != 0 && Free(lo, hi, n, used, u - 1) {
      assert u - 1 in free && Overlap(u - 1, u, n);
    }
    if u % n != 0 && Free(lo, hi, n, used, u + 1) {
      assert u + 1 in free && Overlap(u + 1, u, n);
    }
    forall p | p in free && Overlap(p, u, n)
      ensures u % n != 0 && (Free(lo, hi, n, used, u - 1) || Free(lo, hi, n, used, u + 1))
    {
      assert Free(lo, hi, n, used, p) && (p == u - 1 || p == u || p == u + 1);
    }
  }

  /** A backend left over from a run with other settings, on an odd port: the two
      ports offered next would take its control port. */
  lemma MisalignedPortIsHit()
    ensures 10000 in FreePorts(10000, 10003, 2, [10001]) && Overlap(10000, 10001, 2)
  {
    FreePortsAre(10000, 10003, 2, [10001]);
    assert Free(10000, 10003, 2, [10001], 10000);
  }
}
