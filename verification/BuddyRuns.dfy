/**
  The pool's public calls as steps, and what every run of them keeps: exact accounting, disjoint
  live blocks of sufficient size, and a free set that depends on the outstanding blocks alone.
 */
module BuddyRuns {
  import opened Dyadic
  import opened BuddyTiling
  import opened BuddySegment
  import opened BuddyPool
  import opened BuddyGrab

  // ---- ownership moves ---------------------------------------------------------------------------

  /** Take the oldest parked block of size `z` out of the object cache. */
  function Unpark(p: Pool, z: nat): Pool
    requires z in p.parked && p.parked[z] != []
  { p.(parked := p.parked[z := p.parked[z][1..]]) }

  function Parking(parked: Parked, h: Handle): Parked {
    var z := h.blk.Size();
    parked[z := (if z in parked then parked[z] else []) + [h]]
  }

  function Register(p: Pool, uuid: nat, size: nat, h: Handle): Pool {
    p.(live := p.live[uuid := h], asked := p.asked[uuid := size])
  }

  function Unregister(p: Pool, uuid: nat): Pool {
    p.(live := p.live - {uuid}, asked := p.asked - {uuid})
  }

  lemma GrabbedIsLoose(segs: Segs, after: Segs, live: Live, parked: Parked, h: Handle)
    requires Held(segs, live, parked, {}) && !IsOut(segs, h)
    requires forall g :: IsOut(after, g) <==> IsOut(segs, g) || g == h
    ensures Held(after, live, parked, {h})
  {
    hide IsOut;
    forall u | u in live ensures live[u] !in {h} { assert IsOut(segs, live[u]); }
    forall z, g | z in parked && g in parked[z] ensures g !in {h} { assert IsOut(segs, g); }
  }

  lemma UnparkOk(segs: Segs, live: Live, parked: Parked, z: nat)
    requires Held(segs, live, parked, {}) && z in parked && parked[z] != []
    ensures Held(segs, live, parked[z := parked[z][1..]], {parked[z][0]}) && parked[z][0].blk.Size() == z
  {
    hide IsOut;
    var h, l, after := parked[z][0], parked[z], parked[z := parked[z][1..]];
    assert h in l;
    assert forall g :: g in l <==> g == h || g in l[1..];
    assert forall g :: g in l[1..] ==> g != h by {
      forall i | 0 <= i < |l[1..]| ensures l[1..][i] != h { assert l[1..][i] == l[i + 1]; }
    }
    assert forall g :: IsParked(after, g) <==> IsParked(parked, g) && g != h;
    assert IsParked(parked, h);
  }

  lemma ParkOk(segs: Segs, live: Live, parked: Parked, h: Handle)
    requires Held(segs, live, parked, {h})
    ensures Held(segs, live, Parking(parked, h), {})
  {
    hide IsOut;
    assert forall g :: IsParked(Parking(parked, h), g) <==> IsParked(parked, g) || g == h;
  }

  lemma RegisterOk(segs: Segs, live: Live, parked: Parked, uuid: nat, h: Handle)
    requires Held(segs, live, parked, {h}) && uuid !in live
    ensures Held(segs, live[uuid := h], parked, {})
  {
    assert h in {h};
    assert !IsParked(parked, h);
    hide IsOut, IsParked;
    var after := live[uuid := h];
    assert forall g :: IsLive(live, g) || g == h ==> IsLive(after, g) by {
      assert after[uuid] == h;
      forall g | IsLive(live, g) ensures IsLive(after, g) {
        var u :| u in live && live[u] == g;
        assert after[u] == g;
      }
    }
    hide IsLive;
    forall u | u in live ensures live[u] != h { assert live[u] !in {h}; }
  }

  lemma UnregisterOk(segs: Segs, live: Live, parked: Parked, uuid: nat)
    requires Held(segs, live, parked, {}) && uuid in live
    ensures Held(segs, live - {uuid}, parked, {live[uuid]})
  {
    var after, h := live - {uuid}, live[uuid];
    assert forall z, g :: z in parked && g in parked[z] ==> IsParked(parked, g);
    hide IsOut, IsParked;
    forall g | IsLive(live, g) ensures IsLive(after, g) || g == h {
      var u :| u in live && live[u] == g;
      if u != uuid { assert after[u] == g; }
    }
    hide IsLive;
  }

  lemma ForgetEmpty(segs: Segs, live: Live, parked: Parked, z: nat)
    requires Held(segs, live, parked, {}) && z in parked && parked[z] == []
    ensures Held(segs, live, parked - {z}, {})
  {
    hide IsOut, IsLive;
    assert forall g :: IsParked(parked - {z}, g) <==> IsParked(parked, g);
  }

  // ---- the public calls --------------------------------------------------------------------------

  datatype Outcome = Done(pool: Pool) | Abort

  predicate CacheHit(p: Pool, size: nat) {
    p.cacheOn && size in p.cacheSizes && size in p.parked && p.parked[size] != []
  }

  /** The block an allocation hands out, with the pool it leaves; `Exhausted` aborts the process. */
  ghost function Acquire(p: Pool, size: nat): (g: Grab)
    requires Valid(p)
    ensures g.Got? ==> SegmentsOk(g.pool) && Owned(g.pool, {g.handle}) && size <= g.handle.blk.Size()
    ensures g.Got? && CacheHit(p, size) ==> g.handle.blk.Size() == size
  {
    if CacheHit(p, size) then
      UnparkOk(p.segs, p.live, p.parked, size);
      Got(Unpark(p, size).(hits := p.hits + 1), p.parked[size][0])
    else
      var g := AllocBuddy(p, size);
      AllocBuddyOk(p, size);
      if g.Got? then GrabbedIsLoose(p.segs, g.pool.segs, p.live, p.parked, g.handle); g else g
  }

  /** Registering a uuid that is already live aborts. */
  ghost function Alloc(p: Pool, uuid: nat, size: nat): Outcome
    requires Valid(p)
  {
    var g := Acquire(p, size);
    if g.Exhausted? || uuid in g.pool.live then Abort else Done(Register(g.pool, uuid, size, g.handle))
  }

  lemma AllocKeeps(p: Pool, uuid: nat, size: nat)
    requires Valid(p)
    ensures Alloc(p, uuid, size).Done? ==> Valid(Alloc(p, uuid, size).pool)
  {
    hide SegsOk, Held, Grantable, RegionsOf, Acquire;
    var g := Acquire(p, size);
    if g.Got? && uuid !in g.pool.live {
      RegisterOk(g.pool.segs, g.pool.live, g.pool.parked, uuid, g.handle);
    }
  }

  /** A storage without memory is ignored; one that is not registered aborts. */
  ghost function Free(p: Pool, uuid: nat, size: nat, isNull: bool): (o: Outcome)
    requires Valid(p)
    ensures o.Done? ==> Valid(o.pool)
  {
    if isNull then Done(p)
    else if uuid !in p.live then Abort
    else
      var h, q := p.live[uuid], Unregister(p, uuid);
      UnregisterOk(p.segs, p.live, p.parked, uuid);
      if p.cacheOn && size in p.cacheSizes then
        ParkOk(q.segs, q.live, q.parked, h);
        Done(q.(parked := Parking(q.parked, h), stored := p.stored + 1))
      else
        ReleaseOk(q, h, {h});
        assert {h} - {h} == {};
        Done(ReleaseBlock(q, h))
  }

  /** Return the oldest parked block of size `z` to its segment. */
  ghost function FlushOne(p: Pool, z: nat): (q: Pool)
    requires Valid(p) && z in p.parked && p.parked[z] != []
    ensures Valid(q) && q == p.(segs := q.segs, parked := p.parked[z := p.parked[z][1..]])
    ensures RegionsOf(q.segs) == RegionsOf(p.segs)
  {
    var h, q := p.parked[z][0], Unpark(p, z);
    UnparkOk(p.segs, p.live, p.parked, z);
    ReleaseOk(q, h, {h});
    assert {h} - {h} == {};
    ReleaseBlock(q, h)
  }

  /** Return every parked block of size `z` to its segment, and forget the size. */
  ghost function Flush(p: Pool, z: nat): Pool
    requires Valid(p)
    decreases if z in p.parked then |p.parked[z]| else 0
  {
    if z !in p.parked then p
    else if p.parked[z] == [] then p.(parked := p.parked - {z})
    else Flush(FlushOne(p, z), z)
  }

  lemma {:induction false} FlushKeeps(p: Pool, z: nat)
    requires Valid(p)
    ensures var q := Flush(p, z);
            Valid(q) && q == p.(segs := q.segs, parked := p.parked - {z}) && RegionsOf(q.segs) == RegionsOf(p.segs)
    decreases if z in p.parked then |p.parked[z]| else 0
  {
    hide SegsOk, Held, Ample, Grantable, RegionsOf, FlushOne;
    if z !in p.parked {
      assert p.parked - {z} == p.parked;
    } else if p.parked[z] == [] {
      ForgetEmpty(p.segs, p.live, p.parked, z);
    } else {
      var q := FlushOne(p, z);
      FlushKeeps(q, z);
      assert q.parked - {z} == p.parked - {z};
    }
  }

  /** Flush the sizes of `order` that were not in the old list. */
  ghost function FlushNew(p: Pool, order: seq<nat>): (q: Pool)
    requires Valid(p)
    ensures Valid(q) && RegionsOf(q.segs) == RegionsOf(p.segs)
    ensures q == p.(segs := q.segs, parked := q.parked)
    ensures forall z :: z in q.parked <==> z in p.parked && (z in order ==> z in p.cacheSizes)
    ensures forall z :: z in q.parked ==> q.parked[z] == p.parked[z]
    decreases |order|
  {
    if order == [] then p
    else
      FlushKeeps(p, order[0]);
      var q := if order[0] in p.cacheSizes then p else Flush(p, order[0]);
      FlushNew(q, order[1..])
  }

  /** `order` lists the new set of cached sizes in the order the hash set is iterated. */
  ghost function UpdateCacheSizes(p: Pool, order: seq<nat>): (q: Pool)
    requires Valid(p)
    ensures Valid(q) && RegionsOf(q.segs) == RegionsOf(p.segs)
  {
    var q := FlushNew(p, order);
    q.(cacheSizes := set z | z in order)
  }
}
