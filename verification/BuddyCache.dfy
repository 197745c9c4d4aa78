/** What the public calls do to the object cache, told in terms of what is parked, live and counted. */
module BuddyCache {
  import opened Dyadic
  import opened BuddyTiling
  import opened OrderedMap
  import opened BuddySegment
  import opened BuddyPool
  import opened BuddyGrab
  import opened BuddyRuns
  import opened BuddyTheorems

  /** The blocks parked under a size, oldest first. */
  function ParkedUnder(p: Pool, z: nat): seq<Handle> { if z in p.parked then p.parked[z] else [] }

  /** With the cache on, freeing a listed size parks the block behind the others of its own size, and releases nothing. */
  lemma FreeParks(p: Pool, u: nat, n: nat)
    requires Valid(p) && p.cacheOn && n in p.cacheSizes && u in p.live
    ensures var o, h := Step(p, FreeOp(u, n, false)), p.live[u];
            && o.Done? && o.pool.segs == p.segs && o.pool.live == p.live - {u} && o.pool.asked == p.asked - {u}
            && (forall z :: ParkedUnder(o.pool, z) == if z == h.blk.Size() then ParkedUnder(p, z) + [h] else ParkedUnder(p, z))
            && o.pool.stored == p.stored + 1 && o.pool.hits == p.hits
            && o.pool.grants == p.grants && o.pool.cacheOn && o.pool.cacheSizes == p.cacheSizes && o.pool.minOrder == p.minOrder
  {
    hide Valid;
  }

  /** With the cache off, or for a size not listed, freeing gives the block back: it is out no longer, and nothing is parked. */
  lemma FreeReleases(p: Pool, u: nat, n: nat)
    requires Valid(p) && !(p.cacheOn && n in p.cacheSizes) && u in p.live
    ensures var o := Step(p, FreeOp(u, n, false));
            && o.Done? && o.pool == p.(segs := o.pool.segs, live := p.live - {u}, asked := p.asked - {u})
            && (forall g :: IsOut(o.pool.segs, g) <==> IsOut(p.segs, g) && g != p.live[u])
            && RegionsOf(o.pool.segs) == RegionsOf(p.segs)
  {
    hide SegsOk, Grantable, ReleaseBlock;
    var h, q := p.live[u], Unregister(p, u);
    UnregisterOk(p.segs, p.live, p.parked, u);
    ReleaseOk(q, h, {h});
  }

  /** A request of a listed size for which blocks are parked gets the oldest of them; no segment changes, and a hit is counted. */
  lemma AllocTakesParked(p: Pool, u: nat, n: nat)
    requires Valid(p) && p.cacheOn && n in p.cacheSizes && ParkedUnder(p, n) != [] && u !in p.live
    ensures var o := Step(p, AllocOp(u, n));
            && o.Done? && o.pool.segs == p.segs && o.pool.live == p.live[u := ParkedUnder(p, n)[0]] && o.pool.asked == p.asked[u := n]
            && (forall z :: ParkedUnder(o.pool, z) == if z == n then ParkedUnder(p, n)[1..] else ParkedUnder(p, z))
            && o.pool.hits == p.hits + 1 && o.pool.stored == p.stored
            && o.pool.grants == p.grants && o.pool.cacheOn && o.pool.cacheSizes == p.cacheSizes && o.pool.minOrder == p.minOrder
  {
    hide Valid, BuddyPool.AllocBuddy, SegmentsOk, Owned, Need;
  }

  lemma AllocFromSegments(p: Pool, u: nat, n: nat)
    requires Valid(p) && !(p.cacheOn && n in p.cacheSizes && ParkedUnder(p, n) != [])
    ensures var o := Step(p, AllocOp(u, n));
            o.Done? ==>
              && u !in p.live && u in o.pool.live
              && o.pool == p.(segs := o.pool.segs, grants := o.pool.grants, live := p.live[u := o.pool.live[u]], asked := p.asked[u := n])
              && (forall g :: IsOut(o.pool.segs, g) <==> IsOut(p.segs, g) || g == o.pool.live[u]) && !IsOut(p.segs, o.pool.live[u])
              && o.pool.live[u].blk.Size() == Pow2(Need(p.minOrder, n))
  {
    hide SegmentsOk, Held, Ample, BuddyPool.AllocBuddy, Need, RegionsOf, IsOut;
    AllocBuddyOk(p, n);
  }

  /** Any other request leaves the cache and its counters alone, and gets a block of its order that was not out. */
  lemma AllocPassesCache(p: Pool, u: nat, n: nat)
    requires Valid(p) && !(p.cacheOn && n in p.cacheSizes && ParkedUnder(p, n) != [])
    ensures var o := Step(p, AllocOp(u, n));
            o.Done? ==>
              && u !in p.live && u in o.pool.live
              && o.pool == p.(segs := o.pool.segs, grants := o.pool.grants, live := p.live[u := o.pool.live[u]], asked := p.asked[u := n])
              && (forall g :: IsOut(o.pool.segs, g) <==> IsOut(p.segs, g) || g == o.pool.live[u]) && !IsOut(p.segs, o.pool.live[u])
              && (forall z :: ParkedUnder(o.pool, z) == ParkedUnder(p, z))
              && o.pool.live[u].blk.Size() == Pow2(Need(p.minOrder, n))
  {
    hide Valid, Step, IsOut, Need;
    AllocFromSegments(p, u, n);
  }

  lemma FittingSegment(p: Pool, n: nat) returns (base: nat)
    requires SegmentsOk(p) && !NoneFits(p, n)
    ensures base in p.segs && Fits(p.segs[base], n) && AllocBuddy(p, n) == GrabFrom(p, base, n)
  {
    hide SegmentsOk, GrabFrom, NoneFits, Fits, Seg.WF, Expand, Sound;
    WellFormed(p);
    FitFound(p, n);
    var keys := SortedKeys(p.segs.Keys);
    base := keys[FirstFit(p.segs, keys, n)];
    assert base in keys;
  }

  lemma ServedInPlace(p: Pool, n: nat)
    requires SegmentsOk(p) && !NoneFits(p, n)
    ensures var g := AllocBuddy(p, n); g.Got? && g.pool.grants == p.grants && RegionsOf(g.pool.segs) == RegionsOf(p.segs)
  {
    hide SegmentsOk, GrabFrom, NoneFits, Fits, AllocBuddy, RegionsOf;
    ServedAtOnce(p, n);
    var base := FittingSegment(p, n);
    GrabFromOk(p, base, n);
  }

  /** Such a request succeeds without expansion when some segment fits. */
  lemma AllocServedAtOnce(p: Pool, u: nat, n: nat)
    requires Valid(p) && !(p.cacheOn && n in p.cacheSizes && ParkedUnder(p, n) != []) && u !in p.live && !NoneFits(p, n)
    ensures var o := Step(p, AllocOp(u, n));
            o.Done? && o.pool.grants == p.grants && RegionsOf(o.pool.segs) == RegionsOf(p.segs)
  {
    hide SegmentsOk, Held, Ample, AllocBuddy, NoneFits, RegionsOf;
    ServedInPlace(p, n);
    AllocBuddyOk(p, n);
  }

  /** Two public calls in a row. */
  ghost function Then(o: Outcome, op: Op): Outcome
    requires o.Done? ==> Valid(o.pool)
  {
    if o.Abort? then Abort else Step(o.pool, op)
  }

  /**
    A listed size that is freed and asked for again.  The freed block waits under its own size, so the request finds
    it exactly when the size is that of the block; a listed size that is not a block size is never served from the cache.
   */
  lemma FreedIsReused(p: Pool, u: nat, v: nat, n: nat)
    requires Valid(p) && p.cacheOn && n in p.cacheSizes && u in p.live && v !in p.live - {u} && ParkedUnder(p, n) == []
    ensures var h, o := p.live[u], Then(Step(p, FreeOp(u, n, false)), AllocOp(v, n));
            && (n == h.blk.Size() ==>
                  && o.Done? && v in o.pool.live && o.pool.live[v] == h && o.pool.segs == p.segs && o.pool.grants == p.grants
                  && o.pool.hits == p.hits + 1 && o.pool.stored == p.stored + 1
                  && forall z :: ParkedUnder(o.pool, z) == ParkedUnder(p, z))
            && (n != h.blk.Size() && o.Done? ==>
                  && o.pool.hits == p.hits && ParkedUnder(o.pool, h.blk.Size()) == ParkedUnder(p, h.blk.Size()) + [h]
                  && v in o.pool.live && o.pool.live[v] != h)
  {
    hide Valid, Step, ParkedUnder, IsOut;
    FreeParks(p, u, n);
    var q, h := Step(p, FreeOp(u, n, false)).pool, p.live[u];
    if n == h.blk.Size() {
      AllocTakesParked(q, v, n);
    } else {
      AllocPassesCache(q, v, n);
      LiveIsOut(p, u);
    }
  }

  lemma LiveIsOut(p: Pool, u: nat)
    requires Valid(p) && u in p.live
    ensures IsOut(p.segs, p.live[u])
  {
  }

  /** Only sizes of blocks have anything parked under them. */
  lemma ParkedSizesAreBlockSizes(p: Pool, z: nat)
    requires Valid(p) && ParkedUnder(p, z) != []
    ensures exists k :: p.minOrder <= k && z == Pow2(k)
  {
    var h := ParkedUnder(p, z)[0];
    assert h in p.parked[z];
    assert IsOut(p.segs, h) && h.blk.Size() == z;
    assert IsTile(p, h) by { InUseIsOut(p, h); }
    var s := p.segs[h.base];
    assert Shape(s) && s.Tile(h.blk);
    assert p.minOrder <= h.blk.ord && z == Pow2(h.blk.ord);
  }

  predicate IsBlockSize(minOrder: nat, n: nat) { n == Pow2(Need(minOrder, n)) }

  /** The sizes of blocks are the powers of two from the minimum size on. */
  lemma BlockSizes(minOrder: nat, n: nat)
    ensures IsBlockSize(minOrder, n) <==> exists k :: minOrder <= k && n == Pow2(k)
  {
    if k :| minOrder <= k && n == Pow2(k) {
      Pow2Monotone(minOrder, k);
      CeilLog2Exact(k);
    }
  }

  /**
    Allocating, freeing and allocating a listed size under which nothing is parked: the second allocation is a
    hit, and gets the first one's block back, exactly when the size is a power of two no smaller than the minimum.
   */
  lemma ReuseIsExact(p: Pool, u: nat, v: nat, n: nat)
    requires Valid(p) && p.cacheOn && n in p.cacheSizes && ParkedUnder(p, n) == [] && v !in p.live
    requires Step(p, AllocOp(u, n)).Done?
    ensures var first := Step(p, AllocOp(u, n)).pool;
            u in first.live &&
            var o := Then(Step(first, FreeOp(u, n, false)), AllocOp(v, n));
            && (IsBlockSize(p.minOrder, n) ==> o.Done? && o.pool.hits == p.hits + 1 && v in o.pool.live && o.pool.live[v] == first.live[u])
            && (!IsBlockSize(p.minOrder, n) && o.Done? ==> o.pool.hits == p.hits && v in o.pool.live && o.pool.live[v] != first.live[u])
  {
    hide Valid, Step, ParkedUnder, IsOut, Need, Then;
    AllocPassesCache(p, u, n);
    FreedIsReused(Step(p, AllocOp(u, n)).pool, u, v, n);
  }

  /** The sizes newly listed are flushed, those listed before and those not listed keep their blocks, and the list is the new one. */
  lemma NewSizesAreFlushed(p: Pool, order: seq<nat>)
    requires Valid(p)
    ensures var o := Step(p, CacheOp(order));
            && o.Done? && o.pool == p.(segs := o.pool.segs, parked := o.pool.parked, cacheSizes := o.pool.cacheSizes)
            && (forall z :: z in o.pool.cacheSizes <==> z in order)
            && (forall z :: ParkedUnder(o.pool, z) == if z in order && z !in p.cacheSizes then [] else ParkedUnder(p, z))
            && RegionsOf(o.pool.segs) == RegionsOf(p.segs)
  {
    hide Valid, RegionsOf;
  }

  /** A block that is flushed is in use no longer; every other block still is. */
  lemma FlushedIsFree(p: Pool, order: seq<nat>, h: Handle)
    requires Valid(p)
    ensures var o := Step(p, CacheOp(order));
            o.Done? && (IsOut(o.pool.segs, h) <==>
              IsOut(p.segs, h) && !(h in ParkedUnder(p, h.blk.Size()) && h.blk.Size() in order && h.blk.Size() !in p.cacheSizes))
  {
    hide SegmentsOk, Ample;
    NewSizesAreFlushed(p, order);
    var q := Step(p, CacheOp(order)).pool;
    assert q.live == p.live;
    assert forall g :: IsOut(p.segs, g) <==> IsParked(p.parked, g) || IsLive(p.live, g);
    assert forall g :: IsOut(q.segs, g) <==> IsParked(q.parked, g) || IsLive(p.live, g);
  }

  /** A request that needs no expansion, freed again without being cached: all is as before, up to the order of the free lists. */
  lemma AllocFreeRestores(p: Pool, u: nat, n: nat, base: nat, b: Blk)
    requires Valid(p) && !(p.cacheOn && n in p.cacheSizes) && u !in p.live && !NoneFits(p, n) && base in p.segs
    ensures var o := Then(Step(p, AllocOp(u, n)), FreeOp(u, n, false));
            && o.Done? && o.pool == p.(segs := o.pool.segs)
            && base in o.pool.segs && o.pool.segs[base].WF() && p.segs[base].WF()
            && (o.pool.segs[base].Free(b) <==> p.segs[base].Free(b))
  {
    hide Valid, Step, ParkedUnder, IsOut, NoneFits, Seg.WF, RegionsOf;
    AllocPassesCache(p, u, n);
    AllocServedAtOnce(p, u, n);
    var q := Step(p, AllocOp(u, n)).pool;
    FreeReleases(q, u, n);
    var r := Step(q, FreeOp(u, n, false)).pool;
    assert r.live == p.live && r.asked == p.asked by { SameAsked(p, u); }
    SameUseSameFree(p, r, base, b);
  }

  lemma SameAsked(p: Pool, u: nat)
    requires Valid(p) && u !in p.live
    ensures u !in p.asked
  {
  }
}
