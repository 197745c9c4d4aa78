/** What holds after every run of public calls on a freshly built pool. */
module BuddyTheorems {
  import opened Dyadic
  import opened BuddyTiling
  import opened BuddySegment
  import opened BuddyPool
  import opened BuddyGrab
  import opened BuddyRuns

  /** A pool as its constructor leaves it: one segment of `2^maxOrder` bytes, wholly free. */
  function Start(minOrder: nat, maxOrder: nat, base: nat, cacheOn: bool, sizes: set<nat>, grants: seq<nat>): Pool
    requires minOrder <= maxOrder
  {
    Pool(minOrder, cacheOn, sizes, map[base := NewSegment(minOrder, maxOrder)], map[], map[], map[], 0, 0, grants)
  }

  lemma StartValid(minOrder: nat, maxOrder: nat, base: nat, cacheOn: bool, sizes: set<nat>, grants: seq<nat>)
    requires minOrder <= maxOrder && minOrder <= SEGMENT_LIMIT_ORDER && Grantable(map[base := maxOrder], grants)
    ensures Valid(Start(minOrder, maxOrder, base, cacheOn, sizes, grants))
  {
    hide Sound, Grantable;
    NewSegmentSound(minOrder, maxOrder);
    var p := Start(minOrder, maxOrder, base, cacheOn, sizes, grants);
    assert base in p.segs;
    assert RegionsOf(p.segs) == map[base := maxOrder];
  }

  datatype Op = AllocOp(uuid: nat, size: nat) | FreeOp(uuid: nat, size: nat, isNull: bool) | CacheOp(order: seq<nat>)

  ghost function Step(p: Pool, op: Op): (o: Outcome)
    requires Valid(p)
    ensures o.Done? ==> Valid(o.pool)
  {
    match op
    case AllocOp(u, n) => AllocKeeps(p, u, n); Alloc(p, u, n)
    case FreeOp(u, n, isNull) => Free(p, u, n, isNull)
    case CacheOp(order) => Done(UpdateCacheSizes(p, order))
  }

  ghost function Run(p: Pool, ops: seq<Op>): Outcome
    requires Valid(p)
    decreases |ops|
  {
    if ops == [] then Done(p)
    else
      var o := Step(p, ops[0]);
      if o.Abort? then Abort else Run(o.pool, ops[1..])
  }

  lemma {:induction false} RunKeepsValid(p: Pool, ops: seq<Op>)
    requires Valid(p)
    ensures Run(p, ops).Done? ==> Valid(Run(p, ops).pool)
    decreases |ops|
  {
    hide Valid, Step;
    if ops != [] && Step(p, ops[0]).Done? { RunKeepsValid(Step(p, ops[0]).pool, ops[1..]); }
  }

  // ---- safety ------------------------------------------------------------------------------------

  /** A block in use: with a live storage, or parked in the object cache. */
  ghost predicate InUse(p: Pool, h: Handle) { IsLive(p.live, h) || IsParked(p.parked, h) }

  /** The address ranges of two blocks do not meet. */
  predicate AddressesApart(g: Handle, h: Handle) { g.Ptr() + g.blk.Size() <= h.Ptr() || h.Ptr() + h.blk.Size() <= g.Ptr() }

  lemma InUseIsOut(p: Pool, h: Handle)
    requires Valid(p)
    ensures IsOut(p.segs, h) <==> InUse(p, h)
  {
    hide SegmentsOk, IsOut;
  }

  /** A tile of a segment: one of its free blocks, or one of its blocks in use. */
  ghost predicate IsTile(p: Pool, h: Handle)
    requires Valid(p)
  {
    h.base in p.segs && p.segs[h.base].Tile(h.blk)
  }

  lemma TilesApart(p: Pool, g: Handle, h: Handle)
    requires Valid(p) && IsTile(p, g) && IsTile(p, h) && g != h
    ensures AddressesApart(g, h)
  {
    hide Held, Ample, Grantable, Full, Canonical, Listed, Balanced;
    var s, t := p.segs[g.base], p.segs[h.base];
    assert Sound(s) && Sound(t);
    assert s.Range(g.blk) && t.Range(h.blk);
    if g.base == h.base { assert Disjoint(g.blk, h.blk); }
    else { assert RegionsApart(g.base, s.hi, h.base, t.hi); }
  }

  /**
    The safety of the pool's memory: a live block is at least as large as asked, no two live blocks
    share a byte, and no live block shares a byte with a parked block or with a free one.
   */
  lemma LiveBlockSafe(p: Pool, u: nat, h: Handle)
    requires Valid(p) && u in p.live && IsTile(p, h) && h != p.live[u]
    ensures IsTile(p, p.live[u]) && AddressesApart(p.live[u], h)
    ensures p.asked[u] <= p.live[u].blk.Size()
    ensures h.blk in p.segs[h.base].out ==> InUse(p, h)
    ensures forall v :: v in p.live && v != u ==> p.live[v] != p.live[u] && IsTile(p, p.live[v])
  {
    hide SegmentsOk;
    InUseIsOut(p, h);
    TilesApart(p, p.live[u], h);
    forall v | v in p.live ensures IsTile(p, p.live[v]) { assert IsOut(p.segs, p.live[v]); }
  }

  /** `used` is exactly the bytes in use, and the rest of the capacity is exactly the bytes on the free lists. */
  lemma Accounting(p: Pool, base: nat)
    requires Valid(p) && base in p.segs
    ensures var s := p.segs[base];
            && s.used == Sum(s.out) && FreeBytes(s.lists, s.lo) == s.Cap() - s.used
            && (forall b :: b in s.out <==> InUse(p, Handle(base, b)))
  {
    forall b ensures b in p.segs[base].out <==> InUse(p, Handle(base, b)) { InUseIsOut(p, Handle(base, b)); }
  }

  lemma LiveIsTile(p: Pool, u: nat)
    requires Valid(p) && u in p.live
    ensures IsTile(p, p.live[u])
  {
    hide SegmentsOk;
  }

  lemma LivePairSafe(p: Pool, u: nat, v: nat)
    requires Valid(p) && u in p.live && v in p.live && u != v
    ensures AddressesApart(p.live[u], p.live[v]) && u in p.asked && p.asked[u] <= p.live[u].blk.Size()
  {
    LiveIsTile(p, u);
    LiveIsTile(p, v);
    assert u in p.asked && p.asked[u] <= p.live[u].blk.Size() && p.live[u] != p.live[v] by { hide SegmentsOk, IsOut; }
    hide Valid, AddressesApart, IsTile;
    TilesApart(p, p.live[u], p.live[v]);
  }

  /** After any run that does not abort, no two live blocks share a byte and each is large enough. */
  lemma EveryRunIsSafe(p: Pool, ops: seq<Op>, q: Pool, u: nat, v: nat)
    requires Valid(p) && Run(p, ops) == Done(q)
    requires u in q.live && v in q.live && u != v
    ensures AddressesApart(q.live[u], q.live[v]) && u in q.asked && q.asked[u] <= q.live[u].blk.Size()
  {
    hide Valid, AddressesApart, Run;
    RunKeepsValid(p, ops);
    LivePairSafe(q, u, v);
  }

  // ---- the free set depends on the blocks in use alone ---------------------------------------------

  /** The free blocks of a segment are the maximal aligned intervals that meet no block in use. */
  ghost predicate Unused(p: Pool, base: nat, b: Blk) { forall c :: InUse(p, Handle(base, c)) ==> Disjoint(b, c) }

  lemma FreeSetIsMaximal(p: Pool, base: nat, b: Blk)
    requires Valid(p) && base in p.segs
    ensures p.segs[base].WF()
    ensures var s := p.segs[base];
            s.Free(b) <==> s.Range(b) && Unused(p, base, b) && (b.ord == s.hi || !Unused(p, base, Parent(b)))
  {
    var s := p.segs[base];
    Accounting(p, base);
    FreeIsMaximal(s, b);
    hide Valid;
    assert forall c :: Clear(s, c) <==> Unused(p, base, c);
  }

  /**
    Two pools over the same regions with the same blocks in use have the same free blocks, whatever
    runs of allocations, releases and cache updates led to them.
   */
  lemma RunsAgreeOnFree(p: Pool, ops: seq<Op>, q: Pool, p': Pool, ops': seq<Op>, q': Pool, base: nat, b: Blk)
    requires Valid(p) && Valid(p') && Run(p, ops) == Done(q) && Run(p', ops') == Done(q')
    requires RegionsOf(q.segs) == RegionsOf(q'.segs) && q.minOrder == q'.minOrder
    requires forall h :: InUse(q, h) <==> InUse(q', h)
    requires base in q.segs
    ensures base in q'.segs && q.segs[base].WF() && q'.segs[base].WF()
    ensures q.segs[base].Free(b) <==> q'.segs[base].Free(b)
  {
    RunKeepsValid(p, ops);
    RunKeepsValid(p', ops');
    SameUseSameFree(q, q', base, b);
  }

  lemma SameUseSameFree(q: Pool, q': Pool, base: nat, b: Blk)
    requires Valid(q) && Valid(q')
    requires RegionsOf(q.segs) == RegionsOf(q'.segs) && q.minOrder == q'.minOrder
    requires forall h :: InUse(q, h) <==> InUse(q', h)
    requires base in q.segs
    ensures base in q'.segs && q.segs[base].WF() && q'.segs[base].WF()
    ensures q.segs[base].Free(b) <==> q'.segs[base].Free(b)
  {
    assert base in RegionsOf(q.segs) && RegionsOf(q.segs)[base] == q.segs[base].hi;
    assert base in RegionsOf(q'.segs) && RegionsOf(q'.segs)[base] == q'.segs[base].hi;
    assert q.segs[base].lo == q'.segs[base].lo;
    hide Valid, InUse;
    FreeSetIsMaximal(q, base, b);
    FreeSetIsMaximal(q', base, b);
    assert Unused(q, base, b) <==> Unused(q', base, b);
    assert Unused(q, base, Parent(b)) <==> Unused(q', base, Parent(b));
  }

  /** With nothing in use, each segment is one free block of its top order again. */
  lemma IdlePoolIsWhole(p: Pool, base: nat)
    requires Valid(p) && base in p.segs && forall h :: !InUse(p, h)
    ensures var s := p.segs[base];
            s.used == 0 && s.WF() && (forall b :: s.Free(b) <==> b == Blk(0, s.hi)) && s.lists[s.hi - s.lo] == [0]
  {
    Accounting(p, base);
    var s := p.segs[base];
    assert s.out == {} by { forall b ensures b !in s.out { assert !InUse(p, Handle(base, b)); } }
    IdleIsWhole(s);
  }

  // ---- the capacity the constructor is given -------------------------------------------------------------

  /** The size of a block after some splits: each halves it, rounding down. */
  function Halved(size: nat, splits: nat): nat { if splits == 0 then size else Halved(size / 2, splits - 1) }

  lemma {:induction false} HalvedPower(k: nat, splits: nat)
    ensures Halved(Pow2(k + splits), splits) == Pow2(k)
  {
    if splits > 0 {
      assert Pow2(k + splits) / 2 == Pow2(k + splits - 1);
      HalvedPower(k, splits - 1);
    }
  }

  /** What splitting a fresh segment makes of its capacity, where that is a power of two. */
  lemma SplitHalves(minOrder: nat, maxOrder: nat, need: nat)
    requires minOrder <= need <= maxOrder
    ensures var s := NewSegment(minOrder, maxOrder);
            s.WF() && FitOrder(s, need) <= s.hi && Pick(s, need).Size() == Halved(s.Cap(), maxOrder - need)
  {
    HalvedPower(need, maxOrder - need);
    Pow2Monotone(minOrder, need);
    CeilLog2Exact(need);
    NewSegmentFits(minOrder, maxOrder, Pow2(need));
  }

  /** A first request served by splitting the first segment gets a block that is large enough. */
  ghost predicate ServesFirst(cap: nat, minOrder: nat, maxOrder: nat) {
    forall n: nat :: Pow2(minOrder) <= n <= cap && CeilLog2(n) <= maxOrder ==> n <= Halved(cap, maxOrder - CeilLog2(n))
  }

  lemma PowerServes(minOrder: nat, maxOrder: nat)
    ensures ServesFirst(Pow2(maxOrder), minOrder, maxOrder)
  {
    hide Pow2, CeilLog2, Halved;
    forall n: nat | Pow2(minOrder) <= n <= Pow2(maxOrder) && CeilLog2(n) <= maxOrder
      ensures n <= Halved(Pow2(maxOrder), maxOrder - CeilLog2(n))
    {
      HalvedPower(CeilLog2(n), maxOrder - CeilLog2(n));
    }
  }

  lemma OneSplitTooSmall(cap: nat, maxOrder: nat)
    requires maxOrder > 0 && CeilLog2(cap) == maxOrder && cap != Pow2(maxOrder)
    ensures Pow2(maxOrder - 1) <= cap && Halved(cap, 1) < Pow2(maxOrder - 1)
  {
    hide CeilLog2;
    assert Halved(cap, 1) == Halved(cap / 2, 0) == cap / 2;
  }

  lemma OtherFails(cap: nat, minOrder: nat, maxOrder: nat)
    requires minOrder < maxOrder && CeilLog2(cap) == maxOrder && cap != Pow2(maxOrder)
    ensures !ServesFirst(cap, minOrder, maxOrder)
  {
    hide Pow2, CeilLog2, Halved;
    Pow2Monotone(minOrder, maxOrder - 1);
    CeilLog2Exact(maxOrder - 1);
    OneSplitTooSmall(cap, maxOrder);
    assert CeilLog2(Pow2(maxOrder - 1)) <= maxOrder;
  }

  /**
    The constructor compares only the rounded-up logarithm of the capacity with the top order.  That is too weak:
    when blocks can be split at all, fresh segments serve every request they admit exactly for capacities that are powers of two.
   */
  lemma CapacityMustBeAPower(cap: nat, minOrder: nat, maxOrder: nat)
    requires minOrder < maxOrder && CeilLog2(cap) == maxOrder
    ensures ServesFirst(cap, minOrder, maxOrder) <==> cap == Pow2(maxOrder)
  {
    hide ServesFirst, Pow2, CeilLog2;
    if cap == Pow2(maxOrder) { PowerServes(minOrder, maxOrder); } else { OtherFails(cap, minOrder, maxOrder); }
  }
}
