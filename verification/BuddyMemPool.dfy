/**
  The buddy memory pool as an object: its segments, the symbol table of live blocks, and the object
  cache.  Each public call is proved to take exactly the step that module BuddyRuns gives it.
 */
module BuddyMemPool {
  import opened Dyadic
  import opened BuddyTiling
  import opened BuddySegment
  import opened OrderedMap
  import opened BuddyPool
  import opened BuddyGrab
  import opened BuddyRuns
  import opened BuddyTheorems
  import opened BuddyObjects

  // ---- which object stands for which block, over all segments --------------------------------------

  type Owners = map<nat, Owner>
  type Cache = map<nat, seq<Block>>

  ghost predicate Holds(w: Owners, o: Block, h: Handle) { h.base in w && o in w[h.base] && w[h.base][o] == h.blk }

  ghost predicate SymbolsHold(w: Owners, symbols: map<nat, Block>, live: Live) {
    symbols.Keys == live.Keys && forall u :: u in symbols ==> Holds(w, symbols[u], live[u])
  }

  ghost predicate RowHolds(w: Owners, l: seq<Block>, hs: seq<Handle>) {
    |l| == |hs| && forall i :: 0 <= i < |l| ==> Holds(w, l[i], hs[i])
  }

  ghost predicate CacheHolds(w: Owners, cache: Cache, parked: Parked) {
    cache.Keys == parked.Keys && forall z :: z in cache ==> RowHolds(w, cache[z], parked[z])
  }

  /** Every live and every parked block is out, and none of them is `x`. */
  ghost predicate HandlesOut(p: Pool, x: Handle) {
    && (forall u :: u in p.live ==> IsOut(p.segs, p.live[u]) && p.live[u] != x)
    && (forall z, i :: z in p.parked && 0 <= i < |p.parked[z]| ==> IsOut(p.segs, p.parked[z][i]) && p.parked[z][i] != x)
  }

  /** A change to one segment that keeps every object standing for a block that is out, apart from `x`. */
  ghost predicate KeepsOut(p: Pool, w: Owners, w': Owners, x: Handle) {
    forall b, o :: b in w && o in w[b] && IsOut(p.segs, Handle(b, w[b][o])) && Handle(b, w[b][o]) != x ==> Holds(w', o, Handle(b, w[b][o]))
  }

  lemma SegmentKeeps(p: Pool, w: Owners, base: nat, o: Owner, x: Blk)
    requires base in w && base in p.segs && OutsKept(w[base], o, p.segs[base], x)
    ensures KeepsOut(p, w, w[base := o], Handle(base, x))
  {}

  lemma TablesKept(p: Pool, w: Owners, w': Owners, symbols: map<nat, Block>, cache: Cache, x: Handle)
    requires HandlesOut(p, x) && KeepsOut(p, w, w', x)
    requires SymbolsHold(w, symbols, p.live) && CacheHolds(w, cache, p.parked)
    ensures SymbolsHold(w', symbols, p.live) && CacheHolds(w', cache, p.parked)
  {
    hide IsOut;
    forall z | z in cache ensures RowHolds(w', cache[z], p.parked[z]) {
      assert RowHolds(w, cache[z], p.parked[z]);
    }
  }

  lemma MoreOwners(w: Owners, w': Owners, symbols: map<nat, Block>, live: Live, cache: Cache, parked: Parked)
    requires SymbolsHold(w, symbols, live) && CacheHolds(w, cache, parked)
    requires forall b :: b in w ==> b in w' && w'[b] == w[b]
    ensures SymbolsHold(w', symbols, live) && CacheHolds(w', cache, parked)
  {
    forall z | z in cache ensures RowHolds(w', cache[z], parked[z]) {
      assert RowHolds(w, cache[z], parked[z]);
    }
  }

  /** A block without a holder is none of the live and parked ones. */
  lemma NotHeld(p: Pool, loose: set<Handle>, x: Handle)
    requires Held(p.segs, p.live, p.parked, loose) && (x in loose || !IsOut(p.segs, x))
    ensures HandlesOut(p, x)
  {
    hide IsOut, IsParked, IsLive;
  }

  /** The largest order among the segments, by its capacity. */
  ghost predicate LargestOf(segments: map<nat, Segment>, top: nat) {
    (exists b :: b in segments && segments[b].maxOrder == top) && forall b :: b in segments ==> segments[b].maxOrder <= top
  }

  lemma PowOfMax(a: nat, b: nat)
    ensures Max(Pow2(a), Pow2(b)) == Pow2(Max(a, b))
  {
    Pow2Monotone(Lesser(a, b), Max(a, b));
  }

  /** The capacity of the largest segment. */
  method LargestCapacity(segments: map<nat, Segment>) returns (previous: nat, ghost top: nat)
    requires segments != map[]
    ensures previous == Pow2(top) && LargestOf(segments, top)
  {
    previous, top := 0, 0;
    var keys := SortedKeys(segments.Keys);
    var i := 0;
    assert forall b :: b in segments ==> b in keys;
    while i < |keys|
      invariant 0 <= i <= |keys|
      invariant i == 0 ==> previous == 0
      invariant i > 0 ==> previous == Pow2(top) && exists b :: b in segments && segments[b].maxOrder == top
      invariant forall j :: 0 <= j < i ==> keys[j] in segments && segments[keys[j]].maxOrder <= top
    {
      assert keys[i] in keys;
      ghost var order := segments[keys[i]].maxOrder;
      PowOfMax(top, order);
      previous := Max(previous, Pow2(segments[keys[i]].maxOrder));
      top := if i == 0 then order else Max(top, order);
      i := i + 1;
    }
    assert i > 0;
  }

  lemma NextIs(p: Pool, segments: map<nat, Segment>, top: nat)
    requires SegmentsOk(p) && LargestOf(segments, top)
    requires segments.Keys == p.segs.Keys && forall b :: b in segments ==> p.segs[b].hi == segments[b].maxOrder
    ensures p.minOrder <= Lesser(top + 1, SEGMENT_LIMIT_ORDER) && RegionsOf(p.segs) != map[]
    ensures NextOrder(RegionsOf(p.segs)) == Lesser(top + 1, SEGMENT_LIMIT_ORDER)
  {
    TopAtLeastMin(p);
    TopOfOrders(RegionsOf(p.segs), segments, top);
    hide SegmentsOk, SegsOk, LargestOf, RegionsOf;
  }

  /** What expansion does, once the order of the next segment is known. */
  lemma ExpandIs(p: Pool, n: nat)
    requires SegmentsOk(p) && RegionsOf(p.segs) != map[] && n == NextOrder(RegionsOf(p.segs)) && p.minOrder <= n && p.grants != []
    ensures p.grants[0] !in p.segs
    ensures Expand(p) == p.(segs := p.segs[p.grants[0] := NewSegment(p.minOrder, n)], grants := p.grants[1..])
  {
    hide SegsOk, NewSegment, NextOrder, RegionsApart;
    assert p.grants[0] !in RegionsOf(p.segs);
  }

  lemma TopOfOrders(r: Regions, segments: map<nat, Segment>, top: nat)
    requires r != map[] && LargestOf(segments, top) && r.Keys == segments.Keys
    requires forall b :: b in segments ==> r[b] == segments[b].maxOrder
    ensures TopOrder(r) == top
  {
    var b :| b in segments && segments[b].maxOrder == top;
    assert b in r;
  }

  ghost predicate AllSegments(segs: Segs, keys: seq<nat>) {
    keys == SortedKeys(segs.Keys) && forall k :: k in keys ==> k in segs && segs[k].WF()
  }

  ghost predicate NoneBefore(segs: Segs, keys: seq<nat>, size: nat, i: nat)
    requires AllSegments(segs, keys) && i <= |keys|
  {
    forall j :: 0 <= j < i ==> !Fits(segs[keys[j]], size)
  }

  /** What the loop over the segments finds: the segment, the order needed, and the list to take from. */
  ghost predicate Finds(segs: Segs, keys: seq<nat>, size: nat, found: bool, base: nat, need: nat, order: nat)
    requires AllSegments(segs, keys)
  {
    var i := FirstFit(segs, keys, size);
    && found == (i < |keys|)
    && (found ==> base == keys[i] && need == Need(segs[base].lo, size) && order == FitOrder(segs[base], need))
  }

  /** The first segment that fits is the only one that fits with nothing before it that fits. */
  lemma FindsAt(segs: Segs, keys: seq<nat>, size: nat, i: nat, need: nat, order: nat)
    requires AllSegments(segs, keys) && i < |keys| && NoneBefore(segs, keys, size, i) && Fits(segs[keys[i]], size)
    requires need == Need(segs[keys[i]].lo, size) && order == FitOrder(segs[keys[i]], need)
    ensures Finds(segs, keys, size, true, keys[i], need, order)
  {
    hide Fits, FitOrder, Need;
    assert FirstFit(segs, keys, size) == i;
  }

  lemma FindsNone(segs: Segs, keys: seq<nat>, size: nat, base: nat, need: nat, order: nat)
    requires AllSegments(segs, keys) && NoneBefore(segs, keys, size, |keys|)
    ensures Finds(segs, keys, size, false, base, need, order)
  {
    hide Fits;
  }

  lemma OneMore(segs: Segs, keys: seq<nat>, size: nat, i: nat)
    requires AllSegments(segs, keys) && i < |keys| && NoneBefore(segs, keys, size, i) && !Fits(segs[keys[i]], size)
    ensures NoneBefore(segs, keys, size, i + 1)
  {
    hide Fits;
  }

  lemma SegmentsAre(p: Pool)
    requires SegmentsOk(p)
    ensures p.segs != map[] && forall b :: b in p.segs ==> p.segs[b].WF() && Sound(p.segs[b]) && p.segs[b].lo == p.minOrder
  {
    hide Grantable, Balanced;
  }

  /** The segment at `base` serves the request with a block from the list of `order`. */
  ghost predicate Served(p: Pool, size: nat, base: nat, need: nat, order: nat)
    requires SegmentsOk(p)
  {
    && base in p.segs
    && var s := p.segs[base];
       && s.WF() && Sound(s) && s.lo <= need <= s.hi && order == FitOrder(s, need) <= s.hi
       && AllocBuddy(p, size) == Got(p.(segs := p.segs[base := AllocFrom(s, need)]), Handle(base, Pick(s, need)))
       && !IsOut(p.segs, Handle(base, Pick(s, need)))
  }

  /** The search's outcome decides what an allocation does. */
  lemma ServedBy(p: Pool, keys: seq<nat>, size: nat, base: nat, need: nat, order: nat)
    requires SegmentsOk(p) && AllSegments(p.segs, keys) && Finds(p.segs, keys, size, true, base, need, order)
    ensures Served(p, size, base, need, order)
  {
    hide SegmentsOk, Sound, FitOrder, Need, Pick, AllocFrom, Expand;
    SegmentsAre(p);
    var i := FirstFit(p.segs, keys, size);
    assert keys[i] in keys;
  }

  /** No segment serves the request: allocation goes on with expansion. */
  ghost predicate Passed(p: Pool, size: nat)
    requires SegmentsOk(p)
  {
    && (p.grants == [] ==> AllocBuddy(p, size).Exhausted?)
    && (p.grants != [] ==>
          var e := Expand(p);
          && SegmentsOk(e) && AllocBuddy(p, size) == AllocBuddy(e, size)
          && e == p.(segs := e.segs, grants := p.grants[1..])
          && (forall h :: IsOut(e.segs, h) <==> IsOut(p.segs, h)))
  }

  lemma ExpandShape(p: Pool)
    requires SegmentsOk(p) && p.grants != []
    ensures Expand(p) == p.(segs := Expand(p).segs, grants := p.grants[1..])
  {
    hide SegmentsOk;
  }

  lemma NotServed(p: Pool, keys: seq<nat>, size: nat, base: nat, need: nat, order: nat)
    requires SegmentsOk(p) && AllSegments(p.segs, keys) && Finds(p.segs, keys, size, false, base, need, order)
    ensures Passed(p, size)
  {
    hide SegmentsOk, IsOut, Expand, FirstFit;
    if p.grants != [] {
      ExpandOk(p);
      ExpandShape(p);
    }
  }

  lemma PassedMeans(p: Pool, size: nat)
    requires SegmentsOk(p) && Held(p.segs, p.live, p.parked, {}) && Passed(p, size)
    ensures p.grants == [] ==> AllocBuddy(p, size).Exhausted?
    ensures p.grants != [] ==>
              var e := Expand(p);
              && SegmentsOk(e) && AllocBuddy(p, size) == AllocBuddy(e, size) && |e.grants| < |p.grants|
              && Held(e.segs, e.live, e.parked, {})
  {
    hide SegmentsOk, IsOut, IsLive, IsParked, AllocBuddy, Expand;
  }

  /** Can segment `g` serve the request, and with a block from which list? */
  method TrySegment(g: Segment, size: nat, ghost s: Seg) returns (fits: bool, need: nat, order: nat)
    requires g.Valid({}) && g.s == s && s.WF() && Sound(s)
    ensures fits == Fits(s, size)
    ensures fits ==> need == Need(s.lo, size) && order == FitOrder(s, need)
  {
    UsedTestIsSafe(s, size);
    assert g.cap == s.Cap() && g.used == s.used && g.minOrder == s.lo && g.maxOrder == s.hi;
    assert Need(s.lo, size) == CeilLog2(Max(size, Pow2(s.lo)));
    hide Sound, Segment.Valid, CeilLog2;
    need, order := 0, 0;
    var required := Max(size, Pow2(g.minOrder));
    if required > g.cap - g.used { return false, need, order; }
    need := CeilLog2(required);
    if need > g.maxOrder {
      assert false;
    }
    need := Max(need, g.minOrder);
    order := g.FindFit(need);
    fits := order <= g.maxOrder;
  }

  /** How many of the keys are at most `x`. */
  method UpperBound(keys: seq<nat>, x: nat) returns (i: nat)
    requires forall i, j :: 0 <= i < j < |keys| ==> keys[i] < keys[j]
    ensures i <= |keys| && (forall j :: 0 <= j < i ==> keys[j] <= x) && (forall j :: i <= j < |keys| ==> x < keys[j])
  {
    i := 0;
    while i < |keys| && keys[i] <= x
      invariant 0 <= i <= |keys| && forall j :: 0 <= j < i ==> keys[j] <= x
    {
      i := i + 1;
    }
  }

  ghost predicate InAddressOrder(segments: map<nat, Segment>) {
    && (forall b :: b in segments ==> segments[b].ptr == b)
    && (forall a, b :: a in segments && b in segments && a < b ==> a + segments[a].cap <= b)
  }

  method Locate(segments: map<nat, Segment>, ptr: nat) returns (g: Segment?)
    requires InAddressOrder(segments)
    ensures g != null ==> g in segments.Values && g.ptr <= ptr < g.ptr + g.cap
    ensures g == null ==> forall b :: b in segments ==> !(b <= ptr < b + segments[b].cap)
  {
    var keys := SortedKeys(segments.Keys);
    var i := UpperBound(keys, ptr);
    forall b | b in segments && b <= ptr ensures exists j :: 0 <= j < i && keys[j] == b {
      assert b in keys;
    }
    if i == 0 { return null; }
    assert keys[i - 1] in keys;
    g := segments[keys[i - 1]];
    if !(g.ptr <= ptr < g.ptr + g.cap) { g := null; }
  }

  class BuddyMemPool {
    const minOrder: nat
    const cacheOn: bool
    var cacheSizes: set<nat>
    var segments: map<nat, Segment>
    var symbols: map<nat, Block>
    var objectCache: Cache
    var hits: nat
    var stored: nat
    /** The base addresses the backing allocator will still grant. */
    var grants: seq<nat>
    /** The blocks that the tables' objects stand for, and the bytes each live storage asked for. */
    ghost var live: Live
    ghost var parked: Parked
    ghost var asked: map<nat, nat>

    /** A pool over one segment of `cap` bytes at `base`. */
    constructor (minOrder: nat, maxOrder: nat, cap: nat, base: nat, cacheOn: bool, sizes: set<nat>, grants: seq<nat>)
      requires minOrder <= maxOrder && cap == Pow2(maxOrder)
      requires minOrder <= SEGMENT_LIMIT_ORDER && Grantable(map[base := maxOrder], grants)
      ensures Valid() && Value() == Start(minOrder, maxOrder, base, cacheOn, sizes, grants)
      ensures fresh(segments.Values) && fresh(Blocks())
    {
      hide BuddyPool.Valid, Segment.Valid;
      StartValid(minOrder, maxOrder, base, cacheOn, sizes, grants);
      var g := new Segment(base, cap, minOrder, maxOrder);
      this.minOrder, this.cacheOn, cacheSizes := minOrder, cacheOn, sizes;
      segments, symbols, objectCache := map[base := g], map[], map[];
      hits, stored, this.grants := 0, 0, grants;
      live, parked, asked := map[], map[], map[];
      new;
      assert SegValues() == map[base := NewSegment(minOrder, maxOrder)];
    }

    ghost function Blocks(): set<Block>
      reads this`segments, segments.Values
    {
      set b, o | b in segments && o in segments[b].owner :: o
    }

    ghost function Owners(): Owners
      reads this`segments, segments.Values
    {
      map b | b in segments :: segments[b].owner
    }

    ghost function SegValues(): Segs
      reads this`segments, segments.Values
    {
      map b | b in segments :: segments[b].s
    }

    /** The value this object stands for. */
    ghost function Value(): Pool
      reads this, segments.Values
    {
      Pool(minOrder, cacheOn, cacheSizes, SegValues(), live, asked, parked, hits, stored, grants)
    }

    ghost predicate SegmentsValid()
      reads this`segments, segments.Values, Blocks()
    {
      forall b :: b in segments ==> segments[b].ptr == b && segments[b].Valid({})
    }

    ghost predicate Repr()
      reads this`segments, this`symbols, this`objectCache, this`live, this`parked, segments.Values, Blocks()
    {
      SegmentsValid() && SymbolsHold(Owners(), symbols, live) && CacheHolds(Owners(), objectCache, parked)
    }

    /** The block, and the pool it leaves, are those of `g`; no block when `g` failed. */
    ghost predicate Answers(block: Block?, g: BuddyPool.Grab)
      reads this, segments.Values, Blocks()
    {
      && (block == null <==> g.Exhausted?)
      && (block != null ==> Repr() && Value() == g.pool && Holds(Owners(), block, g.handle))
    }

    /** The pool's invariant between public calls. */
    ghost predicate Valid()
      reads this, segments.Values, Blocks()
    {
      Repr() && BuddyPool.Valid(Value())
    }

    ghost predicate Alone(base: nat)
      requires base in segments
      reads this`segments, segments.Values
    {
      forall b :: b in segments && b != base ==> segments[b] != segments[base] && segments[b].owner.Keys !! segments[base].owner.Keys
    }

    /** No other segment shares a block object with the segment at `base`. */
    lemma OwnersApart(base: nat)
      requires SegmentsValid() && base in segments
      ensures Alone(base)
    {
      assert forall o :: o in segments[base].owner ==> o.segment == segments[base];
      forall b | b in segments && b != base ensures segments[b] != segments[base] && segments[b].owner.Keys !! segments[base].owner.Keys {
        assert forall o :: o in segments[b].owner ==> o.segment == segments[b];
      }
    }

    /** A block some table holds stands for a block of its own segment, and no segment has deleted it. */
    lemma HeldNotDeleted(o: Block, h: Handle, b: nat)
      requires SegmentsValid() && Holds(Owners(), o, h) && b in segments
      ensures o !in segments[b].deleted
    {
      var g := segments[h.base];
      assert g.Valid({}) && segments[b].Valid({});
      assert Stands(o, g.owner[o], g);
    }

    /** No live and no parked block is one that coalescing, in whichever segment, has deleted. */
    lemma NoneDeleted(b: nat)
      requires Valid() && b in segments
      ensures forall u :: u in symbols ==> symbols[u] !in segments[b].deleted
      ensures forall z, i :: z in objectCache && 0 <= i < |objectCache[z]| ==> objectCache[z][i] !in segments[b].deleted
    {
      hide BuddyPool.Valid, Segment.Valid, Holds;
      forall u | u in symbols ensures symbols[u] !in segments[b].deleted { HeldNotDeleted(symbols[u], live[u], b); }
      forall z, i | z in objectCache && 0 <= i < |objectCache[z]| ensures objectCache[z][i] !in segments[b].deleted {
        assert RowHolds(Owners(), objectCache[z], parked[z]);
        HeldNotDeleted(objectCache[z][i], parked[z][i], b);
      }
    }

    /** Apart from the one at `base`, the segments are as `w` and `v` say. */
    ghost predicate OthersAre(base: nat, w: Owners, v: Segs)
      reads this`segments, segments.Values
    {
      && segments.Keys == w.Keys == v.Keys
      && forall b :: b in segments && b != base ==> segments[b].owner == w[b] && segments[b].s == v[b]
    }

    lemma SnapshotsChange(base: nat, w: Owners, v: Segs)
      requires OthersAre(base, w, v) && base in segments
      ensures Owners() == w[base := segments[base].owner] && SegValues() == v[base := segments[base].s]
    {
    }

    /** Allocate from one segment that fits. */
    method AllocFromSegment(base: nat, g: Segment, need: nat, order: nat, ghost s: Seg, ghost w: Owners, ghost v: Segs)
      returns (block: Block)
      requires SegmentsValid() && base in segments && g == segments[base] && g.s == s && s.WF() && Sound(s)
      requires g.minOrder == s.lo <= need <= s.hi == g.maxOrder && order == FitOrder(s, need) <= s.hi
      requires Alone(base) && OthersAre(base, w, v)
      modifies g, g.owner.Keys
      ensures SegmentsValid() && g.s == AllocFrom(s, need) && OthersAre(base, w, v)
      ensures block in g.owner && g.owner[block] == Pick(s, need) && OutsKept(old(g.owner), g.owner, s, Pick(s, need))
      ensures fresh(g.owner.Keys - old(g.owner.Keys))
    {
      hide Sound, Segment.Valid, AllocFrom, Pick, FitOrder, Seg.WF, OutsKept;
      block := g.AllocBlock(need, order, s);
    }

    /** What `AllocFromSegment` needs to know of the segment at `base`. */
    lemma Ready(base: nat, g: Segment, w: Owners, v: Segs)
      requires SegmentsValid() && base in segments && g == segments[base] && w == Owners() && v == SegValues()
      ensures g.s.WF() && g.ptr == base && g.cap == g.s.Cap() && g.used == g.s.used && g.minOrder == g.s.lo && g.maxOrder == g.s.hi
      ensures base in w && w[base] == g.owner && base in v && v[base] == g.s && Alone(base) && OthersAre(base, w, v)
    {
      OwnersApart(base);
      assert segments[base].Valid({});
    }

    /** New owners in one segment are new blocks of the pool. */
    twostate lemma FreshBlocks(base: nat)
      requires segments == old(segments) && base in segments
      requires forall b :: b in segments && b != base ==> segments[b].owner == old(segments[b].owner)
      requires fresh(segments[base].owner.Keys - old(segments[base].owner.Keys))
      ensures fresh(Blocks() - old(Blocks()))
    {
    }

    /** The same, told of the owners and values of all segments. */
    method AllocAmong(base: nat, need: nat, order: nat, ghost s: Seg, ghost t: Seg, ghost b: Blk, ghost w: Owners, ghost v: Segs) returns (block: Block)
      requires SegmentsValid() && base in segments && w == Owners() && v == SegValues() && base in w && base in v && s == v[base]
      requires s.WF() && Sound(s) && s.lo <= need <= s.hi && order == FitOrder(s, need) <= s.hi
      requires t == AllocFrom(s, need) && b == Pick(s, need)
      modifies segments[base], segments[base].owner.Keys
      ensures SegmentsValid() && SegValues() == v[base := t] && fresh(Blocks() - old(Blocks()))
      ensures base in Owners() && Owners() == w[base := Owners()[base]] && OutsKept(w[base], Owners()[base], s, b)
      ensures block in Owners()[base] && Owners()[base][block] == b
    {
      hide SegmentsValid, Segment.Valid, Stands, Alone, OthersAre, Owners, SegValues, Sound, AllocFrom, Pick, FitOrder, Seg.WF, OutsKept;
      Ready(base, segments[base], w, v);
      block := AllocFromSegment(base, segments[base], need, order, s, w, v);
      SnapshotsChange(base, w, v);
      FreshBlocks(base);
    }

    /** Allocate from one segment that fits, seen as a step of the whole pool. */
    method Grab(base: nat, need: nat, order: nat, ghost p: Pool, ghost w: Owners, ghost x: Handle) returns (block: Block)
      requires Repr() && p == Value() && w == Owners() && base in segments
      requires var s := p.segs[base];
               && s.WF() && Sound(s) && s.lo <= need <= s.hi && order == FitOrder(s, need) <= s.hi && x == Handle(base, Pick(s, need))
      requires HandlesOut(p, x)
      modifies segments[base], segments[base].owner.Keys
      ensures Repr() && Value() == p.(segs := p.segs[base := AllocFrom(p.segs[base], need)])
      ensures Holds(Owners(), block, x) && fresh(Blocks() - old(Blocks()))
    {
      hide Segment.Valid, Stands, IsOut, Blocks, SegmentsValid, Owners, SegValues, Sound, AllocFrom, Pick, FitOrder, Seg.WF, OutsKept, HandlesOut, SymbolsHold, CacheHolds, KeepsOut;
      Ready(base, segments[base], w, p.segs);
      block := AllocAmong(base, need, order, p.segs[base], AllocFrom(p.segs[base], need), x.blk, w, p.segs);
      SegmentKeeps(p, w, base, Owners()[base], x.blk);
      TablesKept(p, w, Owners(), symbols, objectCache, x);
    }

    // ---- expansion -------------------------------------------------------------------------------

    lemma OrdersAgree()
      requires SegmentsValid()
      ensures segments.Keys == SegValues().Keys && forall b :: b in segments ==> SegValues()[b].hi == segments[b].maxOrder
    {
      forall b | b in segments ensures segments[b].s.hi == segments[b].maxOrder { assert segments[b].Valid({}); }
    }

    /** The capacity and order of the next segment, computed as the pool does. */
    lemma DoubledOrder(top: nat)
      ensures var n, cap := Lesser(top + 1, SEGMENT_LIMIT_ORDER), Lesser(Pow2(top) * 2, Pow2(SEGMENT_LIMIT_ORDER));
              cap == Pow2(n) && CeilLog2(cap) == n
    {
      var n := Lesser(top + 1, SEGMENT_LIMIT_ORDER);
      if top + 1 < SEGMENT_LIMIT_ORDER { Pow2Monotone(top + 1, SEGMENT_LIMIT_ORDER); }
      else { Pow2Monotone(SEGMENT_LIMIT_ORDER, top + 1); }
      CeilLog2Exact(n);
    }

    /** The next segment's capacity: twice that of the largest, up to 2^29 bytes. */
    method NextCapacity(ghost p: Pool) returns (cap: nat, maxOrder: nat)
      requires SegmentsValid() && p.segs == SegValues() && SegmentsOk(p) && segments != map[]
      ensures cap == Pow2(maxOrder) && p.minOrder <= maxOrder
      ensures RegionsOf(p.segs) != map[] && maxOrder == NextOrder(RegionsOf(p.segs))
    {
      OrdersAgree();
      hide SegmentsValid, SegmentsOk, LargestOf, SegValues, NextOrder;
      var previous, top := LargestCapacity(segments);
      NextIs(p, segments, top);
      cap := Lesser(previous * 2, Pow2(SEGMENT_LIMIT_ORDER));
      maxOrder := CeilLog2(cap);
      DoubledOrder(top);
    }

    /** Add a segment, if the backing allocator grants the region. */
    method ExpandBuddySegment(ghost p: Pool, ghost w: Owners) returns (ok: bool)
      requires Repr() && SegmentsValid() && p == Value() && w == Owners() && SegmentsOk(p) && segments != map[]
      requires p.segs == SegValues() && p.segs.Keys == segments.Keys && p.grants == grants && p.minOrder == minOrder
      modifies this`segments, this`grants
      ensures ok == (p.grants != []) && Repr() && SegmentsValid()
      ensures !ok ==> Value() == p && segments == old(segments)
      ensures ok ==> Value() == Expand(p)
      ensures fresh(segments.Values - old(segments.Values)) && fresh(Blocks() - old(Blocks()))
    {
      hide SegmentsValid, SymbolsHold, CacheHolds, SegmentsOk, Owners, SegValues, Expand, NewSegment, NextOrder, RegionsOf;
      ghost var blocks := Blocks();
      var cap, maxOrder := NextCapacity(p);
      ok := grants != [];
      if ok {
        ExpandIs(p, maxOrder);
        AddSegment(p, w, cap, maxOrder);
      }
    }

    /** Make a segment of the region the backing allocator grants. */
    method AddSegment(ghost p: Pool, ghost w: Owners, cap: nat, maxOrder: nat)
      requires Repr() && SegmentsValid() && p == Value() && w == Owners() && grants != [] && grants[0] !in segments
      requires minOrder <= maxOrder && cap == Pow2(maxOrder)
      modifies this`segments, this`grants
      ensures Repr() && Value() == p.(segs := p.segs[p.grants[0] := NewSegment(minOrder, maxOrder)], grants := p.grants[1..])
      ensures fresh(segments.Values - old(segments.Values)) && fresh(Blocks() - old(Blocks()))
    {
      hide SymbolsHold, CacheHolds, Segment.Valid, Owners, SegValues, NewSegment;
      ghost var blocks := Blocks();
      var base := grants[0];
      grants := grants[1..];
      var g := new Segment(base, cap, minOrder, maxOrder);
      InsertSegment(base, g, w, p.segs);
      MoreOwners(w, Owners(), symbols, live, objectCache, parked);
    }

    method InsertSegment(base: nat, g: Segment, ghost w: Owners, ghost v: Segs)
      requires SegmentsValid() && w == Owners() && v == SegValues() && base !in segments && g.ptr == base && g.Valid({})
      modifies this`segments
      ensures SegmentsValid() && Owners() == w[base := g.owner] && SegValues() == v[base := g.s] && base !in w
      ensures segments.Values <= old(segments.Values) + {g} && Blocks() <= old(Blocks()) + g.owner.Keys
    {
      hide Segment.Valid;
      segments := segments[base := g];
    }

    // ---- allocation from the segments --------------------------------------------------------------

    lemma EachSegment(p: Pool, base: nat)
      requires SegmentsValid() && p.segs == SegValues() && SegmentsOk(p) && base in segments
      ensures segments[base].Valid({}) && segments[base].s == p.segs[base] && p.segs[base].WF() && Sound(p.segs[base])
    {
      SegmentsAre(p);
      hide SegmentsOk, Sound;
    }

    /** The loop over the segments, in the order of their addresses. */
    method FindSegment(size: nat, ghost p: Pool, keys: seq<nat>) returns (found: bool, base: nat, need: nat, order: nat)
      requires SegmentsValid() && p.segs == SegValues() && SegmentsOk(p) && AllSegments(p.segs, keys)
      requires NoneBefore(p.segs, keys, size, 0) && forall i :: 0 <= i < |keys| ==> keys[i] in segments && keys[i] in p.segs
      ensures Finds(p.segs, keys, size, found, base, need, order) && (found ==> base in segments)
    {
      hide SegmentsOk, Sound, Fits, Segment.Valid, Finds, FirstFit, FitOrder, Need, NoneBefore, SegmentsValid, AllSegments, Seg.WF;
      ghost var blocks, segs := Blocks(), p.segs;
      found, base, need, order := false, 0, 0, 0;
      var i := 0;
      while i < |keys|
        invariant 0 <= i <= |keys| && !found && NoneBefore(segs, keys, size, i)
      {
        EachSegment(p, keys[i]);
        found, need, order := TrySegment(segments[keys[i]], size, segs[keys[i]]);
        if found {
          FindsAt(segs, keys, size, i, need, order);
          base := keys[i];
          return;
        }
        OneMore(segs, keys, size, i);
        i := i + 1;
      }
      FindsNone(segs, keys, size, base, need, order);
    }

    /** What holds before a search. */
    lemma SearchReady(p: Pool, size: nat)
      requires p == Value() && SegmentsOk(p)
      ensures p.segs == SegValues() && p.segs.Keys == segments.Keys && segments != map[]
      ensures p.grants == grants && p.minOrder == minOrder
      ensures var keys := SortedKeys(segments.Keys);
              AllSegments(p.segs, keys) && NoneBefore(p.segs, keys, size, 0)
              && forall i :: 0 <= i < |keys| ==> keys[i] in segments && keys[i] in p.segs
    {
      hide SegmentsOk, Sound;
      SegmentsAre(p);
      var keys := SortedKeys(segments.Keys);
      forall i | 0 <= i < |keys| ensures keys[i] in segments { assert keys[i] in keys; }
    }

    method Search(size: nat, ghost p: Pool) returns (found: bool, base: nat, need: nat, order: nat)
      requires SegmentsValid() && p == Value() && SegmentsOk(p)
      ensures found ==> base in segments && Served(p, size, base, need, order)
      ensures !found ==> Passed(p, size)
    {
      hide SegmentsValid, SegmentsOk, Sound, Finds, Served, Passed, BuddyPool.AllocBuddy, NoneBefore, AllSegments, Seg.WF, FitOrder;
      SearchReady(p, size);
      var keys := SortedKeys(segments.Keys);
      found, base, need, order := FindSegment(size, p, keys);
      if found {
        ServedBy(p, keys, size, base, need, order);
      } else {
        NotServed(p, keys, size, base, need, order);
      }
    }

    /** Allocate from the segment the search has found. */
    method Serve(size: nat, base: nat, need: nat, order: nat, ghost p: Pool, ghost w: Owners) returns (block: Block)
      requires Repr() && p == Value() && w == Owners() && base in segments
      requires SegmentsOk(p) && Held(p.segs, p.live, p.parked, {}) && Served(p, size, base, need, order)
      modifies segments[base], segments[base].owner.Keys
      ensures BuddyPool.AllocBuddy(p, size).Got?
      ensures Repr() && Value() == BuddyPool.AllocBuddy(p, size).pool
      ensures Holds(Owners(), block, BuddyPool.AllocBuddy(p, size).handle)
      ensures fresh(Blocks() - old(Blocks()))
    {
      hide Repr, SymbolsHold, CacheHolds, SegmentsOk, Sound, Finds, BuddyPool.AllocBuddy, Held, AllSegments, Seg.WF, FitOrder, AllocFrom, Pick, IsOut, Owners, SegValues, HandlesOut, Holds, Blocks;
      ghost var x := Handle(base, Pick(p.segs[base], need));
      NotHeld(p, {}, x);
      block := Grab(base, need, order, p, w, x);
    }

    /** Allocate a block from the segments, expanding the pool until one of them can serve. */
    method AllocBuddy(size: nat, ghost p: Pool, ghost w: Owners) returns (block: Block?)
      requires Repr() && SegmentsValid() && p == Value() && w == Owners()
      requires SegmentsOk(p) && Held(p.segs, p.live, p.parked, {})
      modifies this`segments, this`grants, segments.Values, Blocks()
      ensures Answers(block, BuddyPool.AllocBuddy(p, size))
      ensures fresh(segments.Values - old(segments.Values)) && fresh(Blocks() - old(Blocks()))
      decreases |p.grants|, 1
    {
      hide SegmentsValid, SymbolsHold, CacheHolds, SegmentsOk, Sound, Served, Passed, BuddyPool.AllocBuddy, Held, Owners, SegValues, Holds, Seg.WF, FitOrder;
      ghost var blocks := Blocks();
      var found, base, need, order := Search(size, p);
      if found {
        block := Serve(size, base, need, order, p, w);
      } else {
        block := AllocAfterExpansion(size, p, w);
      }
    }

    lemma NoAnswer(g: BuddyPool.Grab)
      requires g.Exhausted?
      ensures Answers(null, g)
    {
    }

    method AllocAfterExpansion(size: nat, ghost p: Pool, ghost w: Owners) returns (block: Block?)
      requires Repr() && SegmentsValid() && p == Value() && w == Owners()
      requires SegmentsOk(p) && Held(p.segs, p.live, p.parked, {}) && Passed(p, size)
      modifies this`segments, this`grants, segments.Values, Blocks()
      ensures Answers(block, BuddyPool.AllocBuddy(p, size))
      ensures fresh(segments.Values - old(segments.Values)) && fresh(Blocks() - old(Blocks()))
      decreases |p.grants|, 0
    {
      hide Answers, Segment.Valid, SegmentsValid, SymbolsHold, CacheHolds, SegmentsOk, Sound, Passed, BuddyPool.AllocBuddy, Expand, Held, Owners, SegValues, Holds, AllSegments, NoneBefore;
      ghost var blocks := Blocks();
      SearchReady(p, size);
      PassedMeans(p, size);
      var ok := ExpandBuddySegment(p, w);
      if ok {
        block := AllocBuddy(size, Value(), Owners());
      } else {
        block := null;
        NoAnswer(BuddyPool.AllocBuddy(p, size));
      }
    }

    // ---- release to the segments -------------------------------------------------------------------

    lemma BlockSegment(block: Block, x: Handle, w: Owners)
      requires SegmentsValid() && w == Owners() && Holds(w, block, x)
      ensures x.base in segments && block in segments[x.base].owner && segments[x.base].owner[block] == x.blk
      ensures block.segment == segments[x.base] && block.segment.ptr == x.base && block.size == x.blk.Size()
    {
      assert segments[x.base].Valid({});
    }

    /** Release a block of one segment. */
    method ReleaseToSegment(base: nat, g: Segment, block: Block, ghost s: Seg, ghost b: Blk, ghost w: Owners, ghost v: Segs)
      requires SegmentsValid() && base in segments && g == segments[base] && g.s == s && Sound(s)
      requires block in g.owner && g.owner[block] == b && b in s.out
      requires Alone(base) && OthersAre(base, w, v)
      modifies g, g.owner.Keys
      ensures SegmentsValid() && g.s == Release(s, b) && OthersAre(base, w, v)
      ensures OutsKept(old(g.owner), g.owner, s, b) && g.owner.Keys <= old(g.owner.Keys)
    {
      hide Sound, Segment.Valid, Release, OutsKept;
      g.ReleaseBlock(block, s, b);
    }

    /** Give a block without a holder back to its segment; `symbols'` and `cache'` are the tables without it. */
    method FreeBuddy(block: Block, ghost p: Pool, ghost w: Owners, ghost x: Handle, ghost symbols': map<nat, Block>, ghost cache': Cache)
      requires SegmentsValid() && p == Value() && w == Owners() && Holds(w, block, x)
      requires SegmentsOk(p) && IsOut(p.segs, x) && HandlesOut(p, x)
      requires SymbolsHold(w, symbols', p.live) && CacheHolds(w, cache', p.parked)
      modifies segments.Values, Blocks()
      ensures SegmentsValid() && Value() == BuddyPool.ReleaseBlock(p, x)
      ensures SymbolsHold(Owners(), symbols', p.live) && CacheHolds(Owners(), cache', p.parked)
      ensures Blocks() <= old(Blocks())
    {
      hide SegmentsValid, Alone, OthersAre, Owners, SegValues, Sound, Release, Seg.WF, OutsKept, HandlesOut, SymbolsHold, CacheHolds, KeepsOut, SegmentsOk, Holds;
      BlockSegment(block, x, w);
      var g := block.segment;
      Ready(x.base, g, w, p.segs);
      OutIsSound(p, x);
      ReleaseToSegment(g.ptr, g, block, p.segs[x.base], x.blk, w, p.segs);
      SnapshotsChange(x.base, w, p.segs);
      SegmentKeeps(p, w, x.base, g.owner, x.blk);
      TablesKept(p, w, Owners(), symbols', cache', x);
    }

    // ---- the public calls --------------------------------------------------------------------------

    /** Take the oldest parked block of exactly `size` bytes, if there is one. */
    method AllocObjCache(size: nat, ghost p: Pool) returns (block: Block?)
      requires Repr() && p == Value()
      modifies this`objectCache, this`hits, this`parked
      ensures block == null <==> size !in p.parked || p.parked[size] == []
      ensures block == null ==> Repr() && Value() == p
      ensures block != null ==> Repr() && Value() == Unpark(p, size).(hits := p.hits + 1) && Holds(Owners(), block, p.parked[size][0])
    {
      hide SegmentsValid, SymbolsHold, Owners, SegValues, Holds, CacheHolds;
      ghost var blocks := Blocks();
      if size in objectCache {
        CachePop(Owners(), objectCache, parked, size);
      }
      CacheKeys(Owners(), objectCache, parked);
      if size !in objectCache || objectCache[size] == [] { return null; }
      block := objectCache[size][0];
      objectCache := objectCache[size := objectCache[size][1..]];
      hits := hits + 1;
      parked := parked[size := parked[size][1..]];
    }

    /** A parked block for the request, when the cache is on, keeps this size, and holds one. */
    method FromCache(size: nat, ghost p: Pool) returns (block: Block?)
      requires Valid() && p == Value()
      modifies this`objectCache, this`hits, this`parked
      ensures block == null ==> !CacheHit(p, size) && Repr() && Value() == p
      ensures block != null ==> CacheHit(p, size) && Answers(block, Acquire(p, size))
    {
      hide Segment.Valid, Stands, SegmentsOk, SegmentsValid, SymbolsHold, CacheHolds, Owners, SegValues, Holds, Held, BuddyPool.AllocBuddy, BuddyPool.Valid;
      block := null;
      if cacheOn && size in cacheSizes {
        block := AllocObjCache(size, p);
      }
    }

    /** A block for a request: from the object cache if a parked block has just this size, else from the segments. */
    method Obtain(size: nat, ghost p: Pool) returns (block: Block?)
      requires Valid() && p == Value()
      modifies this`segments, this`grants, this`objectCache, this`hits, this`parked, segments.Values, Blocks()
      ensures Answers(block, Acquire(p, size))
      ensures fresh(segments.Values - old(segments.Values)) && fresh(Blocks() - old(Blocks()))
    {
      hide Answers, Segment.Valid, Stands, SegmentsOk, SegmentsValid, SymbolsHold, CacheHolds, Owners, SegValues, Holds, Held, BuddyPool.AllocBuddy, Ample, CacheHit;
      ghost var blocks := Blocks();
      block := FromCache(size, p);
      if block == null {
        block := AllocBuddy(size, p, Owners());
      }
    }

    /** Allocate for storage `uuid`; not `ok` means that the process aborts. */
    method Alloc(uuid: nat, size: nat, ghost p: Pool) returns (ok: bool, ptr: nat)
      requires Valid() && p == Value()
      modifies this, segments.Values, Blocks()
      ensures ok == BuddyRuns.Alloc(p, uuid, size).Done?
      ensures ok ==> Valid() && Value() == BuddyRuns.Alloc(p, uuid, size).pool && uuid in live && ptr == live[uuid].Ptr()
      ensures fresh(segments.Values - old(segments.Values)) && fresh(Blocks() - old(Blocks()))
    {
      hide Segment.Valid, Stands, Repr, SegmentsOk, SegmentsValid, SymbolsHold, CacheHolds, Owners, SegValues, Holds, Held, Acquire, Ample, BuddyPool.Valid;
      ghost var blocks := Blocks();
      AllocKeeps(p, uuid, size);
      var block := Obtain(size, p);
      if block == null { return false, 0; }
      ghost var x := Acquire(p, size).handle;
      ptr := AddressOf(block, x);
      ok := Register(uuid, size, block, x, Acquire(p, size).pool);
    }

    method AddressOf(block: Block, ghost x: Handle) returns (ptr: nat)
      requires Repr() && Holds(Owners(), block, x)
      ensures ptr == x.Ptr()
    {
      BlockSegment(block, x, Owners());
      ptr := block.ptr;
    }

    /** Enter a block in the symbol table, which refuses a uuid it already has. */
    method Register(uuid: nat, size: nat, block: Block, ghost x: Handle, ghost p: Pool) returns (ok: bool)
      requires Repr() && p == Value() && Holds(Owners(), block, x)
      modifies this`symbols, this`live, this`asked
      ensures ok == (uuid !in p.live)
      ensures ok ==> Repr() && Value() == BuddyRuns.Register(p, uuid, size, x)
    {
      hide SegmentsValid, CacheHolds, Owners, SegValues, Holds;
      ghost var blocks := Blocks();
      if uuid in symbols { return false; }
      symbols := symbols[uuid := block];
      live := live[uuid := x];
      asked := asked[uuid := size];
      ok := true;
    }

    /** Park a block in the object cache, under its own size. */
    method FreeObjCache(block: Block, ghost p: Pool, ghost w: Owners, ghost x: Handle)
      requires SegmentsValid() && p == Value() && w == Owners() && Holds(w, block, x) && CacheHolds(w, objectCache, parked)
      modifies this`objectCache, this`stored, this`parked
      ensures SegmentsValid() && Owners() == w && Value() == p.(parked := Parking(p.parked, x), stored := p.stored + 1)
      ensures CacheHolds(w, objectCache, parked)
    {
      hide Segment.Valid, Stands, Parking, SegmentsValid, CacheHolds, Owners, SegValues, Holds;
      ghost var blocks := Blocks();
      BlockSegment(block, x, w);
      CachePush(w, objectCache, parked, block, x);
      objectCache := objectCache[block.size := (if block.size in objectCache then objectCache[block.size] else []) + [block]];
      stored := stored + 1;
      parked := Parking(parked, x);
    }

    /** Hand a block without a holder to the object cache or to its segment; `left` are the other symbols. */
    method Return(size: nat, block: Block, ghost left: map<nat, Block>, ghost p: Pool, ghost w: Owners, ghost x: Handle)
      requires SegmentsValid() && p == Value() && w == Owners() && Holds(w, block, x)
      requires SegmentsOk(p) && IsOut(p.segs, x) && HandlesOut(p, x)
      requires SymbolsHold(w, left, p.live) && CacheHolds(w, objectCache, p.parked)
      modifies this`objectCache, this`stored, this`parked, segments.Values, Blocks()
      ensures SegmentsValid() && SymbolsHold(Owners(), left, live) && CacheHolds(Owners(), objectCache, parked)
      ensures Value() == if cacheOn && size in cacheSizes then p.(parked := Parking(p.parked, x), stored := p.stored + 1)
                         else BuddyPool.ReleaseBlock(p, x)
      ensures Blocks() <= old(Blocks())
    {
      hide SegmentsOk, SegmentsValid, SymbolsHold, CacheHolds, Owners, SegValues, Holds, HandlesOut, Parking;
      ghost var blocks := Blocks();
      if cacheOn && size in cacheSizes {
        FreeObjCache(block, p, w, x);
      } else {
        FreeBuddy(block, p, w, x, left, objectCache);
      }
    }

    ghost method Forget(uuid: nat, w: Owners, q: Pool)
      requires SegmentsValid() && w == Owners() && q == Unregister(Value(), uuid)
      modifies this`live, this`asked
      ensures SegmentsValid() && w == Owners() && q == Value() && Blocks() == old(Blocks())
    {
      hide SegmentsValid, Owners, SegValues;
      var blocks := Blocks();
      live, asked := live - {uuid}, asked - {uuid};
    }

    method RemoveSymbol(uuid: nat, ghost p: Pool)
      requires SegmentsValid() && p == Value() && SymbolsHold(Owners(), symbols - {uuid}, live) && CacheHolds(Owners(), objectCache, parked)
      modifies this`symbols
      ensures Repr() && p == Value() && Blocks() == old(Blocks())
    {
      hide SegmentsValid, SymbolsHold, CacheHolds, Owners, SegValues;
      ghost var blocks := Blocks();
      symbols := symbols - {uuid};
    }

    /** Release a live storage. */
    method FreeLive(uuid: nat, size: nat, ghost q: Pool, ghost x: Handle)
      requires Repr() && SegmentsValid() && CacheHolds(Owners(), objectCache, parked) && uuid in symbols && q == Unregister(Value(), uuid)
      requires Holds(Owners(), symbols[uuid], x) && SymbolsHold(Owners(), symbols - {uuid}, q.live)
      requires SegmentsOk(q) && IsOut(q.segs, x) && HandlesOut(q, x)
      modifies this`symbols, this`live, this`asked, this`objectCache, this`stored, this`parked, segments.Values, Blocks()
      ensures Repr() && Blocks() <= old(Blocks())
      ensures Value() == if cacheOn && size in cacheSizes then q.(parked := Parking(q.parked, x), stored := q.stored + 1)
                         else BuddyPool.ReleaseBlock(q, x)
    {
      hide SegmentsOk, SegmentsValid, SymbolsHold, CacheHolds, Owners, SegValues, Holds, HandlesOut, Parking, ReleaseBlock, IsOut;
      ghost var w, left := Owners(), symbols - {uuid};
      Forget(uuid, w, q);
      Return(size, symbols[uuid], left, q, w, x);
      RemoveSymbol(uuid, Value());
    }

    /** Release storage `uuid`; not `ok` means that the process aborts. */
    method Free(uuid: nat, size: nat, isNull: bool, ghost p: Pool) returns (ok: bool)
      requires Valid() && p == Value()
      modifies this, segments.Values, Blocks()
      ensures ok == BuddyRuns.Free(p, uuid, size, isNull).Done?
      ensures ok ==> Valid() && Value() == BuddyRuns.Free(p, uuid, size, isNull).pool
      ensures segments == old(segments) && Blocks() <= old(Blocks())
    {
      hide SegmentsOk, SegmentsValid, SymbolsHold, CacheHolds, Owners, SegValues, Holds, Held, Ample, BuddyPool.Valid, HandlesOut, ReleaseBlock, Parking, IsOut, BuddyRuns.Free, Blocks;
      ghost var q := Unregister(p, uuid);
      SymbolKeys(Owners(), symbols, live);
      if uuid in symbols { Dropped(p, Owners(), symbols, uuid); }
      FreeIs(p, uuid, size, isNull, q);
      if isNull { return true; }
      if uuid !in symbols { return false; }
      FreeLive(uuid, size, q, live[uuid]);
      ok := true;
    }

    ghost method DropParked(z: nat, w: Owners, q: Pool)
      requires SegmentsValid() && w == Owners() && z in parked && parked[z] != [] && q == Unpark(Value(), z)
      modifies this`parked
      ensures SegmentsValid() && w == Owners() && q == Value() && Blocks() == old(Blocks())
    {
      hide SegmentsValid, Owners, SegValues;
      var blocks := Blocks();
      parked := parked[z := parked[z][1..]];
    }

    /** One turn of the flush loop: release the next parked block; `cache` is what is still parked. */
    method FlushTurn(z: nat, block: Block, ghost p: Pool, ghost cache: Cache, ghost cache': Cache)
      requires SegmentsValid() && p == Value() && BuddyPool.Valid(p) && z in cache && cache[z] != [] && block == cache[z][0]
      requires SymbolsHold(Owners(), symbols, p.live) && CacheHolds(Owners(), cache, p.parked) && cache' == cache[z := cache[z][1..]]
      modifies this`parked, segments.Values, Blocks()
      ensures z in p.parked && p.parked[z] != [] && Value() == FlushOne(p, z)
      ensures SegmentsValid() && SymbolsHold(Owners(), symbols, live) && CacheHolds(Owners(), cache', parked)
      ensures Blocks() <= old(Blocks())
    {
      hide SegmentsOk, SegmentsValid, SymbolsHold, CacheHolds, Owners, SegValues, Holds, HandlesOut, ReleaseBlock, IsOut, BuddyPool.Valid, FlushOne, Blocks;
      CachePop(Owners(), cache, p.parked, z);
      FlushReady(p, z, Unpark(p, z));
      ghost var w := Owners();
      DropParked(z, w, Unpark(p, z));
      FreeBuddy(block, Unpark(p, z), w, p.parked[z][0], symbols, cache');
    }

    /** Release every parked block of one size, and forget the size. */
    method FlushSize(z: nat, ghost p: Pool)
      requires Valid() && p == Value()
      modifies this`objectCache, this`parked, segments.Values, Blocks()
      ensures Valid() && Value() == Flush(p, z) && Blocks() <= old(Blocks())
    {
      hide SegmentsValid, SymbolsHold, Owners, SegValues, BuddyPool.Valid, FlushOne, CacheHolds;
      CacheKeys(Owners(), objectCache, parked);
      var list := if z in objectCache then objectCache[z] else [];
      ghost var cache: Cache := objectCache;
      var i := 0;
      while i < |list|
        invariant 0 <= i <= |list| && (z in cache <==> z in objectCache) && (z in cache ==> cache[z] == list[i..])
        invariant cache - {z} == objectCache - {z} && (z !in cache ==> list == [])
        invariant SegmentsValid() && BuddyPool.Valid(Value()) && Flush(Value(), z) == Flush(p, z)
        invariant SymbolsHold(Owners(), symbols, live) && CacheHolds(Owners(), cache, parked)
        invariant Blocks() <= old(Blocks())
      {
        assert list[i..][0] == list[i] && list[i..][1..] == list[i + 1..];
        ghost var cache': Cache := cache[z := cache[z][1..]];
        FlushTurn(z, list[i], Value(), cache, cache');
        cache := cache';
        i := i + 1;
      }
      ForgetSize(z, Value(), cache);
    }

    method ForgetSize(z: nat, ghost p: Pool, ghost cache: Cache)
      requires SegmentsValid() && p == Value() && BuddyPool.Valid(p) && (z in cache ==> cache[z] == []) && cache - {z} == objectCache - {z}
      requires SymbolsHold(Owners(), symbols, live) && CacheHolds(Owners(), cache, parked)
      modifies this`objectCache, this`parked
      ensures Valid() && Value() == Flush(p, z) && Blocks() == old(Blocks())
    {
      hide SegmentsValid, SymbolsHold, Owners, SegValues, BuddyPool.Valid, CacheHolds;
      ghost var blocks := Blocks();
      FlushKeeps(p, z);
      CacheForget(Owners(), cache, parked, z);
      objectCache := objectCache - {z};
      parked := parked - {z};
    }

    /** Replace the set of cached sizes; `order` is the order in which the new set is iterated. */
    method UpdateCacheSizeList(order: seq<nat>, ghost p: Pool)
      requires Valid() && p == Value()
      modifies this, segments.Values, Blocks()
      ensures Valid() && Value() == UpdateCacheSizes(p, order) && segments == old(segments) && Blocks() <= old(Blocks())
    {
      hide Repr, Owners, SegValues, BuddyPool.Valid, Flush, FlushNew;
      var i := 0;
      while i < |order|
        invariant 0 <= i <= |order| && Valid() && FlushNew(Value(), order[i..]) == FlushNew(p, order)
        invariant cacheSizes == p.cacheSizes && segments == old(segments) && Blocks() <= old(Blocks())
      {
        FlushNewStep(Value(), order, i);
        if order[i] !in cacheSizes {
          FlushSize(order[i], Value());
        }
        i := i + 1;
      }
      FlushNewEnd(Value(), order);
      SetCacheSizes((set z | z in order), Value());
    }

    method SetCacheSizes(sizes: set<nat>, ghost p: Pool)
      requires Valid() && p == Value() 
      modifies this`cacheSizes
      ensures Valid() && Value() == p.(cacheSizes := sizes) && Blocks() == old(Blocks())
    {
      hide SegmentsValid, SymbolsHold, CacheHolds, Owners, SegValues, BuddyPool.Valid;
      ghost var blocks := Blocks();
      AnyCacheSizes(p, sizes);
      cacheSizes := sizes;
    }

    /** The segment holding address `ptr`: the last one that starts at or before it, if it reaches that far. */
    method LocateSegment(ptr: nat) returns (g: Segment?)
      requires Valid()
      ensures g != null ==> g in segments.Values && g.ptr <= ptr < g.ptr + g.cap
      ensures g == null ==> forall b :: b in segments ==> !(b <= ptr < b + segments[b].cap)
    {
      hide Valid;
      RegionsDisjoint();
      g := Locate(segments, ptr);
    }

    lemma RegionsDisjoint()
      requires Valid()
      ensures InAddressOrder(segments)
    {
      hide Owned, SymbolsHold, CacheHolds, Sound, Grantable, Linked;
      forall b | b in segments ensures segments[b].cap == Pow2(SegValues()[b].hi) && segments[b].ptr == b {
        assert segments[b].Valid({});
      }
      forall a, b | a in segments && b in segments && a < b ensures a + segments[a].cap <= b {
        assert RegionsApart(a, SegValues()[a].hi, b, SegValues()[b].hi);
      }
    }
  }

  lemma FlushNewStep(p: Pool, order: seq<nat>, i: nat)
    requires BuddyPool.Valid(p) && i < |order|
    ensures order[i] in p.cacheSizes ==> FlushNew(p, order[i..]) == FlushNew(p, order[i + 1..])
    ensures order[i] !in p.cacheSizes ==>
              var q := Flush(p, order[i]);
              BuddyPool.Valid(q) && q.cacheSizes == p.cacheSizes && FlushNew(p, order[i..]) == FlushNew(q, order[i + 1..])
  {
    hide BuddyPool.Valid, Flush;
    FlushKeeps(p, order[i]);
    assert order[i..][0] == order[i] && order[i..][1..] == order[i + 1..];
  }

  lemma FlushNewEnd(p: Pool, order: seq<nat>)
    requires BuddyPool.Valid(p)
    ensures FlushNew(p, order[|order|..]) == p
  {
    hide BuddyPool.Valid;
  }

  lemma AnyCacheSizes(p: Pool, sizes: set<nat>)
    requires BuddyPool.Valid(p)
    ensures BuddyPool.Valid(p.(cacheSizes := sizes))
  {
    hide SegsOk, Held, Ample, Grantable;
  }

  lemma CacheForget(w: Owners, cache: Cache, parked: Parked, z: nat)
    requires CacheHolds(w, cache, parked) && (z in cache ==> cache[z] == [])
    ensures z in parked ==> parked[z] == []
    ensures z !in parked ==> parked - {z} == parked
    ensures CacheHolds(w, cache - {z}, parked - {z})
  {
    if z in cache { assert RowHolds(w, cache[z], parked[z]); }
  }

  lemma FlushReady(p: Pool, z: nat, q: Pool)
    requires BuddyPool.Valid(p) && z in p.parked && p.parked[z] != [] && q == Unpark(p, z)
    ensures var x := p.parked[z][0];
            SegmentsOk(q) && IsOut(q.segs, x) && HandlesOut(q, x) && FlushOne(p, z) == ReleaseBlock(q, x)
  {
    hide SegmentsOk, Held, HandlesOut, IsOut, ReleaseBlock;
    UnparkOk(p.segs, p.live, p.parked, z);
    SameSegments(p, q);
    NotHeld(q, {p.parked[z][0]}, p.parked[z][0]);
    LooseIsOut(q.segs, q.live, q.parked, {p.parked[z][0]}, p.parked[z][0]);
  }

  lemma LooseIsOut(segs: Segs, live: Live, parked: Parked, loose: set<Handle>, x: Handle)
    requires Held(segs, live, parked, loose) && x in loose
    ensures IsOut(segs, x)
  {
  }

  lemma SymbolKeys(w: Owners, symbols: map<nat, Block>, live: Live)
    requires SymbolsHold(w, symbols, live)
    ensures symbols.Keys == live.Keys
  {
  }

  /** What holds once storage `uuid` is no longer counted as live. */
  lemma Dropped(p: Pool, w: Owners, symbols: map<nat, Block>, uuid: nat)
    requires BuddyPool.Valid(p) && SymbolsHold(w, symbols, p.live) && uuid in symbols && uuid in p.live
    ensures var x, q := p.live[uuid], Unregister(p, uuid);
            && Holds(w, symbols[uuid], x) && SymbolsHold(w, symbols - {uuid}, q.live)
            && SegmentsOk(q) && IsOut(q.segs, x) && HandlesOut(q, x)
  {
    hide IsOut, IsParked, IsLive, SegmentsOk, SegsOk, Holds, HandlesOut, Held;
    UnregisterOk(p.segs, p.live, p.parked, uuid);
    NotHeld(Unregister(p, uuid), {p.live[uuid]}, p.live[uuid]);
    LiveIsOut(p.segs, p.live, p.parked, {}, uuid);
    SameSegments(p, Unregister(p, uuid));
  }

  lemma SameSegments(p: Pool, q: Pool)
    requires SegmentsOk(p) && q.segs == p.segs && q.minOrder == p.minOrder && q.grants == p.grants
    ensures SegmentsOk(q)
  {
  }

  lemma LiveIsOut(segs: Segs, live: Live, parked: Parked, loose: set<Handle>, uuid: nat)
    requires Held(segs, live, parked, loose) && uuid in live
    ensures IsOut(segs, live[uuid])
  {
  }

  /** What a release does, case by case. */
  lemma FreeIs(p: Pool, uuid: nat, size: nat, isNull: bool, q: Pool)
    requires BuddyPool.Valid(p) && q == Unregister(p, uuid)
    requires uuid in p.live ==> SegmentsOk(q) && IsOut(q.segs, p.live[uuid])
    ensures isNull ==> Free(p, uuid, size, isNull) == Done(p)
    ensures !isNull && uuid !in p.live ==> Free(p, uuid, size, isNull).Abort?
    ensures !isNull && uuid in p.live ==>
              Free(p, uuid, size, isNull) == Done(if p.cacheOn && size in p.cacheSizes
                                                  then q.(parked := Parking(q.parked, p.live[uuid]), stored := p.stored + 1)
                                                  else ReleaseBlock(q, p.live[uuid]))
    ensures Free(p, uuid, size, isNull).Done? ==> BuddyPool.Valid(Free(p, uuid, size, isNull).pool)
  {
    hide SegmentsOk, IsOut, Held, Parking, ReleaseBlock, BuddyPool.Valid;
  }

  lemma CachePush(w: Owners, cache: Cache, parked: Parked, block: Block, x: Handle)
    requires CacheHolds(w, cache, parked) && Holds(w, block, x)
    ensures var z := x.blk.Size();
            CacheHolds(w, cache[z := (if z in cache then cache[z] else []) + [block]], Parking(parked, x))
  {
    var z := x.blk.Size();
    var c, q := cache[z := (if z in cache then cache[z] else []) + [block]], Parking(parked, x);
    hide Holds;
    if z in cache { assert RowHolds(w, cache[z], parked[z]); }
    forall y | y in c ensures RowHolds(w, c[y], q[y]) {
      if y != z { assert RowHolds(w, cache[y], parked[y]); }
    }
  }

  lemma CacheKeys(w: Owners, cache: Cache, parked: Parked)
    requires CacheHolds(w, cache, parked)
    ensures cache.Keys == parked.Keys
  {
  }

  lemma CachePop(w: Owners, cache: Cache, parked: Parked, z: nat)
    requires CacheHolds(w, cache, parked) && z in cache
    ensures z in parked && |cache[z]| == |parked[z]|
    ensures cache[z] != [] ==> Holds(w, cache[z][0], parked[z][0]) && CacheHolds(w, cache[z := cache[z][1..]], parked[z := parked[z][1..]])
  {
    assert RowHolds(w, cache[z], parked[z]);
    if cache[z] != [] {
      forall y | y in cache ensures RowHolds(w, cache[z := cache[z][1..]][y], parked[z := parked[z][1..]][y]) {
        assert RowHolds(w, cache[y], parked[y]);
      }
    }
  }

  lemma OutIsSound(p: Pool, x: Handle)
    requires SegmentsOk(p) && IsOut(p.segs, x)
    ensures x.base in p.segs && Sound(p.segs[x.base]) && x.blk in p.segs[x.base].out
  {
    SegmentsAre(p);
  }
}
