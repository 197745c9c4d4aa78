/**
  One allocation from the segments and one release to them, over the whole pool: what they keep,
  that allocation overlooks no free block that fits, and exactly how far it expands the pool.
 */
module BuddyGrab {
  import opened Dyadic
  import opened BuddyTiling
  import opened BuddySegment
  import opened OrderedMap
  import opened BuddyPool

  // ---- one allocation from the segments ----------------------------------------------------------

  /**
    A block granted by the segments is new, is the order the request needs, and leaves every other
    block where it was.
   */
  ghost predicate GrabOk(p: Pool, size: nat, q: Pool, h: Handle) {
    && SegmentsOk(q) && q == p.(segs := q.segs, grants := q.grants)
    && !IsOut(p.segs, h) && (forall g :: IsOut(q.segs, g) <==> IsOut(p.segs, g) || g == h)
    && h.blk.ord == Need(p.minOrder, size)
    && size <= h.blk.Size() < 2 * Max(size, Pow2(p.minOrder))
  }

  lemma GrabFromOk(p: Pool, base: nat, size: nat)
    requires SegmentsOk(p) && base in p.segs && Fits(p.segs[base], size)
    ensures var Got(q, h) := GrabFrom(p, base, size);
            GrabOk(p, size, q, h) && RegionsOf(q.segs) == RegionsOf(p.segs)
  {
    hide Sound, RegionsApart, Grantable;
    UpdateSegment(p, base, AllocFrom(p.segs[base], Need(p.segs[base].lo, size)));
  }

  lemma GrabAfterExpand(p: Pool, size: nat, e: Pool, q: Pool, h: Handle)
    requires GrabOk(e, size, q, h) && e == p.(segs := e.segs, grants := e.grants)
    requires forall g :: IsOut(e.segs, g) <==> IsOut(p.segs, g)
    ensures GrabOk(p, size, q, h)
  {
    hide IsOut, SegmentsOk;
  }

  lemma {:induction false} AllocBuddyOk(p: Pool, size: nat)
    requires SegmentsOk(p)
    ensures AllocBuddy(p, size).Got? ==> GrabOk(p, size, AllocBuddy(p, size).pool, AllocBuddy(p, size).handle)
    decreases |p.grants|
  {
    var keys := SortedKeys(p.segs.Keys);
    var i := FirstFit(p.segs, keys, size);
    hide Fits, GrabFrom, GrabOk;
    if i < |keys| {
      GrabFromOk(p, keys[i], size);
    } else if p.grants != [] {
      ExpandOk(p);
      var e := Expand(p);
      AllocBuddyOk(e, size);
      if AllocBuddy(e, size).Got? { GrabAfterExpand(p, size, e, AllocBuddy(e, size).pool, AllocBuddy(e, size).handle); }
    }
  }

  /** A holder-less block that stops being out leaves every other ownership as it was. */
  lemma DropLoose(segs: Segs, after: Segs, live: Live, parked: Parked, h: Handle, loose: set<Handle>)
    requires Held(segs, live, parked, loose) && h in loose
    requires forall g :: IsOut(after, g) <==> IsOut(segs, g) && g != h
    ensures Held(after, live, parked, loose - {h})
  {
    hide IsOut;
    forall z, g | z in parked && g in parked[z] ensures g != h { assert g !in loose; }
  }

  lemma ReleaseSegments(p: Pool, h: Handle)
    requires SegmentsOk(p) && IsOut(p.segs, h)
    ensures var q := ReleaseBlock(p, h);
            && SegmentsOk(q) && RegionsOf(q.segs) == RegionsOf(p.segs) && q == p.(segs := q.segs)
            && (forall g :: IsOut(q.segs, g) <==> IsOut(p.segs, g) && g != h)
  {
    hide RegionsApart, Grantable;
    UpdateSegment(p, h.base, Release(p.segs[h.base], h.blk));
  }

  lemma ReleaseOk(p: Pool, h: Handle, loose: set<Handle>)
    requires SegmentsOk(p) && Owned(p, loose) && h in loose
    ensures IsOut(p.segs, h)
    ensures var q := ReleaseBlock(p, h);
            && SegmentsOk(q) && Owned(q, loose - {h}) && q == p.(segs := q.segs)
            && (forall g :: IsOut(q.segs, g) <==> IsOut(p.segs, g) && g != h)
            && RegionsOf(q.segs) == RegionsOf(p.segs)
  {
    hide SegmentsOk, ReleaseBlock, IsOut;
    ReleaseSegments(p, h);
    DropLoose(p.segs, ReleaseBlock(p, h).segs, p.live, p.parked, h, loose);
  }

  // ---- allocation is complete, and expansion is bounded --------------------------------------------

  /** A segment is passed over only when none of its free blocks is large enough. */
  lemma PassedOverMeansNoFit(s: Seg, size: nat, b: Blk)
    requires Sound(s) && !Fits(s, size) && s.Free(b)
    ensures b.Size() < size
  {
    assert s.Tile(b);
    if size <= b.Size() {
      Pow2Monotone(s.lo, b.ord);
      CeilLog2Least(Max(size, Pow2(s.lo)), b.ord);
    }
  }

  /** The `cap - used` test and the order search together accept exactly the segments that fit. */
  lemma UsedTestIsSafe(s: Seg, size: nat)
    requires Sound(s)
    ensures Max(size, Pow2(s.lo)) <= s.Cap() - s.used ==> Need(s.lo, size) <= s.hi
    ensures Fits(s, size) ==> Max(size, Pow2(s.lo)) <= s.Cap() - s.used
  {
    if Max(size, Pow2(s.lo)) <= s.Cap() - s.used { CeilLog2Least(Max(size, Pow2(s.lo)), s.hi); }
    if Fits(s, size) { FitPassesUsedTest(s, Need(s.lo, size)); }
  }

  ghost predicate NoneFits(p: Pool, size: nat) requires SegmentsOk(p) {
    forall b :: b in p.segs ==> !Fits(p.segs[b], size)
  }

  lemma WellFormed(p: Pool)
    requires SegmentsOk(p)
    ensures forall b :: b in p.segs ==> p.segs[b].WF()
  {
    hide Grantable, Balanced;
  }

  lemma FitFound(p: Pool, size: nat)
    requires SegmentsOk(p) && forall b :: b in p.segs ==> p.segs[b].WF()
    ensures var keys := SortedKeys(p.segs.Keys);
            NoneFits(p, size) <==> FirstFit(p.segs, keys, size) == |keys|
  {
    hide Fits, Sound, Grantable, SegsOk, Seg.WF;
    var keys := SortedKeys(p.segs.Keys);
    var i := FirstFit(p.segs, keys, size);
    if !NoneFits(p, size) {
      var b :| b in p.segs && Fits(p.segs[b], size);
      assert b in keys;
    }
    if i < |keys| { assert keys[i] in keys; }
  }

  lemma ServedAtOnce(p: Pool, size: nat)
    requires SegmentsOk(p)
    ensures !NoneFits(p, size) ==> AllocBuddy(p, size).Got? && AllocBuddy(p, size).pool.grants == p.grants
    ensures NoneFits(p, size) && p.grants == [] ==> AllocBuddy(p, size).Exhausted?
    ensures NoneFits(p, size) && p.grants != [] ==> SegmentsOk(Expand(p)) && AllocBuddy(p, size) == AllocBuddy(Expand(p), size)
  {
    hide Fits, Sound, Grantable, SegsOk, NoneFits, SortedKeys, FirstFit, Expand;
    WellFormed(p);
    FitFound(p, size);
    if p.grants != [] { ExpandOk(p); }
  }

  lemma ExpandRegions(p: Pool)
    requires SegmentsOk(p) && p.grants != []
    ensures var r := RegionsOf(p.segs);
            r != map[] && p.grants[0] !in r && RegionsOf(Expand(p).segs) == r[p.grants[0] := NextOrder(r)]
  {
    hide Sound, RegionsApart;
    TopAtLeastMin(p);
  }

  lemma ExpandTop(p: Pool)
    requires SegmentsOk(p) && p.grants != []
    ensures var r, e := RegionsOf(p.segs), RegionsOf(Expand(p).segs);
            r != map[] && e != map[] && TopOrder(e) == Max(TopOrder(r), NextOrder(r))
  {
    hide SegmentsOk, RegionsOf, Expand, NextOrder, Max;
    ExpandRegions(p);
    TopAfterInsert(RegionsOf(p.segs), p.grants[0], NextOrder(RegionsOf(p.segs)));
  }

  /** The segment an expansion adds serves the request exactly when its order reaches the request's. */
  lemma ExpandServes(p: Pool, size: nat)
    requires SegmentsOk(p) && p.grants != [] && NoneFits(p, size)
    ensures RegionsOf(p.segs) != map[] && SegmentsOk(Expand(p))
    ensures NoneFits(Expand(p), size) <==> NextOrder(RegionsOf(p.segs)) < Need(p.minOrder, size)
  {
    TopAtLeastMin(p);
    ExpandOk(p);
    var e, b, n := Expand(p), p.grants[0], NextOrder(RegionsOf(p.segs));
    var t := NewSegment(p.minOrder, n);
    assert e.segs == p.segs[b := t];
    assert Fits(t, size) <==> Need(p.minOrder, size) <= n by {
      if Need(p.minOrder, size) <= n { NewSegmentFits(p.minOrder, n, size); }
    }
    hide SegmentsOk, Fits, Need, Expand, NewSegment;
    if Fits(t, size) { assert b in e.segs && Fits(e.segs[b], size); }
  }

  lemma TopAfterInsert(r: Regions, b: nat, n: nat)
    requires r != map[] && b !in r
    ensures TopOrder(r[b := n]) == Max(TopOrder(r), n)
  {
    var s := r[b := n];
    var c :| c in r && r[c] == TopOrder(r);
    assert c in s && b in s;
    var d :| d in s && s[d] == TopOrder(s);
    if d != b { assert d in r; }
  }

  /** The largest segment's order. */
  ghost function Top(p: Pool): nat
    requires SegmentsOk(p)
  {
    TopAtLeastMin(p);
    TopOrder(RegionsOf(p.segs))
  }

  function Lesser(a: nat, b: nat): nat { if a < b then a else b }

  lemma ExpandStep(p: Pool, size: nat)
    requires SegmentsOk(p) && p.grants != [] && NoneFits(p, size)
    ensures var e, n := Expand(p), Lesser(Top(p) + 1, SEGMENT_LIMIT_ORDER);
            && SegmentsOk(e) && e.minOrder == p.minOrder && |e.grants| == |p.grants| - 1
            && AllocBuddy(p, size) == AllocBuddy(e, size)
            && Top(e) == Max(Top(p), n)
            && (NoneFits(e, size) <==> n < Need(p.minOrder, size))
            && (!NoneFits(e, size) ==> AllocBuddy(e, size).Got? && AllocBuddy(e, size).pool.grants == e.grants)
  {
    hide SegmentsOk, SegsOk, NoneFits, AllocBuddy, Need, RegionsOf, TopOrder;
    ExpandTop(p);
    ExpandServes(p, size);
    ServedAtOnce(p, size);
    ServedAtOnce(Expand(p), size);
  }

  /** How many doublings take the largest order from `top` to `need`, but at least one. */
  function Doublings(top: nat, need: nat): nat { if need <= top + 1 then 1 else need - top }

  /**
    How far one allocation expands the pool when no segment can serve it: exactly far enough to
    reach the request's order, doubling each time, and at least once; a request above 2^29 bytes
    is never served, however many regions the backing allocator grants.
   */
  lemma {:induction false} ExpansionExact(p: Pool, size: nat)
    requires SegmentsOk(p) && NoneFits(p, size)
    ensures var need, g, n := Need(p.minOrder, size), AllocBuddy(p, size), Doublings(Top(p), Need(p.minOrder, size));
            && (g.Got? <==> need <= SEGMENT_LIMIT_ORDER && n <= |p.grants|)
            && (g.Got? ==> |g.pool.grants| == |p.grants| - n)
    decreases |p.grants|
  {
    hide SegmentsOk, NoneFits, AllocBuddy, Need, Top, Expand;
    if p.grants == [] {
      ServedAtOnce(p, size);
    } else {
      ExpandStep(p, size);
      if NoneFits(Expand(p), size) { ExpansionExact(Expand(p), size); }
    }
  }
}
