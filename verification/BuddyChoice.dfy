/** Which block an allocation takes, and what the free lists are afterwards. */
module BuddyChoice {
  import opened Dyadic
  import opened OrderedMap
  import opened BuddyTiling
  import opened BuddySegment
  import opened BuddyPool
  import opened BuddyGrab
  import opened BuddyCache

  /** The free list of one order. */
  function OfOrder(s: Seg, j: nat): seq<nat>
    requires s.WF() && s.lo <= j <= s.hi
  {
    s.lists[j - s.lo]
  }

  /** Splitting lists, for each order passed on the way down, the upper half of the block that is halved there. */
  lemma {:induction false} SplitLists(s: Seg, b: Blk, need: nat)
    requires Shape(s) && Balanced(s) && b in s.out && s.lo <= need <= b.ord
    ensures b.ord <= s.hi && |SplitTo(s, b, need).lists| == |s.lists|
    ensures forall j: nat :: s.lo <= j <= s.hi ==>
              SplitTo(s, b, need).lists[j - s.lo] == s.lists[j - s.lo] + if need <= j < b.ord then [b.off + Pow2(j)] else []
    decreases b.ord
  {
    hide Shape, Balanced, Pow2;
    OutBelowTop(s, b);
    if b.ord > need {
      HalveStep(s, b);
      HalveLists(s, b);
      SplitLists(Halve(s, b), Lower(b), need);
    }
  }

  lemma OutBelowTop(s: Seg, b: Blk)
    requires Shape(s) && b in s.out
    ensures s.WF() && s.lo <= b.ord <= s.hi
  {
    assert s.Tile(b);
  }

  lemma HalveLists(s: Seg, b: Blk)
    requires s.WF() && s.lo < b.ord <= s.hi
    ensures var t := Halve(s, b);
            && |t.lists| == |s.lists| == s.hi - s.lo + 1
            && forall j: nat :: s.lo <= j <= s.hi ==>
                 t.lists[j - s.lo] == s.lists[j - s.lo] + if j == b.ord - 1 then [b.off + Pow2(j)] else []
  {
  }

  /**
    Best fit: the oldest block of the least order that is large enough and has one.  It leaves its list, each order between
    gets the upper half split off there, and no other list changes.
   */
  lemma AllocIsBestFit(s: Seg, need: nat) returns (k: nat)
    requires Sound(s) && s.WF() && s.lo <= need <= s.hi && FitOrder(s, need) <= s.hi
    ensures need <= k <= s.hi && OfOrder(s, k) != [] && forall j: nat :: need <= j < k ==> OfOrder(s, j) == []
    ensures Pick(s, need) == Blk(OfOrder(s, k)[0], need)
    ensures var t := AllocFrom(s, need);
            && t.WF() && t.lo == s.lo && t.hi == s.hi && t.used == s.used + Pow2(need)
            && forall j: nat :: s.lo <= j <= s.hi ==>
                 OfOrder(t, j) == if j == k then OfOrder(s, k)[1..]
                                  else if need <= j < k then [OfOrder(s, k)[0] + Pow2(j)] else OfOrder(s, j)
  {
    hide Balanced, Shape, Pow2, SplitTo, Take;
    k := FitOrder(s, need);
    var b := Blk(s.lists[k - s.lo][0], k);
    assert s.Free(b);
    TakeStep(s, b);
    TakeLists(s, b);
    SplitLists(Take(s, b), b, need);
    AllocSplits(s, need);
  }

  lemma AllocSplits(s: Seg, need: nat)
    requires Sound(s) && s.WF() && s.lo <= need <= s.hi && FitOrder(s, need) <= s.hi
    ensures var k := FitOrder(s, need);
            var b := Blk(s.lists[k - s.lo][0], k);
            && s.Free(b) && Shape(Take(s, b)) && Balanced(Take(s, b)) && b in Take(s, b).out
            && AllocFrom(s, need) == SplitTo(Take(s, b), b, need).(used := s.used + Pow2(need))
            && AllocFrom(s, need).WF()
  {
    hide Balanced, Shape, Pow2, SplitTo, Take;
    var k := FitOrder(s, need);
    var b := Blk(s.lists[k - s.lo][0], k);
    assert s.Free(b);
    TakeStep(s, b);
    WFUsed(SplitTo(Take(s, b), b, need), s.used + Pow2(need));
  }

  lemma WFUsed(t: Seg, u: nat)
    requires Shape(t)
    ensures t.(used := u).WF()
  {
    assert t.WF();
  }

  lemma TakeLists(s: Seg, b: Blk)
    requires s.WF() && s.Free(b) && s.lists[b.ord - s.lo] != [] && b.off == s.lists[b.ord - s.lo][0]
    ensures Take(s, b).lists == s.lists[b.ord - s.lo := s.lists[b.ord - s.lo][1..]]
  {
    var l := s.lists[b.ord - s.lo];
    assert Without(l, l[0]) == l[1..];
  }

  lemma GrabsFirst(p: Pool, n: nat)
    requires SegmentsOk(p)
    ensures var keys := SortedKeys(p.segs.Keys);
            var i := FirstFit(p.segs, keys, n);
            i < |keys| ==>
              AllocBuddy(p, n).Got? && keys[i] in p.segs && AllocBuddy(p, n).handle.base == keys[i] && Fits(p.segs[keys[i]], n)
  {
    hide SegmentsOk, Fits, Seg.WF, Expand, Sound, Need, AllocFrom, Pick;
    WellFormed(p);
  }

  lemma SmallerBefore(keys: seq<nat>, i: nat, b: nat) returns (j: nat)
    requires i < |keys| && b in keys && b < keys[i] && forall k, m :: 0 <= k < m < |keys| ==> keys[k] < keys[m]
    ensures j < i && keys[j] == b
  {
    j :| j < |keys| && keys[j] == b;
  }

  lemma LowestFirst(p: Pool, n: nat, b: nat)
    requires SegmentsOk(p) && b in p.segs && p.segs[b].WF() && forall k :: k in p.segs ==> p.segs[k].WF()
    ensures var keys := SortedKeys(p.segs.Keys);
            var i := FirstFit(p.segs, keys, n);
            i < |keys| && b < keys[i] ==> !Fits(p.segs[b], n)
  {
    hide SegmentsOk, Fits, Seg.WF, FirstFit, SortedKeys;
    var keys := SortedKeys(p.segs.Keys);
    var i := FirstFit(p.segs, keys, n);
    if i < |keys| && b < keys[i] {
      var j := SmallerBefore(keys, i, b);
    }
  }

  /** Segments are tried in the order of their addresses: the first that fits serves the request. */
  lemma LowestAddressServes(p: Pool, n: nat)
    requires SegmentsOk(p) && !NoneFits(p, n)
    ensures var g := AllocBuddy(p, n);
            && g.Got? && g.handle.base in p.segs && Fits(p.segs[g.handle.base], n)
            && forall b :: b in p.segs && b < g.handle.base ==> !Fits(p.segs[b], n)
  {
    hide SegmentsOk, NoneFits, Fits, Seg.WF, AllocBuddy, FirstFit, SortedKeys;
    WellFormed(p);
    FitFound(p, n);
    GrabsFirst(p, n);
    var base := AllocBuddy(p, n).handle.base;
    forall b | b in p.segs && b < base ensures !Fits(p.segs[b], n) { LowestFirst(p, n, b); }
  }

  /** A new segment has twice the capacity of the largest, and at most 512 MB. */
  lemma ExpansionDoubles(p: Pool, largest: nat)
    requires SegmentsOk(p) && p.grants != [] && largest in p.segs
    requires forall b :: b in p.segs ==> p.segs[b].Cap() <= p.segs[largest].Cap()
    ensures var e, cap := Expand(p), p.segs[largest].Cap();
            && p.grants[0] in e.segs && e.grants == p.grants[1..]
            && e.segs[p.grants[0]].Cap() == if cap * 2 < 536870912 then cap * 2 else 536870912
  {
    LimitIs();
    hide Pow2, Sound, Grantable, RegionsApart;
    TopAtLeastMin(p);
    var r := RegionsOf(p.segs);
    var top := TopOrder(r);
    var c :| c in r && r[c] == top;
    assert p.segs[c].Cap() <= p.segs[largest].Cap();
    assert r[largest] <= top;
    SameCap(top, p.segs[largest].hi);
    Doubled(top);
  }

  lemma LimitIs()
    ensures Pow2(29) == 536870912
  {
    assert Pow2(10) == 1024;
    assert Pow2(20) == 1048576 by { assert Pow2(12) == 4096 && Pow2(14) == 16384 && Pow2(16) == 65536 && Pow2(18) == 262144; }
    assert Pow2(22) == 4194304 && Pow2(24) == 16777216 && Pow2(26) == 67108864 && Pow2(28) == 268435456;
  }

  lemma SameCap(i: nat, j: nat)
    requires Pow2(i) <= Pow2(j) && j <= i
    ensures i == j
  {
    if j < i { Pow2Monotone(j, i); }
  }

  lemma Doubled(top: nat)
    requires Pow2(29) == 536870912
    ensures Pow2(if top + 1 < 29 then top + 1 else 29) == if Pow2(top) * 2 < 536870912 then Pow2(top) * 2 else 536870912
  {
    if top + 1 < 29 { Pow2Monotone(top + 1, 29); } else { Pow2Monotone(29, top + 1); }
  }
}
