/**
  What the pool does to one segment in one call: best-fit allocation with splitting, and release
  with coalescing.  The free lists are shown to be determined by the blocks that are out.
 */
module BuddySegment {
  import opened Dyadic
  import opened BuddyTiling

  // ---- bytes -----------------------------------------------------------------------------------

  ghost function Sum(bs: set<Blk>): nat {
    if bs == {} then 0 else var b :| b in bs; b.Size() + Sum(bs - {b})
  }

  lemma {:induction false} SumRemove(bs: set<Blk>, b: Blk)
    requires b in bs
    ensures Sum(bs) == b.Size() + Sum(bs - {b})
    decreases bs
  {
    var c :| c in bs && Sum(bs) == c.Size() + Sum(bs - {c});
    if c != b {
      SumRemove(bs - {c}, b);
      SumRemove(bs - {b}, c);
      assert bs - {c} - {b} == bs - {b} - {c};
    }
  }

  lemma SumAdd(bs: set<Blk>, b: Blk)
    requires b !in bs
    ensures Sum(bs + {b}) == Sum(bs) + b.Size()
  {
    SumRemove(bs + {b}, b);
    assert bs + {b} - {b} == bs;
  }

  function FreeBytes(lists: seq<seq<nat>>, lo: nat): nat {
    if lists == [] then 0 else |lists[0]| * Pow2(lo) + FreeBytes(lists[1..], lo + 1)
  }

  lemma {:induction false} FreeBytesUpdate(lists: seq<seq<nat>>, lo: nat, k: nat, l: seq<nat>)
    requires k < |lists|
    ensures |l| == |lists[k]| + 1 ==> FreeBytes(lists[k := l], lo) == FreeBytes(lists, lo) + Pow2(lo + k)
    ensures |l| + 1 == |lists[k]| ==> FreeBytes(lists[k := l], lo) + Pow2(lo + k) == FreeBytes(lists, lo)
  {
    if k == 0 {
      assert lists[k := l][1..] == lists[1..];
      MulStep(|l|, Pow2(lo));
      MulStep(|lists[0]|, Pow2(lo));
    } else {
      assert lists[k := l][1..] == lists[1..][k - 1 := l];
      FreeBytesUpdate(lists[1..], lo + 1, k - 1, l);
    }
  }

  /** Every byte of the segment is in a free block or in a block that is out. */
  ghost predicate Balanced(s: Seg) { FreeBytes(s.lists, s.lo) + Sum(s.out) == s.Cap() }

  lemma PushBytes(s: Seg, b: Blk)
    requires s.WF() && s.lo <= b.ord <= s.hi
    ensures FreeBytes(Push(s, b).lists, s.lo) == FreeBytes(s.lists, s.lo) + b.Size()
  {
    var k := b.ord - s.lo;
    FreeBytesUpdate(s.lists, s.lo, k, s.lists[k] + [b.off]);
  }

  lemma PullBytes(s: Seg, b: Blk)
    requires s.WF() && Listed(s) && s.Free(b)
    ensures FreeBytes(Pull(s, b).lists, s.lo) + b.Size() == FreeBytes(s.lists, s.lo)
  {
    var k := b.ord - s.lo;
    var l := Without(s.lists[k], b.off);
    WithoutIs(s.lists[k], b.off);
    FreeBytesUpdate(s.lists, s.lo, k, l);
  }

  lemma OverlapNoTile(s: Seg, b: Blk, c: Blk)
    requires s.WF() && Apart(s) && s.Tile(b) && b != c && !Disjoint(b, c)
    ensures !s.Tile(c)
  {}

  lemma TakeStep(s: Seg, b: Blk)
    requires Shape(s) && Balanced(s) && s.Free(b)
    ensures Shape(Take(s, b)) && Balanced(Take(s, b)) && b !in s.out
  {
    hide Divides;
    TakeKeeps(s, b);
    PullBytes(s, b);
    SumAdd(s.out, b);
  }

  lemma HalveStep(s: Seg, b: Blk)
    requires Shape(s) && Balanced(s) && b in s.out && s.lo < b.ord
    ensures b.ord <= s.hi && Shape(Halve(s, b)) && Balanced(Halve(s, b)) && Lower(b) !in s.out
  {
    hide Divides;
    HalveKeeps(s, b);
    OverlapNoTile(s, b, Lower(b));
    PushBytes(s, Upper(b));
    SumRemove(s.out, b);
    SumAdd(s.out - {b}, Lower(b));
  }

  lemma FuseStep(s: Seg, b: Blk)
    requires Shape(s) && Balanced(s) && b in s.out && s.Free(Buddy(b))
    ensures s.lo <= b.ord < s.hi && Shape(Fuse(s, b)) && Balanced(Fuse(s, b)) && Parent(b) !in s.out
  {
    hide Divides;
    FuseKeeps(s, b);
    assert s.Tile(b) && s.Range(b);
    assert !Disjoint(b, Parent(b)) by { BuddyFacts(b); }
    OverlapNoTile(s, b, Parent(b));
    PullBytes(s, Buddy(b));
    SumRemove(s.out, b);
    SumAdd(s.out - {b}, Parent(b));
  }

  lemma PutStep(s: Seg, b: Blk)
    requires Shape(s) && Balanced(s) && b in s.out && !s.Free(Buddy(b))
    ensures s.lo <= b.ord <= s.hi && Shape(Put(s, b)) && Balanced(Put(s, b))
  {
    hide Divides;
    PutKeeps(s, b);
    PushBytes(s, b);
    SumRemove(s.out, b);
  }

  /** The `used` counter plays no part in the tiling. */
  lemma SetUsed(s: Seg, u: nat)
    requires Shape(s) && Balanced(s)
    ensures Shape(s.(used := u)) && Balanced(s.(used := u))
  {
    hide Divides;
    var t := s.(used := u);
    assert forall b :: t.Tile(b) <==> s.Tile(b);
    assert forall b :: t.Free(b) <==> s.Free(b);
    Retile(s, t, {}, {});
  }

  lemma {:induction false} ListBytes(lists: seq<seq<nat>>, lo: nat, k: nat)
    requires k < |lists| && lists[k] != []
    ensures Pow2(lo + k) <= FreeBytes(lists, lo)
  {
    if k == 0 { MulOrder(1, |lists[0]|, Pow2(lo)); }
    else { MulOrder(0, |lists[0]|, Pow2(lo)); ListBytes(lists[1..], lo + 1, k - 1); }
  }

  /** A segment between calls: an exact canonical tiling whose `used` counter is exact. */
  ghost predicate Sound(s: Seg) { Shape(s) && Balanced(s) && s.used == Sum(s.out) }

  // ---- the free lists are a function of what is out ----------------------------------------------

  lemma Nested(a: Blk, b: Blk)
    requires Divides(Pow2(a.ord), a.off) && Divides(Pow2(b.ord), b.off) && a.ord <= b.ord && !Disjoint(a, b)
    ensures Within(a, b)
  {
    hide Divides;
    DividesTrans(a.ord, b.ord, b.off);
    Pow2Divides(a.ord, b.ord);
    DividesSum(Pow2(a.ord), b.off, Pow2(b.ord));
    if a.off < b.off { MultipleGap(Pow2(a.ord), a.off, b.off); }
    MultipleGap(Pow2(a.ord), a.off, b.End());
  }

  lemma StrictlyWithin(a: Blk, b: Blk)
    requires Within(a, b) && a != b
    ensures a.ord < b.ord
  {
    if b.ord <= a.ord { Pow2Monotone(b.ord, a.ord); }
  }

  ghost predicate Clear(s: Seg, b: Blk) { forall o :: o in s.out ==> Disjoint(b, o) }

  /** Every aligned interval that avoids all blocks that are out lies inside one free block. */
  lemma {:induction false} FreeAbove(s: Seg, b: Blk) returns (f: Blk)
    requires Shape(s) && s.Range(b) && Clear(s, b)
    ensures s.Free(f) && Within(b, f)
    decreases b.ord
  {
    hide Divides;
    if b.ord == s.lo {
      assert s.Covers(b.off);
      f :| s.Tile(f) && f.Has(b.off);
      assert s.Range(f);
      Nested(b, f);
    } else {
      var l, u := Lower(b), Upper(b);
      HalfFacts(b);
      var g := FreeAbove(s, l);
      var h := FreeAbove(s, u);
      assert Siblings(l, u);
      assert g != l || h != u;
      f := if g != l then g else h;
      assert s.Tile(f) && s.Range(f);
      StrictlyWithin(if g != l then l else u, f);
      Nested(b, f);
    }
  }

  lemma ParentInRange(s: Seg, b: Blk)
    requires s.WF() && s.Range(b) && b.ord < s.hi
    ensures s.Range(Parent(b)) && Within(b, Parent(b))
  {
    hide Divides;
    BuddyFacts(b);
    var p := Parent(b);
    Pow2Divides(p.ord, s.hi);
    MultipleGap(Pow2(p.ord), p.off, s.Cap());
  }

  /** An aligned interval that avoids all blocks that are out, and whose parent interval does not. */
  ghost predicate MaximalFree(s: Seg, b: Blk) {
    s.Range(b) && Clear(s, b) && (b.ord == s.hi || !Clear(s, Parent(b)))
  }

  lemma FreeIsMaximal(s: Seg, b: Blk)
    requires Shape(s)
    ensures s.Free(b) <==> MaximalFree(s, b)
  {
    hide Divides;
    if s.Free(b) {
      assert s.Tile(b) && s.Range(b);
      assert Clear(s, b) by {
        forall o | o in s.out ensures Disjoint(b, o) { assert s.Tile(o); }
      }
      if b.ord < s.hi && Clear(s, Parent(b)) {
        ParentInRange(s, b);
        var f := FreeAbove(s, Parent(b));
        if f != b { OverlapNoTile(s, b, f); }
        StrictlyWithin(b, Parent(b));
      }
    }
    if MaximalFree(s, b) {
      var f := FreeAbove(s, b);
      if f != b {
        assert s.Tile(f) && s.Range(f);
        StrictlyWithin(b, f);
        ParentInRange(s, b);
        Nested(Parent(b), f);
        forall o | o in s.out ensures Disjoint(Parent(b), o) { assert s.Tile(o) && Disjoint(f, o); }
      }
    }
  }

  /** Two segments with the same blocks out have the same free blocks, whatever led to them. */
  lemma SameOutSameFree(s: Seg, t: Seg)
    requires Shape(s) && Shape(t) && s.lo == t.lo && s.hi == t.hi && s.out == t.out
    ensures forall b :: s.Free(b) <==> t.Free(b)
  {
    hide Divides;
    forall b ensures s.Free(b) <==> t.Free(b) {
      FreeIsMaximal(s, b);
      FreeIsMaximal(t, b);
    }
  }

  /** With nothing out, the free lists hold the whole segment as one block. */
  lemma IdleIsWhole(s: Seg)
    requires Shape(s) && s.out == {}
    ensures forall b :: s.Free(b) <==> b == Blk(0, s.hi)
    ensures s.lists[s.hi - s.lo] == [0]
  {
    hide Divides;
    var w := Blk(0, s.hi);
    SelfDivides(Pow2(s.hi));
    var f := FreeAbove(s, w);
    assert s.Tile(f) && s.Range(f);
    if f != w { StrictlyWithin(w, f); }
    forall b | s.Free(b) ensures b == w {
      assert s.Tile(b) && s.Range(b);
      if b != w { OverlapNoTile(s, w, b); }
    }
    var l := s.lists[s.hi - s.lo];
    assert w.off in l;
    assert NoDup(l);
    forall i | 0 <= i < |l| ensures l[i] == 0 { assert s.Free(Blk(l[i], s.hi)); }
    assert l[0] == l[|l| - 1];
  }

  // ---- allocation --------------------------------------------------------------------------------

  /** The smallest order at or above `k` whose list is not empty; `hi + 1` when there is none. */
  function FitOrder(s: Seg, k: nat): (r: nat)
    requires s.WF() && s.lo <= k <= s.hi + 1
    ensures k <= r <= s.hi + 1
    ensures r <= s.hi ==> s.lists[r - s.lo] != []
    ensures forall j :: k - s.lo <= j < r - s.lo ==> s.lists[j] == []
    decreases s.hi + 1 - k
  {
    if k > s.hi || s.lists[k - s.lo] != [] then k else FitOrder(s, k + 1)
  }

  /** Halve `b`, keeping the lower half, until its order is `need`. */
  ghost function SplitTo(s: Seg, b: Blk, need: nat): (t: Seg)
    requires Shape(s) && Balanced(s) && b in s.out && s.lo <= need <= b.ord
    ensures Shape(t) && Balanced(t) && t.lo == s.lo && t.hi == s.hi && t.used == s.used
    ensures t.out == s.out - {b} + {Blk(b.off, need)}
    ensures Blk(b.off, need) == b || Blk(b.off, need) !in s.out
    decreases b.ord
  {
    if b.ord == need then s
    else
      HalveStep(s, b);
      OverlapNoTile(s, b, Blk(b.off, need));
      SplitTo(Halve(s, b), Lower(b), need)
  }

  /** The block an allocation of order `need` returns: the low end of the oldest best-fitting block. */
  function Pick(s: Seg, need: nat): Blk
    requires s.WF() && s.lo <= need <= s.hi && FitOrder(s, need) <= s.hi
  {
    var k := FitOrder(s, need);
    Blk(s.lists[k - s.lo][0], need)
  }

  ghost function AllocFrom(s: Seg, need: nat): (t: Seg)
    requires Sound(s) && s.lo <= need <= s.hi && FitOrder(s, need) <= s.hi
    ensures Sound(t) && t.lo == s.lo && t.hi == s.hi
    ensures Pick(s, need) !in s.out && t.out == s.out + {Pick(s, need)}
  {
    var k := FitOrder(s, need);
    var b := Blk(s.lists[k - s.lo][0], k);
    assert s.Free(b);
    TakeStep(s, b);
    var t := SplitTo(Take(s, b), b, need);
    SumAdd(s.out, Blk(b.off, need));
    assert t.out == s.out + {Blk(b.off, need)};
    SetUsed(t, s.used + Pow2(need));
    t.(used := s.used + Pow2(need))
  }

  /** If some free block could hold the order, the `cap - used` test lets the request through. */
  lemma FitPassesUsedTest(s: Seg, need: nat)
    requires Sound(s) && s.lo <= need <= s.hi && FitOrder(s, need) <= s.hi
    ensures Pow2(need) <= s.Cap() - s.used
  {
    var k := FitOrder(s, need);
    ListBytes(s.lists, s.lo, k - s.lo);
    Pow2Monotone(need, k);
  }

  // ---- release -----------------------------------------------------------------------------------

  /** Fuse `b` with its buddy for as long as the buddy is free, then list the result. */
  ghost function MergeUp(s: Seg, b: Blk): (t: Seg)
    requires Shape(s) && Balanced(s) && b in s.out
    ensures Shape(t) && Balanced(t) && t.lo == s.lo && t.hi == s.hi && t.used == s.used
    ensures t.out == s.out - {b}
    decreases s.hi - b.ord
  {
    if s.Free(Buddy(b)) then
      FuseStep(s, b);
      MergeUp(Fuse(s, b), Parent(b))
    else
      PutStep(s, b);
      Put(s, b)
  }

  /** How many times a release fuses: never more than the orders above the block. */
  ghost function Merges(s: Seg, b: Blk): (n: nat)
    requires Shape(s) && b in s.out
    ensures b.ord + n <= s.hi && n <= s.hi - s.lo
    decreases s.hi - b.ord
  {
    assert s.Tile(b) && s.Range(b);
    if s.Free(Buddy(b)) then
      FuseKeeps(s, b);
      1 + Merges(Fuse(s, b), Parent(b))
    else 0
  }

  ghost function Release(s: Seg, b: Blk): (t: Seg)
    requires Sound(s) && b in s.out
    ensures Sound(t) && t.lo == s.lo && t.hi == s.hi && t.out == s.out - {b}
  {
    SumRemove(s.out, b);
    SetUsed(s, s.used - b.Size());
    MergeUp(s.(used := s.used - b.Size()), b)
  }

  /** Releasing a block just allocated restores the set of free blocks. */
  lemma AllocReleaseRestores(s: Seg, need: nat)
    requires Sound(s) && s.lo <= need <= s.hi && FitOrder(s, need) <= s.hi
    ensures var t := Release(AllocFrom(s, need), Pick(s, need));
            t.out == s.out && t.used == s.used && forall b :: t.Free(b) <==> s.Free(b)
  {
    var t := Release(AllocFrom(s, need), Pick(s, need));
    assert t.out == s.out;
    SameOutSameFree(s, t);
  }
}
