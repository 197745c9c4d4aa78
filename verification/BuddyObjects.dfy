/**
  Blocks and segments as the objects the pool updates in place.  A segment carries its own free
  lists, and its methods are the loops of the pool's allocation and release; each is proved to do
  to the segment exactly what module BuddySegment says.
 */
module BuddyObjects {
  import opened Dyadic
  import opened BuddyTiling
  import opened BuddySegment
  import opened BuddyPool

  class Block {
    var ptr: nat
    var offset: nat
    var size: nat
    const segment: Segment
    var buddyOrder: nat
    var isAllocated: bool

    constructor (ptr: nat, offset: nat, size: nat, segment: Segment, buddyOrder: nat)
      ensures this.ptr == ptr && this.offset == offset && this.size == size
      ensures this.segment == segment && this.buddyOrder == buddyOrder && !isAllocated
    {
      this.ptr, this.offset, this.size := ptr, offset, size;
      this.segment, this.buddyOrder, this.isAllocated := segment, buddyOrder, false;
    }
  }

  /** The fields of `o` describe block `b` of segment `g`. */
  ghost predicate Stands(o: Block, b: Blk, g: Segment)
    reads o
  {
    o.segment == g && o.ptr == g.ptr + b.off && o.size == b.Size() && o.buddyOrder == b.ord
  }

  /** Which block each object stands for. */
  type Owner = map<Block, Blk>

  ghost predicate Row(o: Owner, l: seq<Block>, offs: seq<nat>, ord: nat) {
    |l| == |offs| && forall i :: 0 <= i < |l| ==> l[i] in o && o[l[i]] == Blk(offs[i], ord)
  }

  ghost predicate Rows(o: Owner, ls: seq<seq<Block>>, s: Seg) {
    |ls| == |s.lists| && forall k :: 0 <= k < |ls| ==> Row(o, ls[k], s.lists[k], s.lo + k)
  }

  /** Each object stands for a tile of the segment, and no two for the same one. */
  ghost predicate Named(o: Owner, s: Seg) requires s.WF() {
    && (forall c :: c in o ==> s.Tile(o[c]))
    && (forall c, d :: c in o && d in o && c != d ==> o[c] != o[d])
  }

  ghost predicate Linked(o: Owner, ls: seq<seq<Block>>, s: Seg) {
    Shape(s) && Named(o, s) && Rows(o, ls, s)
  }

  /** Every object but `x` keeps its block and, with it, being out or not. */
  ghost predicate OthersKept(o: Owner, s: Seg, o': Owner, t: Seg, x: Block) {
    forall c :: c in o' && c != x ==> (o'[c] in t.out <==> c in o && o[c] in s.out)
  }

  /** Every object standing for a block that is out in `p`, apart from `x`, goes on standing for it. */
  ghost predicate OutsKept(o: Owner, o': Owner, p: Seg, x: Blk) {
    forall c :: c in o && o[c] in p.out && o[c] != x ==> c in o' && o'[c] == o[c]
  }

  /** Replacing the entry of an object that is in no list leaves the lists linked. */
  lemma RowsKept(o: Owner, o': Owner, ls: seq<seq<Block>>, s: Seg, x: Block)
    requires s.WF() && Listed(s) && Rows(o, ls, s) && x in o && o[x] in s.out
    requires forall c :: c in o && c != x ==> c in o' && o'[c] == o[c]
    ensures Rows(o', ls, s)
  {
    forall k | 0 <= k < |ls| ensures Row(o', ls[k], s.lists[k], s.lo + k) {
      assert Row(o, ls[k], s.lists[k], s.lo + k);
      forall i | 0 <= i < |ls[k]| ensures ls[k][i] != x { assert s.Free(Blk(s.lists[k][i], s.lo + k)); }
    }
  }

  lemma PushRows(o: Owner, ls: seq<seq<Block>>, s: Seg, c: Block, b: Blk, out: set<Blk>)
    requires s.WF() && s.lo <= b.ord <= s.hi && Rows(o, ls, s) && c in o && o[c] == b
    ensures var k := b.ord - s.lo;
            k < |ls| && Rows(o, ls[k := ls[k] + [c]], Push(s, b).(out := out))
  {
    var k := b.ord - s.lo;
    forall j | 0 <= j < |ls| ensures Row(o, ls[k := ls[k] + [c]][j], Push(s, b).lists[j], s.lo + j) {
      assert Row(o, ls[j], s.lists[j], s.lo + j);
    }
  }

  lemma PullRows(o: Owner, ls: seq<seq<Block>>, s: Seg, b: Blk, out: set<Blk>)
    requires s.WF() && s.Free(b) && Rows(o, ls, s)
    ensures var k, i := b.ord - s.lo, IndexOf(s.lists[b.ord - s.lo], b.off);
            && k < |ls| && i < |ls[k]| && ls[k][i] in o && o[ls[k][i]] == b
            && Rows(o, ls[k := ls[k][..i] + ls[k][i + 1..]], Pull(s, b).(out := out))
  {
    var k, i := b.ord - s.lo, IndexOf(s.lists[b.ord - s.lo], b.off);
    assert Row(o, ls[k], s.lists[k], s.lo + k);
    var l := ls[k][..i] + ls[k][i + 1..];
    assert Row(o, l, Without(s.lists[k], b.off), s.lo + k);
    forall j | 0 <= j < |ls| ensures Row(o, ls[k := l][j], Pull(s, b).lists[j], s.lo + j) {
      assert Row(o, ls[j], s.lists[j], s.lo + j);
    }
  }

  lemma ShapeLists(s: Seg)
    requires Shape(s)
    ensures s.WF() && Listed(s)
  {
    hide Placed, Apart, Full, Listed, Canonical;
  }

  /** Halving replaces one tile by two new ones. */
  lemma HalveParts(s: Seg, b: Blk)
    requires Shape(s) && b in s.out && s.lo < b.ord
    ensures b.ord <= s.hi && Shape(Halve(s, b)) && Lower(b) != Upper(b)
    ensures !s.Tile(Lower(b)) && !s.Tile(Upper(b)) && Lower(b) !in s.out && Upper(b) !in s.out
    ensures forall c :: Halve(s, b).Tile(c) <==> (s.Tile(c) && c != b) || c == Lower(b) || c == Upper(b)
  {
    assert s.Tile(b);
    HalveKeeps(s, b);
    OverlapNoTile(s, b, Lower(b));
    OverlapNoTile(s, b, Upper(b));
    hide Shape;
  }

  lemma HalveReady(o: Owner, ls: seq<seq<Block>>, s: Seg, b: Blk)
    requires Linked(o, ls, s) && b in s.out && s.lo < b.ord
    ensures s.WF() && b.ord <= s.hi && |ls| == s.hi - s.lo + 1
  {
    HalveParts(s, b);
  }

  lemma HalveNamed(o: Owner, s: Seg, x: Block, y: Block, b: Blk, o': Owner)
    requires Shape(s) && Named(o, s) && x in o && y !in o && o[x] == b && b in s.out && s.lo < b.ord <= s.hi
    requires o' == o[x := Lower(b)][y := Upper(b)]
    ensures Named(o', Halve(s, b)) && OthersKept(o, s, o', Halve(s, b), x)
  {
    HalveParts(s, b);
    var t, l, u := Halve(s, b), Lower(b), Upper(b);
    assert s.Tile(b) && t.out == s.out - {b} + {l};
    hide Shape, Halve, Lower, Upper, Seg.Tile;
    forall c | c in o && c != x ensures s.Tile(o[c]) && o[c] != b {}
    assert Named(o', t);
    hide Named;
    forall c | c in o' && c != x ensures o'[c] in t.out <==> c in o && o[c] in s.out {}
  }

  lemma HalveLinked(o: Owner, ls: seq<seq<Block>>, s: Seg, x: Block, y: Block, b: Blk, o': Owner, ls': seq<seq<Block>>)
    requires Linked(o, ls, s) && x in o && y !in o && o[x] == b && b in s.out && s.WF() && s.lo < b.ord <= s.hi
    requires o' == o[x := Lower(b)][y := Upper(b)]
    requires b.ord - 1 - s.lo < |ls| && ls' == ls[b.ord - 1 - s.lo := ls[b.ord - 1 - s.lo] + [y]]
    ensures Linked(o', ls', Halve(s, b)) && OthersKept(o, s, o', Halve(s, b), x)
  {
    hide Shape, Listed, Named, Rows, OthersKept;
    ShapeLists(s);
    HalveParts(s, b);
    HalveNamed(o, s, x, y, b, o');
    RowsKept(o, o', ls, s, x);
    PushRows(o', ls, s, y, Upper(b), s.out - {b} + {Lower(b)});
  }

  lemma TakeLinked(o: Owner, ls: seq<seq<Block>>, s: Seg, b: Blk, ls': seq<seq<Block>>)
    requires Linked(o, ls, s) && s.WF() && s.Free(b)
    ensures var k, i := b.ord - s.lo, IndexOf(s.lists[b.ord - s.lo], b.off);
            && k < |ls| && i < |ls[k]| && ls[k][i] in o && o[ls[k][i]] == b
            && (ls' == ls[k := ls[k][..i] + ls[k][i + 1..]] ==>
                  Linked(o, ls', Take(s, b)) && OthersKept(o, s, o, Take(s, b), ls[k][i]))
  {
    TakeKeeps(s, b);
    PullRows(o, ls, s, b, s.out + {b});
    assert forall c :: Take(s, b).Tile(c) <==> s.Tile(c);
    hide Shape, Rows;
  }

  /** Fusing replaces two tiles by one new one. */
  lemma FuseParts(s: Seg, b: Blk)
    requires Shape(s) && b in s.out && s.Free(Buddy(b))
    ensures s.lo <= b.ord < s.hi && Shape(Fuse(s, b)) && Buddy(b) != b
    ensures !s.Tile(Parent(b)) && Parent(b) !in s.out && Buddy(b) !in s.out
    ensures forall c :: Fuse(s, b).Tile(c) <==> (s.Tile(c) && c != b && c != Buddy(b)) || c == Parent(b)
  {
    hide Divides;
    assert s.Tile(b) && s.Range(b);
    FuseKeeps(s, b);
    BuddyFacts(b);
    OverlapNoTile(s, b, Parent(b));
    assert Buddy(b) !in s.out;
    hide Shape;
  }

  lemma FusedNotFree(s: Seg, b: Blk)
    requires Shape(s) && b in s.out && s.Free(Buddy(b))
    ensures s.lo <= b.ord <= s.hi && !Fuse(s, b).Free(b) && !Fuse(s, b).Free(Buddy(b))
  {
    hide Divides;
    assert s.Tile(b) && s.Range(b);
    FuseKeeps(s, b);
  }

  lemma FuseNamed(o: Owner, s: Seg, x: Block, y: Block, b: Blk, o': Owner)
    requires Shape(s) && Named(o, s) && x in o && y in o && o[x] == b && b in s.out && s.Free(Buddy(b)) && o[y] == Buddy(b)
    requires s.lo <= b.ord <= s.hi && o' == (o - {y})[x := Parent(b)]
    ensures Named(o', Fuse(s, b)) && OthersKept(o, s, o', Fuse(s, b), x)
  {
    FuseParts(s, b);
    var t, p, d := Fuse(s, b), Parent(b), Buddy(b);
    assert t.out == s.out - {b} + {p};
    hide Shape, Fuse, Parent, Buddy, Seg.Tile;
    forall c | c in o && c != x && c != y ensures s.Tile(o[c]) && o[c] != b && o[c] != d {}
    assert Named(o', t);
    hide Named;
    forall c | c in o' && c != x ensures o'[c] in t.out <==> c in o && o[c] in s.out {}
  }

  lemma FuseReady(o: Owner, ls: seq<seq<Block>>, s: Seg, x: Block, b: Blk, k: nat, i: nat)
    requires Linked(o, ls, s) && x in o && o[x] == b && b in s.out && s.WF() && s.lo <= b.ord <= s.hi && k == b.ord - s.lo
    requires s.Free(Buddy(b)) && i == IndexOf(s.lists[k], BuddyOff(b.off, b.ord))
    ensures b.ord < s.hi && Buddy(b) !in s.out
    ensures k < |ls| && i < |ls[k]| && ls[k][i] in o && ls[k][i] != x && o[ls[k][i]] == Buddy(b)
  {
    PullRows(o, ls, s, Buddy(b), {});
    FuseParts(s, b);
  }

  lemma FuseLinked(o: Owner, ls: seq<seq<Block>>, s: Seg, x: Block, b: Blk, k: nat, i: nat, y: Block, o': Owner, ls': seq<seq<Block>>)
    requires Linked(o, ls, s) && x in o && o[x] == b && b in s.out && s.WF() && s.lo <= b.ord <= s.hi && k == b.ord - s.lo
    requires s.Free(Buddy(b)) && i == IndexOf(s.lists[k], BuddyOff(b.off, b.ord)) && k < |ls| && i < |ls[k]| && y == ls[k][i]
    requires o' == (o - {y})[x := Parent(b)] && ls' == ls[k := ls[k][..i] + ls[k][i + 1..]]
    ensures Linked(o', ls', Fuse(s, b)) && OthersKept(o, s, o', Fuse(s, b), x)
  {
    hide Shape, Listed, Named, Rows, OthersKept;
    FuseReady(o, ls, s, x, b, k, i);
    PullRows(o, ls, s, Buddy(b), s.out - {b} + {Parent(b)});
    FuseParts(s, b);
    FuseNamed(o, s, x, y, b, o');
    ShapeLists(Fuse(s, b));
    FusedNotFree(s, b);
    FuseRows(o, o', ls', s, Fuse(s, b), x, y);
  }

  /** After a fusion no list holds the fused objects, so renaming one and dropping the other is safe. */
  lemma FuseRows(o: Owner, o': Owner, ls: seq<seq<Block>>, s: Seg, t: Seg, x: Block, y: Block)
    requires s.WF() && t.WF() && Listed(t) && Rows(o, ls, t) && x in o && y in o
    requires !t.Free(o[x]) && !t.Free(o[y])
    requires forall c :: c in o && c != x && c != y ==> c in o' && o'[c] == o[c]
    ensures Rows(o', ls, t)
  {
    forall k | 0 <= k < |ls| ensures Row(o', ls[k], t.lists[k], t.lo + k) {
      assert Row(o, ls[k], t.lists[k], t.lo + k);
      forall i | 0 <= i < |ls[k]| ensures ls[k][i] != x && ls[k][i] != y { assert t.Free(Blk(t.lists[k][i], t.lo + k)); }
    }
  }

  lemma PutLinked(o: Owner, ls: seq<seq<Block>>, s: Seg, x: Block, b: Blk)
    requires Linked(o, ls, s) && x in o && o[x] == b && b in s.out && s.WF() && !s.Free(Buddy(b))
    ensures var k := b.ord - s.lo;
            && s.lo <= b.ord <= s.hi && k < |ls|
            && Linked(o, ls[k := ls[k] + [x]], Put(s, b)) && OthersKept(o, s, o, Put(s, b), x)
  {
    PutKeeps(s, b);
    PushRows(o, ls, s, x, b, s.out - {b});
    assert forall c :: Put(s, b).Tile(c) <==> s.Tile(c);
    hide Shape, Rows;
  }

  class Segment {
    const ptr: nat
    const cap: nat
    var used: nat
    const minOrder: nat
    const maxOrder: nat
    /** `lists[k]` holds the free blocks of order `minOrder + k`, oldest first. */
    var lists: seq<seq<Block>>
    /** The value this segment stands for, the objects in use, and those that coalescing has deleted. */
    ghost var s: Seg
    ghost var owner: Owner
    ghost var deleted: set<Block>

    /** A fresh segment: one free block of its whole capacity. */
    constructor (ptr: nat, cap: nat, minOrder: nat, maxOrder: nat)
      requires minOrder <= maxOrder && cap == Pow2(maxOrder)
      ensures Valid({}) && s == NewSegment(minOrder, maxOrder) && this.ptr == ptr && fresh(owner.Keys)
      ensures this.minOrder == minOrder && this.maxOrder == maxOrder && this.cap == cap
    {
      this.ptr, this.cap, this.used := ptr, cap, 0;
      this.minOrder, this.maxOrder := minOrder, maxOrder;
      lists := seq(maxOrder - minOrder + 1, _ => []);
      s := NewSegment(minOrder, maxOrder);
      deleted := {};
      new;
      var block := new Block(ptr, 0, cap, this, maxOrder);
      lists := lists[maxOrder - minOrder := [block]];
      owner := map[block := Blk(0, maxOrder)];
      NewSegmentSound(minOrder, maxOrder);
      assert Rows(owner, lists, s);
      hide Shape;
    }

    /** Only objects in `raw` may have a stale allocation flag. */
    ghost predicate Valid(raw: set<Block>)
      reads this, owner.Keys
    {
      && s.lo == minOrder && s.hi == maxOrder && s.used == used && cap == s.Cap()
      && Linked(owner, lists, s)
      && (forall o :: o in owner ==> Stands(o, owner[o], this))
      && (forall o :: o in owner && o !in raw ==> o.isAllocated == (owner[o] in s.out))
      && owner.Keys !! deleted && (forall o :: o in deleted ==> o.segment == this)
    }

    /** The body of the split loop: keep the lower half of `block`, list the upper half as a new block. */
    method HalveBlock(block: Block, ghost b: Blk)
      requires Valid({block}) && block in owner && owner[block] == b && b in s.out && minOrder < b.ord
      modifies this, block
      ensures Valid({block}) && block in owner && owner[block] == Lower(b)
      ensures old(s).WF() && b.ord <= old(s).hi && s == Halve(old(s), b)
      ensures fresh(owner.Keys - old(owner.Keys)) && deleted == old(deleted)
      ensures forall c :: c in old(owner) && c != block ==> c in owner && owner[c] == old(owner[c])
    {
      hide Linked, Halve, Shape;
      HalveReady(owner, lists, s, b);
      var k := block.buddyOrder - 1 - minOrder;
      assert k == b.ord - 1 - s.lo;
      hide Stands;
      var buddy := SplitInTwo(block, b, this);
      HalveLinked(owner, lists, s, block, buddy, b, owner[block := Lower(b)][buddy := Upper(b)], lists[k := lists[k] + [buddy]]);
      lists := lists[k := lists[k] + [buddy]];
      owner := owner[block := Lower(b)][buddy := Upper(b)];
      s := Halve(s, b);
    }

    /** Search the lists upwards from the needed order for one that is not empty. */
    method FindFit(need: nat) returns (order: nat)
      requires Valid({}) && minOrder <= need <= maxOrder
      ensures s.WF() && order == FitOrder(s, need)
    {
      order := need;
      assert Rows(owner, lists, s);
      while order <= maxOrder
        invariant need <= order <= maxOrder + 1 && FitOrder(s, order) == FitOrder(s, need)
      {
        var idx := order - minOrder;
        assert Row(owner, lists[idx], s.lists[idx], s.lo + idx);
        if idx >= |lists| || lists[idx] == [] {
          order := order + 1;
          continue;
        }
        break;
      }
    }

    /** Take the oldest block off the list of `order`. */
    method PopFront(order: nat, ghost p: Seg, ghost b: Blk) returns (block: Block)
      requires Valid({}) && p == s && minOrder <= order <= maxOrder && s.WF()
      requires s.lists[order - s.lo] != [] && b == Blk(s.lists[order - s.lo][0], order)
      modifies this
      ensures p.Free(b) && s == Take(p, b) && Valid({block}) && block in owner && owner[block] == b
      ensures owner == old(owner) && deleted == old(deleted)
    {
      hide Shape, Stands;
      assert p.Free(b) && IndexOf(p.lists[order - p.lo], b.off) == 0;
      var k := order - minOrder;
      TakeLinked(owner, lists, p, b, lists[k := lists[k][..0] + lists[k][1..]]);
      assert lists[k][..0] + lists[k][1..] == lists[k][1..];
      hide Linked, Take;
      block := lists[k][0];
      lists := lists[k := lists[k][1..]];
      s := Take(p, b);
    }

    /** The split loop: halve `block` until its order is `need`. */
    method SplitDown(block: Block, need: nat, ghost p: Seg, ghost b: Blk)
      requires Valid({block}) && p == s && Shape(s) && Balanced(s)
      requires block in owner && owner[block] == b && b in s.out && minOrder <= need <= b.ord
      modifies this, block
      ensures Valid({block}) && s == SplitTo(p, b, need) && block in owner && owner[block] == Blk(b.off, need)
      ensures fresh(owner.Keys - old(owner.Keys)) && deleted == old(deleted)
      ensures forall c :: c in old(owner) && c != block ==> c in owner && owner[c] == old(owner[c])
    {
      hide Linked, Shape, Balanced, Halve, Named;
      while block.buddyOrder > need
        invariant Valid({block}) && Shape(s) && Balanced(s) && block in owner && owner[block].off == b.off
        invariant need <= owner[block].ord && owner[block] in s.out
        invariant SplitTo(s, owner[block], need) == SplitTo(p, b, need)
        invariant fresh(owner.Keys - old(owner.Keys)) && deleted == old(deleted)
        invariant forall c :: c in old(owner) && c != block ==> c in owner && owner[c] == old(owner[c])
        decreases owner[block].ord
      {
        HalveStep(s, owner[block]);
        HalveBlock(block, owner[block]);
      }
    }

    method MarkAllocated(block: Block, ghost p: Seg, ghost b: Blk)
      requires Valid({block}) && p == s && Shape(s) && Balanced(s) && block in owner && owner[block] == b && b in s.out
      modifies this, block
      ensures Valid({}) && s == p.(used := p.used + b.Size()) && owner == old(owner) && deleted == old(deleted)
    {
      hide Linked, Shape;
      LinkedUsed(owner, lists, s, s.used + b.Size());
      block.isAllocated := true;
      used := used + block.size;
      s := s.(used := s.used + b.Size());
    }

    /** Allocate a block of order `need` from the list of `order`, the best fit: split it down. */
    method AllocBlock(need: nat, order: nat, ghost p: Seg) returns (block: Block)
      requires Valid({}) && p == s && s.WF() && Sound(s) && minOrder <= need <= maxOrder && order == FitOrder(s, need) <= s.hi
      modifies this, owner.Keys
      ensures Valid({}) && s == AllocFrom(p, need)
      ensures block in owner && owner[block] == Pick(p, need)
      ensures fresh(owner.Keys - old(owner.Keys)) && deleted == old(deleted) && OutsKept(old(owner), owner, p, Pick(p, need))
    {
      hide Linked, Shape, Balanced, Take;
      ghost var b := Blk(p.lists[order - p.lo][0], order);
      assert p.Free(b);
      TakeStep(p, b);
      block := PopFront(order, p, b);
      SplitDown(block, need, s, b);
      MarkAllocated(block, s, Blk(b.off, need));
    }

    /** What the fields of a listed block say. */
    lemma ListEntries(raw: set<Block>, x: Block, k: nat)
      requires Valid(raw) && raw == {x} && x in owner && owner[x] in s.out && k < |lists|
      ensures s.WF() && k < |s.lists| && |s.lists[k]| == |lists[k]|
      ensures forall i :: 0 <= i < |lists[k]| ==> Listing(lists[k][i], ptr + s.lists[k][i], minOrder + k)
    {
      assert Row(owner, lists[k], s.lists[k], s.lo + k);
      forall i | 0 <= i < |lists[k]| ensures Listing(lists[k][i], ptr + s.lists[k][i], minOrder + k) {
        assert s.Free(Blk(s.lists[k][i], s.lo + k));
        assert lists[k][i] in owner && lists[k][i] != x;
      }
    }

    /** One turn of the merge loop: absorb the free buddy at position `i` of its list, and delete it. */
    method FuseBlock(block: Block, i: nat, ghost p: Seg, ghost b: Blk)
      requires Valid({block}) && p == s && block in owner && owner[block] == b && b in s.out && s.WF()
      requires s.lo <= b.ord <= s.hi && s.Free(Buddy(b)) && i == IndexOf(s.lists[b.ord - s.lo], BuddyOff(b.off, b.ord))
      modifies this, block
      ensures b.ord < p.hi && s == Fuse(p, b) && Valid({block}) && block in owner && owner[block] == Parent(b)
      ensures block.isAllocated == old(block.isAllocated)
      ensures owner.Keys <= old(owner.Keys) && old(deleted) <= deleted <= old(deleted) + old(owner.Keys)
      ensures forall c :: c in old(owner) && c != block && old(owner[c]) in p.out ==> c in owner && owner[c] == old(owner[c])
    {
      hide Linked, Shape, Fuse;
      var k := block.buddyOrder - minOrder;
      FuseReady(owner, lists, s, block, b, k, i);
      var buddy := lists[k][i];
      hide Stands;
      Absorb(block, buddy, b, this);
      FuseLinked(owner, lists, s, block, b, k, i, buddy, (owner - {buddy})[block := Parent(b)], lists[k := lists[k][..i] + lists[k][i + 1..]]);
      lists := lists[k := lists[k][..i] + lists[k][i + 1..]];
      owner := (owner - {buddy})[block := Parent(b)];
      deleted := deleted + {buddy};
      s := Fuse(p, b);
    }

    method PutBlock(block: Block, ghost p: Seg, ghost b: Blk)
      requires Valid({block}) && p == s && block in owner && owner[block] == b && b in s.out && s.WF() && !s.Free(Buddy(b))
      requires !block.isAllocated
      modifies this
      ensures s.WF() && p.lo <= b.ord <= p.hi && s == Put(p, b) && Valid({})
      ensures owner == old(owner) && deleted == old(deleted)
    {
      PutLinked(owner, lists, s, block, b);
      hide Linked, Shape, Put;
      var k := block.buddyOrder - minOrder;
      lists := lists[k := lists[k] + [block]];
      s := Put(p, b);
    }

    /** Where in its list the block's buddy is, found by flipping a bit of the block's offset. */
    method LocateBuddy(block: Block, ghost b: Blk) returns (k: nat, i: nat)
      requires Valid({block}) && block in owner && owner[block] == b && b in s.out
      ensures s.WF() && s.lo <= b.ord <= s.hi && k == b.ord - s.lo && k < |lists|
      ensures i == IndexOf(s.lists[k], BuddyOff(b.off, b.ord)) && (i < |lists[k]| <==> s.Free(Buddy(b))) && i <= |lists[k]|
    {
      hide Linked;
      OutInRange(owner, lists, s, b);
      k := block.buddyOrder - minOrder;
      ListEntries({block}, block, k);
      var addr := Xor(block.ptr - ptr, Pow2(block.buddyOrder));
      i := FindBuddy(lists[k], ptr, block.buddyOrder, addr, s.lists[k]);
    }

    /** One turn of the merge loop; `more` says whether to go on. */
    method MergeTurn(block: Block, ghost p: Seg, ghost b: Blk) returns (more: bool)
      requires Valid({block}) && p == s && Shape(s) && block in owner && owner[block] == b && b in s.out && !block.isAllocated
      modifies this, block
      ensures p.WF() && p.lo <= b.ord <= p.hi && more == p.Free(Buddy(b)) && !block.isAllocated
      ensures more ==> s == Fuse(p, b) && Valid({block}) && block in owner && owner[block] == Parent(b)
      ensures !more ==> s == Put(p, b) && Valid({})
      ensures owner.Keys <= old(owner.Keys) && old(deleted) <= deleted <= old(deleted) + old(owner.Keys)
      ensures forall c :: c in old(owner) && c != block && old(owner[c]) in p.out ==> c in owner && owner[c] == old(owner[c])
    {
      var k, i := LocateBuddy(block, b);
      more := i < |lists[k]|;
      hide Linked, Fuse, Put, Shape;
      if more {
        FuseBlock(block, i, p, b);
      } else {
        PutBlock(block, p, b);
      }
    }

    /** The merge loop: absorb the buddy for as long as it is free, then list the block. */
    method MergeLoop(block: Block, ghost p: Seg, ghost b: Blk) returns (ghost merges: nat)
      requires Valid({block}) && p == s && Shape(s) && Balanced(s) && block in owner && owner[block] == b && b in s.out
      requires !block.isAllocated
      modifies this, block
      ensures Valid({}) && s == MergeUp(p, b) && merges == Merges(p, b) <= maxOrder - minOrder
      ensures owner.Keys <= old(owner.Keys) && old(deleted) <= deleted <= old(deleted) + old(owner.Keys)
      ensures forall c :: c in old(owner) && c != block && old(owner[c]) in p.out ==> c in owner && owner[c] == old(owner[c])
    {
      hide Linked, Shape, Balanced, Fuse, Put;
      merges := 0;
      while true
        invariant Valid({block}) && Shape(s) && Balanced(s) && block in owner && owner[block] in s.out && !block.isAllocated
        invariant MergeUp(s, owner[block]) == MergeUp(p, b) && merges + Merges(s, owner[block]) == Merges(p, b)
        invariant owner.Keys <= old(owner.Keys) && old(deleted) <= deleted <= old(deleted) + old(owner.Keys)
        invariant forall c :: c in old(owner) && c != block && old(owner[c]) in p.out ==> c in owner && owner[c] == old(owner[c]) && owner[c] in s.out
        decreases maxOrder - owner[block].ord
      {
        ghost var q, d := s, owner[block];
        var more := MergeTurn(block, q, d);
        if !more { break; }
        FuseStep(q, d);
        merges := merges + 1;
      }
    }

    /** Give `block` back to the segment: clear its flag, uncount its bytes, and coalesce. */
    method ReleaseBlock(block: Block, ghost p: Seg, ghost b: Blk)
      requires Valid({}) && p == s && Sound(s) && block in owner && owner[block] == b && b in s.out
      modifies this, owner.Keys
      ensures Valid({}) && s == Release(p, b) && OutsKept(old(owner), owner, p, b)
      ensures owner.Keys <= old(owner.Keys) && old(deleted) <= deleted <= old(deleted) + old(owner.Keys)
    {
      hide Linked, Shape, Balanced;
      SumRemove(s.out, b);
      SetUsed(s, s.used - b.Size());
      LinkedUsed(owner, lists, s, s.used - b.Size());
      block.isAllocated := false;
      used := used - block.size;
      s := s.(used := s.used - b.Size());
      ghost var merges := MergeLoop(block, s, b);
    }
  }

  lemma OutInRange(o: Owner, ls: seq<seq<Block>>, s: Seg, b: Blk)
    requires Linked(o, ls, s) && b in s.out
    ensures s.WF() && s.lo <= b.ord <= s.hi && |ls| == s.hi - s.lo + 1
  {
    assert s.Tile(b) && s.Range(b);
  }

  /** A listed block: free, of order `ord`, at address `addr`. */
  ghost predicate Listing(o: Block, addr: nat, ord: nat)
    reads o
  {
    o.ptr == addr && o.buddyOrder == ord && !o.isAllocated
  }

  /** The first block of the list at distance `addr` from the segment's base, or the end of the list. */
  method FindBuddy(list: seq<Block>, base: nat, order: nat, addr: nat, ghost offs: seq<nat>) returns (i: nat)
    requires |list| == |offs| && forall j :: 0 <= j < |list| ==> Listing(list[j], base + offs[j], order)
    ensures i == IndexOf(offs, addr)
  {
    i := 0;
    while i < |list| && !(list[i].ptr - base == addr && list[i].buddyOrder == order && !list[i].isAllocated)
      invariant 0 <= i <= |list| && forall j :: 0 <= j < i ==> offs[j] != addr
    {
      i := i + 1;
    }
  }

  /** Grow `block` to its parent block, whose other half is `buddy`. */
  method Absorb(block: Block, buddy: Block, ghost b: Blk, ghost g: Segment)
    requires Stands(block, b, g) && Stands(buddy, Buddy(b), g)
    modifies block
    ensures Stands(block, Parent(b), g) && block.isAllocated == old(block.isAllocated)
  {
    if block.ptr < buddy.ptr {
      block.size := block.size * 2;
      block.buddyOrder := block.buddyOrder + 1;
    } else {
      block.ptr := buddy.ptr;
      block.size := block.size * 2;
      block.buddyOrder := block.buddyOrder + 1;
    }
  }

  lemma SameTiles(s: Seg, u: nat)
    requires Shape(s)
    ensures s.WF() && s.(used := u).WF() && forall c :: s.(used := u).Tile(c) <==> s.Tile(c)
  {
    hide Placed, Apart, Full, Listed, Canonical;
  }

  lemma LinkedUsed(o: Owner, ls: seq<seq<Block>>, s: Seg, u: nat)
    requires Linked(o, ls, s) && Balanced(s)
    ensures Linked(o, ls, s.(used := u))
  {
    hide Shape, Row;
    SetUsed(s, u);
    SameTiles(s, u);
  }

  /** Shrink `block` to its lower half, and make a block of its upper half. */
  method SplitInTwo(block: Block, ghost b: Blk, ghost g: Segment) returns (buddy: Block)
    requires Stands(block, b, g) && b.ord > 0
    modifies block
    ensures fresh(buddy) && !buddy.isAllocated && Stands(block, Lower(b), g) && Stands(buddy, Upper(b), g)
  {
    var newSize := block.size / 2;
    block.size := newSize;
    block.buddyOrder := block.buddyOrder - 1;
    buddy := new Block(block.ptr + newSize, block.offset + newSize, newSize, block.segment, block.buddyOrder);
  }
}
