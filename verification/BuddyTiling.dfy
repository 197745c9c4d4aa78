/**
  One segment of the buddy pool as a value: its free lists, and the blocks that are out of them
  (live with a caller, or parked in the object cache).  Four list moves - take a block out, halve
  it, fuse it with its free buddy, put it back - are all the pool ever does to a segment, and each
  keeps the segment an exact, canonical tiling.
 */
module BuddyTiling {
  import opened Dyadic

  /** A block: its distance from the segment's base address and its order; its size is 2^ord. */
  datatype Blk = Blk(off: nat, ord: nat) {
    function Size(): nat { Pow2(ord) }
    function End(): nat { off + Pow2(ord) }
    predicate Has(x: int) { off <= x < End() }
  }

  predicate Disjoint(a: Blk, b: Blk) { a.End() <= b.off || b.End() <= a.off }

  predicate Within(a: Blk, b: Blk) { b.off <= a.off && a.End() <= b.End() }

  function Buddy(b: Blk): Blk { Blk(BuddyOff(b.off, b.ord), b.ord) }

  function Lower(b: Blk): Blk requires b.ord > 0 { Blk(b.off, b.ord - 1) }

  function Upper(b: Blk): Blk requires b.ord > 0 { Blk(b.off + Pow2(b.ord - 1), b.ord - 1) }

  /** The union of a block and its buddy, which starts at the lower of the two. */
  function Parent(b: Blk): Blk { Blk(if BuddyOff(b.off, b.ord) < b.off then BuddyOff(b.off, b.ord) else b.off, b.ord + 1) }

  /** `lists[k]` holds the offsets of the free blocks of order `lo + k`, oldest first. */
  datatype Seg = Seg(lo: nat, hi: nat, used: nat, lists: seq<seq<nat>>, out: set<Blk>) {
    function Cap(): nat { Pow2(hi) }
    predicate WF() { lo <= hi && |lists| == hi - lo + 1 }
    predicate Range(b: Blk) { lo <= b.ord <= hi && Divides(Pow2(b.ord), b.off) && b.End() <= Cap() }
    predicate Free(b: Blk) requires WF() { lo <= b.ord <= hi && b.off in lists[b.ord - lo] }
    predicate Tile(b: Blk) requires WF() { Free(b) || b in out }
    ghost predicate Covers(x: nat) requires WF() { exists b :: Tile(b) && b.Has(x) }
  }

  ghost predicate NoDup<T>(s: seq<T>) { forall i, j :: 0 <= i < j < |s| ==> s[i] != s[j] }

  /** Two blocks are buddies. */
  predicate Siblings(a: Blk, b: Blk) { b == Buddy(a) }

  ghost predicate Placed(s: Seg) requires s.WF() { forall b :: s.Tile(b) ==> s.Range(b) }
  ghost predicate Apart(s: Seg) requires s.WF() { forall a, b :: s.Tile(a) && s.Tile(b) && a != b ==> Disjoint(a, b) }
  ghost predicate Full(s: Seg) requires s.WF() { forall x :: 0 <= x < s.Cap() ==> s.Covers(x) }
  ghost predicate Listed(s: Seg) requires s.WF() {
    && (forall b :: s.Free(b) ==> b !in s.out)
    && (forall k :: 0 <= k < |s.lists| ==> NoDup(s.lists[k]))
  }
  ghost predicate Canonical(s: Seg) requires s.WF() { forall a, b :: s.Free(a) && s.Free(b) ==> !Siblings(a, b) }

  /** The segment is an exact tiling by aligned blocks, and no two free blocks are buddies. */
  ghost predicate Shape(s: Seg) {
    s.WF() && Placed(s) && Apart(s) && Full(s) && Listed(s) && Canonical(s)
  }

  // ---- list moves ----------------------------------------------------------------------------

  function IndexOf<T(==)>(l: seq<T>, x: T): (i: nat)
    ensures i <= |l|
    ensures i < |l| ==> l[i] == x
    ensures forall j :: 0 <= j < i ==> l[j] != x
  {
    if l == [] then 0 else if l[0] == x then 0 else 1 + IndexOf(l[1..], x)
  }

  function Without<T(==)>(l: seq<T>, x: T): seq<T> {
    var i := IndexOf(l, x);
    if i == |l| then l else l[..i] + l[i + 1..]
  }

  lemma WithoutIs<T>(l: seq<T>, x: T)
    requires NoDup(l)
    ensures NoDup(Without(l, x))
    ensures forall y :: y in Without(l, x) <==> y in l && y != x
    ensures x in l ==> |Without(l, x)| == |l| - 1
  {
    var i, w := IndexOf(l, x), Without(l, x);
    if i < |l| {
      forall y ensures y in w <==> y in l && y != x {
        if y in l && y != x {
          var j :| 0 <= j < |l| && l[j] == y;
          assert y == w[if j < i then j else j - 1];
        }
        if y in w {
          var j :| 0 <= j < |w| && w[j] == y;
          assert y == l[if j < i then j else j + 1];
        }
      }
    }
  }

  /** Append `b` to the list of its order. */
  function Push(s: Seg, b: Blk): Seg
    requires s.WF() && s.lo <= b.ord <= s.hi
  {
    var k := b.ord - s.lo;
    s.(lists := s.lists[k := s.lists[k] + [b.off]])
  }

  /** Delete `b` from the list of its order. */
  function Pull(s: Seg, b: Blk): Seg
    requires s.WF() && s.lo <= b.ord <= s.hi
  {
    var k := b.ord - s.lo;
    s.(lists := s.lists[k := Without(s.lists[k], b.off)])
  }

  lemma PushFree(s: Seg, b: Blk)
    requires s.WF() && s.lo <= b.ord <= s.hi && !s.Free(b)
    requires forall k :: 0 <= k < |s.lists| ==> NoDup(s.lists[k])
    ensures var t := Push(s, b);
            && t.WF()
            && (forall c :: t.Free(c) <==> s.Free(c) || c == b)
            && (forall k :: 0 <= k < |t.lists| ==> NoDup(t.lists[k]))
  {
    var t, k := Push(s, b), b.ord - s.lo;
    assert b.off !in s.lists[k];
    assert t.lists[k] == s.lists[k] + [b.off];
    forall c ensures t.Free(c) <==> s.Free(c) || c == b {
      if c.ord == b.ord { assert c.off in t.lists[k] <==> c.off in s.lists[k] || c.off == b.off; }
    }
  }

  lemma PullFree(s: Seg, b: Blk)
    requires s.WF() && s.lo <= b.ord <= s.hi && s.Free(b)
    requires forall k :: 0 <= k < |s.lists| ==> NoDup(s.lists[k])
    ensures var t := Pull(s, b);
            && t.WF()
            && (forall c :: t.Free(c) <==> s.Free(c) && c != b)
            && (forall k :: 0 <= k < |t.lists| ==> NoDup(t.lists[k]))
  {
    WithoutIs(s.lists[b.ord - s.lo], b.off);
  }

  /** Take a free block out of its list. */
  function Take(s: Seg, b: Blk): (t: Seg)
    requires s.WF() && s.Free(b)
    ensures t.WF() && t.lo == s.lo && t.hi == s.hi && t.used == s.used && t.out == s.out + {b}
  { Pull(s, b).(out := s.out + {b}) }

  /** Halve a block that is out: keep the lower half, list the upper one. */
  function Halve(s: Seg, b: Blk): (t: Seg)
    requires s.WF() && s.lo < b.ord <= s.hi
    ensures t.WF() && t.lo == s.lo && t.hi == s.hi && t.used == s.used && t.out == s.out - {b} + {Lower(b)}
  { Push(s, Upper(b)).(out := s.out - {b} + {Lower(b)}) }

  /** Fuse a block that is out with its free buddy. */
  function Fuse(s: Seg, b: Blk): (t: Seg)
    requires s.WF() && s.lo <= b.ord <= s.hi
    ensures t.WF() && t.lo == s.lo && t.hi == s.hi && t.used == s.used && t.out == s.out - {b} + {Parent(b)}
  { Pull(s, Buddy(b)).(out := s.out - {b} + {Parent(b)}) }

  /** Put a block that is out back on its list. */
  function Put(s: Seg, b: Blk): (t: Seg)
    requires s.WF() && s.lo <= b.ord <= s.hi
    ensures t.WF() && t.lo == s.lo && t.hi == s.hi && t.used == s.used && t.out == s.out - {b}
  { Push(s, b).(out := s.out - {b}) }

  // ---- every move keeps the tiling -----------------------------------------------------------

  lemma BuddyFacts(b: Blk)
    requires Divides(Pow2(b.ord), b.off)
    ensures Buddy(b) != b && Buddy(Buddy(b)) == b && Disjoint(b, Buddy(b))
    ensures Parent(b) == Parent(Buddy(b)) && Within(b, Parent(b)) && Within(Buddy(b), Parent(b))
    ensures Divides(Pow2(b.ord + 1), Parent(b).off)
    ensures Divides(Pow2(b.ord), Buddy(b).off)
    ensures (Lower(Parent(b)) == b && Upper(Parent(b)) == Buddy(b)) || (Lower(Parent(b)) == Buddy(b) && Upper(Parent(b)) == b)
  {
    hide Divides;
    BuddyIsSibling(b.off, b.ord);
  }

  lemma HalfFacts(b: Blk)
    requires b.ord > 0 && Divides(Pow2(b.ord), b.off)
    ensures Divides(Pow2(b.ord - 1), b.off) && Divides(Pow2(b.ord - 1), Upper(b).off)
    ensures Buddy(Lower(b)) == Upper(b) && Buddy(Upper(b)) == Lower(b)
    ensures Within(Lower(b), b) && Within(Upper(b), b) && Lower(b).End() == Upper(b).off && Upper(b).End() == b.End()
  {
    hide Divides;
    DividesTrans(b.ord - 1, b.ord, b.off);
    SelfDivides(Pow2(b.ord - 1));
    DividesSum(Pow2(b.ord - 1), b.off, Pow2(b.ord - 1));
    BuddyIsSibling(b.off, b.ord - 1);
  }

  ghost predicate AnyHas(bs: set<Blk>, x: int) { exists b :: b in bs && b.Has(x) }

  /** Exchanging the tiles `gone` for `added`, which cover the same addresses, keeps a tiling. */
  lemma Retile(s: Seg, t: Seg, gone: set<Blk>, added: set<Blk>)
    requires s.WF() && t.WF() && s.lo == t.lo && s.hi == t.hi
    requires Placed(s) && Apart(s) && Full(s)
    requires forall c :: t.Tile(c) <==> (s.Tile(c) && c !in gone) || c in added
    requires forall n :: n in added ==> s.Range(n)
    requires forall n, m :: n in added && m in added && n != m ==> Disjoint(n, m)
    requires forall c, n :: s.Tile(c) && c !in gone && n in added ==> Disjoint(c, n)
    requires forall o, x :: o in gone && o.Has(x) ==> AnyHas(added, x)
    ensures Placed(t) && Apart(t) && Full(t)
  {
    hide Divides;
    forall x | 0 <= x < t.Cap() ensures t.Covers(x) {
      assert s.Covers(x);
      var c :| s.Tile(c) && c.Has(x);
      if c in gone {
        var n :| n in added && n.Has(x);
        assert t.Tile(n);
      } else {
        assert t.Tile(c);
      }
    }
  }

  lemma TakeKeeps(s: Seg, b: Blk)
    requires Shape(s) && s.Free(b)
    ensures Shape(Take(s, b))
    ensures forall c :: Take(s, b).Free(c) <==> s.Free(c) && c != b
  {
    hide Divides;
    PullFree(s, b);
    Retile(s, Take(s, b), {}, {});
  }

  lemma SiblingsBack(a: Blk, b: Blk)
    requires Divides(Pow2(a.ord), a.off) && Siblings(a, b)
    ensures a == Buddy(b)
  {
    hide Divides;
    BuddyFacts(a);
  }

  /** Listing one more block keeps the free lists canonical when its buddy is not free. */
  lemma StaysCanonical(s: Seg, t: Seg, b: Blk)
    requires s.WF() && t.WF() && Canonical(s) && Placed(s)
    requires forall c :: t.Free(c) <==> s.Free(c) || c == b
    requires Divides(Pow2(b.ord), b.off) && !s.Free(Buddy(b))
    ensures Canonical(t)
  {
    hide Divides;
    assert Buddy(b) != b by { BuddyFacts(b); }
    forall a, c | t.Free(a) && t.Free(c) ensures !Siblings(a, c) {
      if Siblings(a, c) {
        assert c == Buddy(a);
        if a != b {
          assert s.Tile(a) && s.Range(a);
          SiblingsBack(a, c);
        }
      }
    }
  }

  lemma HalveTiles(s: Seg, t: Seg, b: Blk)
    requires s.WF() && Placed(s) && Apart(s) && Full(s) && t.WF() && s.lo == t.lo && s.hi == t.hi
    requires s.Tile(b) && s.lo < b.ord
    requires forall c :: t.Tile(c) <==> (s.Tile(c) && c !in {b}) || c in {Lower(b), Upper(b)}
    ensures Placed(t) && Apart(t) && Full(t)
  {
    hide Divides, Seg.Tile;
    assert s.Range(b);
    HalfFacts(b);
    var l, u := Lower(b), Upper(b);
    forall o, x | o in {b} && o.Has(x) ensures AnyHas({l, u}, x) {
      assert (if x < u.off then l else u) in {l, u};
    }
    Retile(s, t, {b}, {l, u});
  }

  lemma HalveKeeps(s: Seg, b: Blk)
    requires Shape(s) && b in s.out && s.lo < b.ord
    ensures b.ord <= s.hi && Shape(Halve(s, b))
    ensures forall c :: Halve(s, b).Free(c) <==> s.Free(c) || c == Upper(b)
    ensures !s.Tile(Lower(b)) && !s.Tile(Upper(b))
  {
    hide Divides;
    assert s.Tile(b) && s.Range(b);
    HalfFacts(b);
    var t, l, u := Halve(s, b), Lower(b), Upper(b);
    assert !s.Tile(l) && !s.Tile(u) by { assert !Disjoint(l, b) && !Disjoint(u, b); }
    PushFree(s, u);
    HalveTiles(s, t, b);
    StaysCanonical(s, t, u);
  }

  /**
    A block of the top order fills the segment, so its "buddy" lies outside and is never found:
    merging stops at the top order although the merge loop has no test for it.
   */
  lemma FuseStaysInRange(s: Seg, b: Blk)
    requires s.WF() && s.Range(b) && s.Range(Buddy(b))
    ensures b.ord < s.hi && s.Range(Parent(b))
  {
    hide Divides;
    BuddyFacts(b);
  }

  lemma FuseTiles(s: Seg, t: Seg, b: Blk)
    requires Shape(s) && t.WF() && s.lo == t.lo && s.hi == t.hi
    requires s.Tile(b) && s.Tile(Buddy(b))
    requires forall c :: t.Tile(c) <==> (s.Tile(c) && c !in {b, Buddy(b)}) || c == Parent(b)
    ensures Placed(t) && Apart(t) && Full(t)
  {
    hide Divides;
    var d, p := Buddy(b), Parent(b);
    assert s.Range(b) && s.Range(d);
    FuseStaysInRange(s, b);
    BuddyFacts(b);
    forall o, x | o in {b, d} && o.Has(x) ensures AnyHas({p}, x) {
      assert p in {p};
    }
    forall c, n | s.Tile(c) && c !in {b, d} && n in {p} ensures Disjoint(c, n) {
      assert Disjoint(c, b) && Disjoint(c, d);
    }
    Retile(s, t, {b, d}, {p});
  }

  lemma FuseKeeps(s: Seg, b: Blk)
    requires Shape(s) && b in s.out && s.Free(Buddy(b))
    ensures s.lo <= b.ord < s.hi && Shape(Fuse(s, b))
    ensures forall c :: Fuse(s, b).Free(c) <==> s.Free(c) && c != Buddy(b)
  {
    hide Divides;
    var d, p := Buddy(b), Parent(b);
    assert s.Tile(b) && s.Tile(d) && s.Range(b) && s.Range(d);
    FuseStaysInRange(s, b);
    PullFree(s, d);
    assert !s.Tile(p) by { BuddyFacts(b); assert !Disjoint(p, b); }
    FuseTiles(s, Fuse(s, b), b);
  }

  lemma PutKeeps(s: Seg, b: Blk)
    requires Shape(s) && b in s.out && !s.Free(Buddy(b))
    ensures s.lo <= b.ord <= s.hi && Shape(Put(s, b))
    ensures forall c :: Put(s, b).Free(c) <==> s.Free(c) || c == b
  {
    hide Divides;
    assert s.Tile(b) && s.Range(b);
    PushFree(s, b);
    assert Placed(Put(s, b)) && Apart(Put(s, b)) && Full(Put(s, b)) by { Retile(s, Put(s, b), {}, {}); }
    StaysCanonical(s, Put(s, b), b);
  }
}
