/**
  The whole pool as a value: its segments, the blocks held by callers, the object cache, and the
  regions the backing allocator will still grant.  Each public call is one step; the invariant
  `Valid` holds after every run.
 */
module BuddyPool {
  import opened Dyadic
  import opened BuddyTiling
  import opened BuddySegment
  import opened OrderedMap

  /** A block as its holder sees it: the segment (named by its base address) and the block. */
  datatype Handle = Handle(base: nat, blk: Blk) {
    function Ptr(): nat { base + blk.off }
  }

  /**
    `live` maps a storage's uuid to its block and `asked` to the byte count it asked for; `parked`
    is the object cache, keyed by block size; `grants` are the base addresses that the backing
    allocator will return, in turn, before it fails.
   */
  datatype Pool = Pool(minOrder: nat, cacheOn: bool, cacheSizes: set<nat>, segs: map<nat, Seg>,
                       live: map<nat, Handle>, asked: map<nat, nat>, parked: map<nat, seq<Handle>>,
                       hits: nat, stored: nat, grants: seq<nat>)

  // ---- regions -----------------------------------------------------------------------------------

  /** No segment is larger than 2^29 bytes, apart from the first. */
  const SEGMENT_LIMIT_ORDER: nat := 29

  type Regions = map<nat, nat>

  function RegionsOf(segs: map<nat, Seg>): Regions { map b | b in segs :: segs[b].hi }

  ghost predicate IsTop(r: Regions, b: nat) { b in r && forall c :: c in r ==> r[c] <= r[b] }

  lemma {:induction false} TopExists(r: Regions)
    requires r != map[]
    ensures exists b :: IsTop(r, b)
    decreases |r|
  {
    var a :| a in r;
    var rest := map c | c in r && c != a :: r[c];
    if rest == map[] {
      assert forall c :: c in r && c != a ==> c in rest;
      assert IsTop(r, a);
    } else {
      assert rest.Keys == r.Keys - {a};
      TopExists(rest);
      var b :| IsTop(rest, b);
      assert forall c :: c in r && c != a ==> c in rest;
      assert IsTop(r, if r[a] <= r[b] then b else a);
    }
  }

  ghost function TopOrder(r: Regions): (m: nat)
    requires r != map[]
    ensures forall c :: c in r ==> r[c] <= m
    ensures exists c :: c in r && r[c] == m
  {
    TopExists(r);
    var b :| IsTop(r, b);
    r[b]
  }

  /** The order of the next segment: double the largest so far, up to the limit. */
  ghost function NextOrder(r: Regions): nat requires r != map[] {
    if TopOrder(r) + 1 < SEGMENT_LIMIT_ORDER then TopOrder(r) + 1 else SEGMENT_LIMIT_ORDER
  }

  predicate RegionsApart(a: nat, i: nat, b: nat, j: nat) { a + Pow2(i) <= b || b + Pow2(j) <= a }

  /** Each region the backing allocator grants is disjoint from the segments existing by then. */
  ghost predicate Grantable(r: Regions, grants: seq<nat>)
    decreases |grants|
  {
    grants == [] ||
    (r != map[] && grants[0] !in r &&
     (forall a :: a in r ==> RegionsApart(a, r[a], grants[0], NextOrder(r))) &&
     Grantable(r[grants[0] := NextOrder(r)], grants[1..]))
  }

  // ---- the invariant -----------------------------------------------------------------------------

  type Segs = map<nat, Seg>
  type Live = map<nat, Handle>
  type Parked = map<nat, seq<Handle>>

  predicate IsOut(segs: Segs, h: Handle) { h.base in segs && h.blk in segs[h.base].out }

  predicate IsParked(parked: Parked, h: Handle) { h.blk.Size() in parked && h in parked[h.blk.Size()] }

  ghost predicate IsLive(live: Live, h: Handle) { exists u :: u in live && live[u] == h }

  ghost predicate SegsOk(segs: Segs, minOrder: nat) {
    && segs != map[]
    && (forall b :: b in segs ==> Sound(segs[b]) && segs[b].lo == minOrder)
    && (forall a, b :: a in segs && b in segs && a != b ==> RegionsApart(a, segs[a].hi, b, segs[b].hi))
    && minOrder <= SEGMENT_LIMIT_ORDER
  }

  ghost predicate SegmentsOk(p: Pool) {
    SegsOk(p.segs, p.minOrder) && Grantable(RegionsOf(p.segs), p.grants)
  }

  /** Every block that is out has exactly one holder, except the blocks in `loose`, which have none. */
  ghost predicate Held(segs: Segs, live: Live, parked: Parked, loose: set<Handle>) {
    && (forall u :: u in live ==> IsOut(segs, live[u]) && live[u] !in loose && !IsParked(parked, live[u]))
    && (forall u, v :: u in live && v in live && u != v ==> live[u] != live[v])
    && (forall z :: z in parked ==> NoDup(parked[z]))
    && (forall z, h :: z in parked && h in parked[z] ==> IsOut(segs, h) && h !in loose && h.blk.Size() == z)
    && (forall h :: h in loose ==> IsOut(segs, h))
    && (forall h :: IsOut(segs, h) ==> h in loose || IsParked(parked, h) || IsLive(live, h))
  }

  /** Every live block is at least as large as its storage asked for. */
  ghost predicate Ample(live: Live, asked: map<nat, nat>) {
    asked.Keys == live.Keys && forall u :: u in live ==> asked[u] <= live[u].blk.Size()
  }

  ghost predicate Owned(p: Pool, loose: set<Handle>) {
    Held(p.segs, p.live, p.parked, loose) && Ample(p.live, p.asked)
  }

  ghost predicate Valid(p: Pool) { SegmentsOk(p) && Owned(p, {}) }

  // ---- allocation from the buddy segments --------------------------------------------------------

  function Max(a: nat, b: nat): nat { if a < b then b else a }

  /** The order of block a request needs: its size rounded up to a power of two, at least the minimum. */
  function Need(minOrder: nat, size: nat): (k: nat)
    ensures minOrder <= k
    ensures Max(size, Pow2(minOrder)) <= Pow2(k) < 2 * Max(size, Pow2(minOrder))
  {
    CeilLog2Exact(minOrder);
    CeilLog2Monotone(Pow2(minOrder), Max(size, Pow2(minOrder)));
    CeilLog2(Max(size, Pow2(minOrder)))
  }

  predicate Fits(s: Seg, size: nat)
    requires s.WF()
  {
    var need := Need(s.lo, size);
    need <= s.hi && FitOrder(s, need) <= s.hi
  }

  /** The position of the first segment that can serve the request; `|keys|` when none can. */
  function FirstFit(segs: map<nat, Seg>, keys: seq<nat>, size: nat): (i: nat)
    requires forall k :: k in keys ==> k in segs && segs[k].WF()
    ensures i <= |keys|
    ensures i < |keys| ==> Fits(segs[keys[i]], size)
    ensures forall j :: 0 <= j < i ==> !Fits(segs[keys[j]], size)
  {
    if keys == [] then 0
    else if Fits(segs[keys[0]], size) then 0
    else
      assert forall k :: k in keys[1..] ==> k in keys;
      1 + FirstFit(segs, keys[1..], size)
  }

  function NewSegment(lo: nat, hi: nat): (s: Seg)
    requires lo <= hi
    ensures s.WF() && s.lo == lo && s.hi == hi && s.out == {}
  {
    Seg(lo, hi, 0, seq(hi - lo + 1, k => if k == hi - lo then [0] else []), {})
  }

  ghost function Expand(p: Pool): (q: Pool)
    requires SegmentsOk(p) && p.grants != []
  {
    TopAtLeastMin(p);
    p.(segs := p.segs[p.grants[0] := NewSegment(p.minOrder, NextOrder(RegionsOf(p.segs)))], grants := p.grants[1..])
  }

  lemma TopAtLeastMin(p: Pool)
    requires SegmentsOk(p)
    ensures RegionsOf(p.segs) != map[] && p.minOrder <= NextOrder(RegionsOf(p.segs))
  {
    var r := RegionsOf(p.segs);
    var a :| a in p.segs;
    assert a in r && p.segs[a].WF();
  }

  datatype Grab = Got(pool: Pool, handle: Handle) | Exhausted

  ghost function GrabFrom(p: Pool, base: nat, size: nat): Grab
    requires SegmentsOk(p) && base in p.segs && Fits(p.segs[base], size)
  {
    var s := p.segs[base];
    var need := Need(s.lo, size);
    Got(p.(segs := p.segs[base := AllocFrom(s, need)]), Handle(base, Pick(s, need)))
  }

  ghost function AllocBuddy(p: Pool, size: nat): Grab
    requires SegmentsOk(p)
    decreases |p.grants|
  {
    var keys := SortedKeys(p.segs.Keys);
    var i := FirstFit(p.segs, keys, size);
    if i < |keys| then GrabFrom(p, keys[i], size)
    else if p.grants == [] then Exhausted
    else
      ExpandOk(p);
      AllocBuddy(Expand(p), size)
  }

  ghost function ReleaseBlock(p: Pool, h: Handle): Pool
    requires SegmentsOk(p) && IsOut(p.segs, h)
  {
    p.(segs := p.segs[h.base := Release(p.segs[h.base], h.blk)])
  }

  /** Replacing one segment by a sound one over the same region. */
  lemma UpdateSegment(p: Pool, base: nat, t: Seg)
    requires SegmentsOk(p) && base in p.segs
    requires Sound(t) && t.lo == p.segs[base].lo && t.hi == p.segs[base].hi
    ensures SegmentsOk(p.(segs := p.segs[base := t]))
    ensures RegionsOf(p.segs[base := t]) == RegionsOf(p.segs)
  {
    hide Sound;
    var q := p.(segs := p.segs[base := t]);
    assert RegionsOf(q.segs) == RegionsOf(p.segs);
    forall b | b in q.segs ensures Sound(q.segs[b]) && q.segs[b].lo == q.minOrder {
      if b != base { assert q.segs[b] == p.segs[b]; }
    }
  }

  lemma NewSegmentSound(lo: nat, hi: nat)
    requires lo <= hi
    ensures Sound(NewSegment(lo, hi))
  {
    var s, w := NewSegment(lo, hi), Blk(0, hi);
    SelfDivides(Pow2(hi));
    assert forall b :: s.Free(b) <==> b == w;
    assert forall b :: s.Tile(b) <==> b == w;
    forall x | 0 <= x < s.Cap() ensures s.Covers(x) { assert s.Tile(w) && w.Has(x); }
    assert Canonical(s) by { BuddyFacts(w); }
    NewSegmentBytes(hi - lo + 1, lo);
  }

  /** A fresh segment serves every request whose order does not exceed its own. */
  lemma NewSegmentFits(lo: nat, hi: nat, size: nat)
    requires lo <= hi && Need(lo, size) <= hi
    ensures Fits(NewSegment(lo, hi), size)
  {
    assert NewSegment(lo, hi).lists[hi - lo] == [0];
  }

  lemma {:induction false} NewSegmentBytes(n: nat, lo: nat)
    requires n > 0
    ensures FreeBytes(seq(n, k => if k == n - 1 then [0] else []), lo) == Pow2(lo + n - 1)
  {
    var l: seq<seq<nat>> := seq(n, k => if k == n - 1 then [0] else []);
    if n == 1 {
      assert l == [[0]] && l[1..] == [];
    } else {
      var m: seq<seq<nat>> := seq(n - 1, k => if k == n - 2 then [0] else []);
      assert l[1..] == m;
      assert |l[0]| * Pow2(lo) == 0;
      NewSegmentBytes(n - 1, lo + 1);
    }
  }

  lemma ExpandOk(p: Pool)
    requires SegmentsOk(p) && p.grants != []
    ensures SegmentsOk(Expand(p))
    ensures forall h :: IsOut(Expand(p).segs, h) <==> IsOut(p.segs, h)
  {
    TopAtLeastMin(p);
    var r, b := RegionsOf(p.segs), p.grants[0];
    var n := NextOrder(r);
    NewSegmentSound(p.minOrder, n);
    AddSegment(p, b, n, NewSegment(p.minOrder, n));
  }

  lemma AddSegment(p: Pool, b: nat, n: nat, s: Seg)
    requires SegmentsOk(p) && p.grants != [] && b == p.grants[0]
    requires RegionsOf(p.segs) != map[] && n == NextOrder(RegionsOf(p.segs))
    requires Sound(s) && s.lo == p.minOrder && s.hi == n && s.out == {}
    ensures var q := p.(segs := p.segs[b := s], grants := p.grants[1..]);
            SegmentsOk(q) && forall h :: IsOut(q.segs, h) <==> IsOut(p.segs, h)
  {
    hide Sound, NextOrder, RegionsApart;
    var r, q := RegionsOf(p.segs), p.(segs := p.segs[b := s], grants := p.grants[1..]);
    assert RegionsOf(q.segs) == r[b := n];
    forall a | a in p.segs ensures RegionsApart(a, p.segs[a].hi, b, n) { assert a in r; }
    forall a | a in p.segs ensures RegionsApart(b, n, a, p.segs[a].hi) { ApartFlip(a, p.segs[a].hi, b, n); }
  }

  lemma ApartFlip(a: nat, i: nat, b: nat, j: nat)
    requires RegionsApart(a, i, b, j)
    ensures RegionsApart(b, j, a, i)
  {}
}
