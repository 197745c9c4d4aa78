/**
  What the row statements about the two caches say of single elements: of the tensors that both caches and
  their inputs are, at the index that each element has there.
 */
module KvLayout {
  import opened Positions
  import opened KvRows
  import opened HkvReorder
  import opened Addressing

  /** The element of a contiguous tensor at an index. */
  function Element<T>(s: seq<T>, shape: seq<nat>, index: seq<nat>): T
    requires |s| == Numel(shape) && InBounds(shape, index)
  {
    OffsetBelowNumel(shape, index);
    s[OffsetOf(Strides(shape), index)]
  }

  /** Offsets in a tensor of four dimensions, the first of size one. */
  lemma FourDimensions(a: nat, b: nat, c: nat, i: nat, j: nat, k: nat)
    ensures Numel([1, a, b, c]) == Times(Times(a, b), c)
    ensures OffsetOf(Strides([1, a, b, c]), [0, i, j, k]) == Join(Join(i, b, j), c, k)
  {
    assert [1, a, b, c][1..] == [a, b, c] && [a, b, c][1..] == [b, c] && [b, c][1..] == [c] && [c][1..] == [];
    assert [0, i, j, k][1..] == [i, j, k] && [i, j, k][1..] == [j, k] && [j, k][1..] == [k] && [k][1..] == [];
    OneDimension(c, k);
    NumelOfOne(c);
    assert Numel([b, c]) == Times(b, c) && Numel([a, b, c]) == Times(a, Times(b, c));
    assert OffsetOf(Strides([b, c]), [j, k]) == Times(j, c) + k;
    assert OffsetOf(Strides([a, b, c]), [i, j, k]) == Times(i, Times(b, c)) + (Times(j, c) + k);
    Folded(a, b, c, i, j, k);
  }

  lemma Folded(a: nat, b: nat, c: nat, i: nat, j: nat, k: nat)
    ensures Times(a, Times(b, c)) == Times(Times(a, b), c) && Times(1, Times(a, Times(b, c))) == Times(a, Times(b, c))
    ensures Times(0, Times(a, Times(b, c))) == 0
    ensures Times(i, Times(b, c)) + (Times(j, c) + k) == Join(Join(i, b, j), c, k)
  {
    Regroup(a, b, c);
    Regroup(i, b, c);
    Distribute(Times(i, b), j, c);
  }

  /** An element of a row is the element of the tensor whose rows these are. */
  lemma RowElement<T>(s: seq<T>, a: nat, b: nat, c: nat, i: nat, j: nat, k: nat)
    requires |s| == Times(Times(a, b), c) && i < a && j < b && k < c
    ensures |s| == Numel([1, a, b, c]) && InBounds([1, a, b, c], [0, i, j, k])
    ensures Times(Join(i, b, j) + 1, c) <= |s|
    ensures RowAt(s, c, Join(i, b, j))[k] == Element(s, [1, a, b, c], [0, i, j, k])
  {
    hide Numel, OffsetOf, Strides;
    FourDimensions(a, b, c, i, j, k);
    JoinBelow(i, a, b, j);
    RowsBelow(Join(i, b, j), Times(a, b), c);
    NextRow(Join(i, b, j), c);
  }

  /** The tensors of the repeated cache and its input, and of the plain cache and its input. */
  function RepeatedShape(d: Dims): seq<nat> { [1, d.qHeads, d.length, d.dim] }
  function HeadInputShape(d: Dims, n: nat): seq<nat> { [1, d.kvHeads, n, d.dim] }
  function PlainShape(d: Dims): seq<nat> { [1, d.length, d.kvHeads, d.dim] }
  function PositionInputShape(d: Dims, n: nat): seq<nat> { [1, n, d.kvHeads, d.dim] }

  lemma RepeatedElement<T>(d: Dims, s: seq<T>, q: nat, p: nat, e: nat)
    requires RepeatedOk(d, s) && q < d.qHeads && p < d.length && e < d.dim
    ensures |s| == Numel(RepeatedShape(d)) && InBounds(RepeatedShape(d), [0, q, p, e])
    ensures RepeatedRow(d, s, q, p)[e] == Element(s, RepeatedShape(d), [0, q, p, e])
  {
    hide RowAt, Element, Join, Times, Numel;
    RowElement(s, d.qHeads, d.length, d.dim, q, p, e);
  }

  lemma PlainElement<T>(d: Dims, s: seq<T>, p: nat, h: nat, e: nat)
    requires PlainOk(d, s) && h < d.kvHeads && p < d.length && e < d.dim
    ensures |s| == Numel(PlainShape(d)) && InBounds(PlainShape(d), [0, p, h, e])
    ensures PlainRow(d, s, p, h)[e] == Element(s, PlainShape(d), [0, p, h, e])
  {
    hide RowAt, Element, Join, Times, Numel;
    RowElement(s, d.length, d.kvHeads, d.dim, p, h, e);
  }

  lemma HeadInputElement<T>(d: Dims, s: seq<T>, n: nat, h: nat, i: nat, e: nat)
    requires HeadInput(d, s, n) && h < d.kvHeads && i < n && e < d.dim
    ensures |s| == Numel(HeadInputShape(d, n)) && InBounds(HeadInputShape(d, n), [0, h, i, e])
    ensures HeadInputRow(d, s, n, h, i)[e] == Element(s, HeadInputShape(d, n), [0, h, i, e])
  {
    hide RowAt, Element, Join, Times, Numel;
    RowElement(s, d.kvHeads, n, d.dim, h, i, e);
  }

  lemma PositionInputElement<T>(d: Dims, s: seq<T>, n: nat, i: nat, h: nat, e: nat)
    requires PositionInput(d, s, n) && h < d.kvHeads && i < n && e < d.dim
    ensures |s| == Numel(PositionInputShape(d, n)) && InBounds(PositionInputShape(d, n), [0, i, h, e])
    ensures PositionInputRow(d, s, n, i, h)[e] == Element(s, PositionInputShape(d, n), [0, i, h, e])
  {
    hide RowAt, Element, Join, Times, Numel;
    RowElement(s, n, d.kvHeads, d.dim, i, h, e);
  }

  lemma SharedHead(d: Dims, q: nat)
    requires d.Valid() && q < d.qHeads
    ensures d.qHeads / d.kvHeads > 0 && q / (d.qHeads / d.kvHeads) == KvHead(d, q) < d.kvHeads
  {
    assert d.qHeads == Times(d.kvHeads, d.Repeat());
    DigitsJoin(q, d.kvHeads, d.Repeat());
  }

  /** The last of the positions that is `p`. */
  predicate LastAt(pos: seq<nat>, p: nat, i: nat) { i < |pos| && pos[i] == p && forall j :: i < j < |pos| ==> pos[j] != p }

  lemma LastIs(pos: seq<nat>, p: nat)
    ensures LastIndex(pos, p) >= 0 <==> p in pos
    ensures forall i: nat :: LastAt(pos, p, i) ==> LastIndex(pos, p) == i
  {
    LastIndexIn(pos, p);
  }

  /**
    Element `e` of query head `q` at position `p` after writing new rows to some positions: that of key head
    `q / (qHeads / kvHeads)` in the last row written there, and unchanged where nothing was written.
   */
  lemma WrittenRepeatedMeans<T>(d: Dims, s: seq<T>, t: seq<T>, input: seq<T>, pos: seq<nat>, q: nat, p: nat, e: nat)
    requires RepeatedOk(d, s) && HeadInput(d, input, |pos|) && WrittenRepeated(d, s, t, input, pos)
    requires q < d.qHeads && p < d.length && e < d.dim
    ensures d.qHeads / d.kvHeads > 0 && InBounds(RepeatedShape(d), [0, q, p, e]) && |s| == |t| == Numel(RepeatedShape(d))
    ensures p !in pos ==> Element(t, RepeatedShape(d), [0, q, p, e]) == Element(s, RepeatedShape(d), [0, q, p, e])
    ensures forall i: nat :: LastAt(pos, p, i) ==>
              var h := q / (d.qHeads / d.kvHeads);
              && |input| == Numel(HeadInputShape(d, |pos|)) && InBounds(HeadInputShape(d, |pos|), [0, h, i, e])
              && Element(t, RepeatedShape(d), [0, q, p, e]) == Element(input, HeadInputShape(d, |pos|), [0, h, i, e])
  {
    hide RepeatedRow, HeadInputRow, Element, Numel, InBounds, KvHead, LastIndex, RepeatedShape, HeadInputShape;
    RepeatedElement(d, s, q, p, e);
    RepeatedElement(d, t, q, p, e);
    SharedHead(d, q);
    LastIs(pos, p);
    if LastIndex(pos, p) >= 0 {
      HeadInputElement(d, input, |pos|, KvHead(d, q), LastIndex(pos, p), e);
    }
  }

  /** The same for the plain cache, which holds each key head once and positions first. */
  lemma WrittenPlainMeans<T>(d: Dims, s: seq<T>, t: seq<T>, input: seq<T>, pos: seq<nat>, p: nat, h: nat, e: nat)
    requires PlainOk(d, s) && PositionInput(d, input, |pos|) && WrittenPlain(d, s, t, input, pos)
    requires h < d.kvHeads && p < d.length && e < d.dim
    ensures InBounds(PlainShape(d), [0, p, h, e]) && |s| == |t| == Numel(PlainShape(d))
    ensures p !in pos ==> Element(t, PlainShape(d), [0, p, h, e]) == Element(s, PlainShape(d), [0, p, h, e])
    ensures forall i: nat :: LastAt(pos, p, i) ==>
              && |input| == Numel(PositionInputShape(d, |pos|)) && InBounds(PositionInputShape(d, |pos|), [0, i, h, e])
              && Element(t, PlainShape(d), [0, p, h, e]) == Element(input, PositionInputShape(d, |pos|), [0, i, h, e])
  {
    hide PlainRow, PositionInputRow, Element, Numel, InBounds, LastIndex, PlainShape, PositionInputShape;
    PlainElement(d, s, p, h, e);
    PlainElement(d, t, p, h, e);
    LastIs(pos, p);
    if LastIndex(pos, p) >= 0 {
      PositionInputElement(d, input, |pos|, LastIndex(pos, p), h, e);
    }
  }

  /** Two caches that agree on a position hold the same elements there, each at its own index. */
  lemma AgreeMeans<T>(d: Dims, s: seq<T>, u: seq<T>, w: set<nat>, q: nat, p: nat, e: nat)
    requires RepeatedOk(d, s) && PlainOk(d, u) && Agree(d, s, u, w) && p in w
    requires q < d.qHeads && p < d.length && e < d.dim
    ensures d.qHeads / d.kvHeads > 0
    ensures |s| == Numel(RepeatedShape(d)) && InBounds(RepeatedShape(d), [0, q, p, e])
    ensures var h := q / (d.qHeads / d.kvHeads);
            && |u| == Numel(PlainShape(d)) && InBounds(PlainShape(d), [0, p, h, e])
            && Element(s, RepeatedShape(d), [0, q, p, e]) == Element(u, PlainShape(d), [0, p, h, e])
  {
    hide RepeatedRow, PlainRow, Element, Numel, InBounds, KvHead, RepeatedShape, PlainShape;
    SharedHead(d, q);
    RepeatedElement(d, s, q, p, e);
    PlainElement(d, u, p, KvHead(d, q), e);
  }

  /** After compaction the elements of position `p` of a head are those of the position that is `p`-th in the order. */
  lemma CompactedMeans<T>(d: Dims, s: seq<T>, t: seq<T>, order: seq<nat>, q: nat, p: nat, e: nat)
    requires RepeatedOk(d, s) && PositionsOk(d, order) && Compacted(d, s, t, order)
    requires q < d.qHeads && p < d.length && e < d.dim
    ensures var from := if p < |order| then order[p] else p;
            && |s| == |t| == Numel(RepeatedShape(d)) && InBounds(RepeatedShape(d), [0, q, p, e]) && InBounds(RepeatedShape(d), [0, q, from, e])
            && Element(t, RepeatedShape(d), [0, q, p, e]) == Element(s, RepeatedShape(d), [0, q, from, e])
  {
    hide RepeatedRow, Element, Numel, InBounds, RepeatedShape;
    RepeatedElement(d, t, q, p, e);
    RepeatedElement(d, s, q, if p < |order| then order[p] else p, e);
  }
}
