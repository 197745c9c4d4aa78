/**
  Every tensor operation of the attention modules acts on each head (each index of dimension 1)
  separately, so that it commutes with taking one head out.
 */
module TensorHeads {
  import opened Positions
  import opened Tensors

  function Head<T>(t: Tensor<T>, h: nat): Tensor<T>
    requires t.WF() && h < t.d1
  {
    Slice1(t, h, h + 1)
  }

  lemma HeadAt<T>(t: Tensor<T>, h: nat, i: nat, k: nat, l: nat)
    requires t.WF() && t.Has(i, h, k, l)
    ensures Head(t, h).Has(i, 0, k, l) && At(Head(t, h), i, 0, k, l) == At(t, i, h, k, l)
  {
    hide At;
  }

  lemma HeadMap<T>(f: T -> T, t: Tensor<T>, h: nat)
    requires t.WF() && h < t.d1
    ensures Head(Map(f, t), h) == Map(f, Head(t, h))
  {
    hide At;
    Extensional(Head(Map(f, t), h), Map(f, Head(t, h)));
  }

  /** Stretching an operand that all heads share. */
  lemma HeadStretchShared<T>(b: Tensor<T>, a: Tensor<T>, h: nat)
    requires a.WF() && b.WF() && FitsOver(b, a) && b.d1 == 1 && h < a.d1
    ensures Head(Stretch(b, a), h) == Stretch(b, Head(a, h))
  {
    hide At;
    var s, t := Head(Stretch(b, a), h), Stretch(b, Head(a, h));
    forall i: nat, j: nat, k: nat, l: nat | s.Has(i, j, k, l) ensures At(s, i, j, k, l) == At(t, i, j, k, l) {
      HeadAt(Stretch(b, a), h, i, k, l);
      assert Pick(b.d1, j) == Pick(b.d1, h) == 0;
    }
    Extensional(s, t);
  }

  lemma HeadStretch<T>(b: Tensor<T>, a: Tensor<T>, h: nat)
    requires a.WF() && b.WF() && FitsOver(b, a) && b.d1 == a.d1 && h < a.d1
    ensures FitsOver(Head(b, h), Head(a, h)) && Head(Stretch(b, a), h) == Stretch(Head(b, h), Head(a, h))
  {
    hide At;
    var s, t := Head(Stretch(b, a), h), Stretch(Head(b, h), Head(a, h));
    forall i: nat, j: nat, k: nat, l: nat | s.Has(i, j, k, l) ensures At(s, i, j, k, l) == At(t, i, j, k, l) {
      HeadAt(Stretch(b, a), h, i, k, l);
      HeadAt(b, h, Pick(b.d0, i), Pick(b.d2, k), Pick(b.d3, l));
      assert j == 0 && Pick(b.d1, h) == h && Pick(1, j) == 0;
      assert At(t, i, j, k, l) == At(Head(b, h), Pick(b.d0, i), 0, Pick(b.d2, k), Pick(b.d3, l));
    }
    Extensional(s, t);
  }

  lemma HeadPointwise<T>(f: (T, T) -> T, a: Tensor<T>, b: Tensor<T>, h: nat)
    requires a.WF() && b.WF() && SameShape(a, b) && h < a.d1
    ensures Head(Pointwise(f, a, b), h) == Pointwise(f, Head(a, h), Head(b, h))
  {
    hide At;
    Extensional(Head(Pointwise(f, a, b), h), Pointwise(f, Head(a, h), Head(b, h)));
  }

  lemma HeadChoice<T>(f: (T, T, T) -> T, c: Tensor<T>, a: Tensor<T>, b: Tensor<T>, h: nat)
    requires a.WF() && b.WF() && c.WF() && SameShape(a, b) && SameShape(a, c) && h < a.d1
    ensures Head(Choice(f, c, a, b), h) == Choice(f, Head(c, h), Head(a, h), Head(b, h))
  {
    hide At;
    Extensional(Head(Choice(f, c, a, b), h), Choice(f, Head(c, h), Head(a, h), Head(b, h)));
  }

  /** An operand that is the same for all heads. */
  lemma HeadZipShared<T>(f: (T, T) -> T, a: Tensor<T>, b: Tensor<T>, h: nat)
    requires a.WF() && b.WF() && FitsOver(b, a) && b.d1 == 1 && h < a.d1
    ensures Head(Zip(f, a, b), h) == Zip(f, Head(a, h), b)
  {
    HeadStretchShared(b, a, h);
    HeadPointwise(f, a, Stretch(b, a), h);
  }

  lemma HeadWhere<T>(f: (T, T, T) -> T, c: Tensor<T>, a: Tensor<T>, b: Tensor<T>, h: nat)
    requires a.WF() && b.WF() && c.WF() && FitsOver(b, a) && FitsOver(c, a) && c.d1 == 1 && b.d1 == a.d1 && h < a.d1
    ensures FitsOver(Head(b, h), Head(a, h)) && Head(Where(f, c, a, b), h) == Where(f, c, Head(a, h), Head(b, h))
  {
    HeadStretchShared(c, a, h);
    HeadStretch(b, a, h);
    HeadChoice(f, Stretch(c, a), a, Stretch(b, a), h);
  }

  lemma HeadTranspose23<T>(t: Tensor<T>, h: nat)
    requires t.WF() && h < t.d1
    ensures Head(Transpose23(t), h) == Transpose23(Head(t, h))
  {
    hide At;
    Extensional(Head(Transpose23(t), h), Transpose23(Head(t, h)));
  }

  lemma HeadSlice3<T>(t: Tensor<T>, lo: nat, hi: nat, h: nat)
    requires t.WF() && h < t.d1 && lo <= hi <= t.d3
    ensures Head(Slice3(t, lo, hi), h) == Slice3(Head(t, h), lo, hi)
  {
    hide At;
    Extensional(Head(Slice3(t, lo, hi), h), Slice3(Head(t, h), lo, hi));
  }

  lemma HeadConcat2<T>(a: Tensor<T>, b: Tensor<T>, h: nat)
    requires a.WF() && b.WF() && a.d0 == b.d0 && a.d1 == b.d1 && a.d3 == b.d3 && h < a.d1
    ensures Head(Concat2(a, b), h) == Concat2(Head(a, h), Head(b, h))
  {
    hide At;
    Extensional(Head(Concat2(a, b), h), Concat2(Head(a, h), Head(b, h)));
  }

  lemma HeadConcat3<T>(a: Tensor<T>, b: Tensor<T>, h: nat)
    requires a.WF() && b.WF() && a.d0 == b.d0 && a.d1 == b.d1 && a.d2 == b.d2 && h < a.d1
    ensures Head(Concat3(a, b), h) == Concat3(Head(a, h), Head(b, h))
  {
    hide At;
    Extensional(Head(Concat3(a, b), h), Concat3(Head(a, h), Head(b, h)));
  }

  /** Head `h` of a tensor whose heads are each repeated `n` times in a row is head `h / n`. */
  lemma HeadRepeat1<T>(t: Tensor<T>, n: nat, h: nat)
    requires t.WF() && n > 0 && h < Times(t.d1, n)
    ensures Rest(h, n) < t.d1 && Head(Repeat1(t, n), h) == Head(t, Rest(h, n))
  {
    hide At, Rest, Times;
    DigitsJoin(h, t.d1, n);
    Extensional(Head(Repeat1(t, n), h), Head(t, Rest(h, n)));
  }

  lemma HeadRows<T>(t: Tensor<T>, h: nat, i: nat, k: nat)
    requires t.WF() && h < t.d1 && i < t.d0 && k < t.d2
    ensures Row(Head(t, h), i, 0, k) == Row(t, i, h, k)
  {
    hide At;
  }

  lemma HeadColumns<T>(t: Tensor<T>, h: nat, i: nat, l: nat)
    requires t.WF() && h < t.d1 && i < t.d0 && l < t.d3
    ensures Column(Head(t, h), i, 0, l) == Column(t, i, h, l)
  {
    hide At;
  }

  lemma HeadMatMul<T>(dot: (seq<T>, seq<T>) -> T, a: Tensor<T>, b: Tensor<T>, h: nat)
    requires a.WF() && b.WF() && a.d0 == b.d0 && a.d1 == b.d1 && a.d3 == b.d2 && h < a.d1
    ensures Head(MatMul(dot, a, b), h) == MatMul(dot, Head(a, h), Head(b, h))
  {
    hide At, Row, Column;
    forall i: nat, k: nat | i < a.d0 && k < a.d2 ensures Row(Head(a, h), i, 0, k) == Row(a, i, h, k) { HeadRows(a, h, i, k); }
    forall i: nat, l: nat | i < a.d0 && l < b.d3 ensures Column(Head(b, h), i, 0, l) == Column(b, i, h, l) { HeadColumns(b, h, i, l); }
    Extensional(Head(MatMul(dot, a, b), h), MatMul(dot, Head(a, h), Head(b, h)));
  }

  lemma HeadMapRows<T>(f: (seq<T>, nat) -> T, t: Tensor<T>, h: nat)
    requires t.WF() && h < t.d1
    ensures Head(MapRows(f, t), h) == MapRows(f, Head(t, h))
  {
    hide At, Row;
    forall i: nat, k: nat | i < t.d0 && k < t.d2 ensures Row(Head(t, h), i, 0, k) == Row(t, i, h, k) { HeadRows(t, h, i, k); }
    Extensional(Head(MapRows(f, t), h), MapRows(f, Head(t, h)));
  }

  lemma HeadReduceRows<T>(f: seq<T> -> T, t: Tensor<T>, h: nat)
    requires t.WF() && h < t.d1
    ensures Head(ReduceRows(f, t), h) == ReduceRows(f, Head(t, h))
  {
    hide At, Row;
    forall i: nat, k: nat | i < t.d0 && k < t.d2 ensures Row(Head(t, h), i, 0, k) == Row(t, i, h, k) { HeadRows(t, h, i, k); }
    Extensional(Head(ReduceRows(f, t), h), ReduceRows(f, Head(t, h)));
  }

  /** Concatenating all heads gives the tensor back. */
  lemma ConcatHeads<T>(t: Tensor<T>, hs: seq<Tensor<T>>)
    requires t.WF() && |hs| == t.d1 > 0
    requires forall h :: 0 <= h < |hs| ==> hs[h] == Head(t, h)
    ensures Slabs(hs) && Concat1(hs) == t
  {
    hide At;
    assert hs[0] == Head(t, 0);
    forall i: nat, j: nat, k: nat, l: nat | t.Has(i, j, k, l) ensures At(Concat1(hs), i, j, k, l) == At(t, i, j, k, l) {
      assert hs[j] == Head(t, j);
      HeadAt(t, j, i, k, l);
    }
    Extensional(Concat1(hs), t);
  }

  // ---- repeating by tiling -------------------------------------------------------------------------------

  /** The whole of dimension 1 repeated `n` times, one copy after another: the ahead-of-time lowering of `repeat`. */
  function Tile1<T>(t: Tensor<T>, n: nat): Tensor<T>
    requires t.WF() && t.d1 > 0 && n > 0
  {
    Build(t.d0, Times(t.d1, n), t.d2, t.d3, (i: nat, j: nat, k: nat, l: nat) requires i < t.d0 && j < Times(t.d1, n) && k < t.d2 && l < t.d3 =>
      At(t, i, Last(j, t.d1), k, l))
  }

  /** The entry that copy number `h` of tiling picks is the one that repeating in a row picks. */
  predicate SameKeyHead(h: nat, kvHeads: nat, groups: nat)
    requires kvHeads > 0 && groups > 0
  {
    Last(h, kvHeads) == Rest(h, groups)
  }

  lemma OneGroup(h: nat, kvHeads: nat)
    requires h < kvHeads
    ensures SameKeyHead(h, kvHeads, 1)
  {
    JoinDigits(0, kvHeads, h);
  }

  lemma OneKey(h: nat, groups: nat)
    requires h < groups
    ensures SameKeyHead(h, 1, groups)
  {
    JoinDigits(0, groups, h);
  }

  /** The second entries differ as soon as there are two entries and two copies. */
  lemma SecondDiffers(kvHeads: nat, groups: nat)
    requires kvHeads > 1 && groups > 1
    ensures 1 < Times(kvHeads, groups) && Last(1, kvHeads) == 1 && Rest(1, groups) == 0
  {
    MulLe(2, groups, kvHeads);
    assert Times(kvHeads, groups) == groups * kvHeads;
    JoinDigits(0, kvHeads, 1);
    JoinDigits(0, groups, 1);
  }

  /** With one copy, or one entry to copy, tiling is repeating in a row. */
  lemma TileAgrees<T>(t: Tensor<T>, n: nat)
    requires t.WF() && t.d1 > 0 && n > 0 && (n == 1 || t.d1 == 1)
    ensures Tile1(t, n) == Repeat1(t, n)
  {
    hide At, Rest, Last;
    forall j: nat | j < Times(t.d1, n) ensures SameKeyHead(j, t.d1, n) && Rest(j, n) < t.d1 {
      if n == 1 { OneGroup(j, t.d1); } else { OneKey(j, n); }
      DigitsJoin(j, t.d1, n);
    }
    Extensional(Tile1(t, n), Repeat1(t, n));
  }

  /** A tensor whose entries along dimension 1 are their own indices. */
  function Numbered(d0: nat, d1: nat, d2: nat, d3: nat): (t: Tensor<int>)
    ensures t.WF() && t.d0 == d0 && t.d1 == d1 && t.d2 == d2 && t.d3 == d3
    ensures forall i: nat, j: nat, k: nat, l: nat :: t.Has(i, j, k, l) ==> At(t, i, j, k, l) == j
  {
    Build(d0, d1, d2, d3, (i: nat, j: nat, k: nat, l: nat) => j)
  }

  /** Tiling is repeating in a row for all tensors exactly with one copy, or one entry to copy. */
  lemma TileIsRepeat(d1: nat, n: nat)
    requires d1 > 0 && n > 0
    ensures (forall t: Tensor<int> :: t.WF() && t.d1 == d1 ==> Tile1(t, n) == Repeat1(t, n)) <==> n == 1 || d1 == 1
  {
    if n > 1 && d1 > 1 {
      hide At;
      var t := Numbered(1, d1, 1, 1);
      SecondDiffers(d1, n);
      assert At(Tile1(t, n), 0, 1, 0, 0) == 1 && At(Repeat1(t, n), 0, 1, 0, 0) == 0;
    } else {
      forall t: Tensor<int> | t.WF() && t.d1 == d1 ensures Tile1(t, n) == Repeat1(t, n) { TileAgrees(t, n); }
    }
  }
}
