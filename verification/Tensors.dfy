/**
  Four-dimensional tensors stored flat in row-major order, and the tensor operations that the
  attention modules use.  Scalars are abstract.
 */
module Tensors {
  import opened Positions

  datatype Tensor<T> = Tensor(d0: nat, d1: nat, d2: nat, d3: nat, data: seq<T>) {
    predicate WF() { |data| == Volume(d0, d1, d2, d3) }
    predicate Has(i: nat, j: nat, k: nat, l: nat) { i < d0 && j < d1 && k < d2 && l < d3 }
    function Numel(): nat { |data| }
  }

  predicate SameShape<T, U>(a: Tensor<T>, b: Tensor<U>) { a.d0 == b.d0 && a.d1 == b.d1 && a.d2 == b.d2 && a.d3 == b.d3 }

  function At<T>(t: Tensor<T>, i: nat, j: nat, k: nat, l: nat): T
    requires t.WF() && t.Has(i, j, k, l)
  {
    OffsetBelow(t.d0, t.d1, t.d2, t.d3, i, j, k, l);
    t.data[Offset(t.d1, t.d2, t.d3, i, j, k, l)]
  }

  ghost predicate Covers<T>(d0: nat, d1: nat, d2: nat, d3: nat, f: (nat, nat, nat, nat) --> T) {
    forall i: nat, j: nat, k: nat, l: nat :: i < d0 && j < d1 && k < d2 && l < d3 ==> f.requires(i, j, k, l)
  }

  function Laid<T>(d0: nat, d1: nat, d2: nat, d3: nat, f: (nat, nat, nat, nat) --> T): (t: Tensor<T>)
    requires Covers(d0, d1, d2, d3, f)
    ensures t.WF() && t.d0 == d0 && t.d1 == d1 && t.d2 == d2 && t.d3 == d3
  {
    Tensor(d0, d1, d2, d3, seq(Volume(d0, d1, d2, d3), n requires 0 <= n < Volume(d0, d1, d2, d3) =>
      PositionOffset(d0, d1, d2, d3, n);
      var p := PositionOf(d1, d2, d3, n);
      f(p.i, p.j, p.k, p.l)))
  }

  lemma LaidAt<T>(d0: nat, d1: nat, d2: nat, d3: nat, f: (nat, nat, nat, nat) --> T, i: nat, j: nat, k: nat, l: nat)
    requires Covers(d0, d1, d2, d3, f) && i < d0 && j < d1 && k < d2 && l < d3
    ensures At(Laid(d0, d1, d2, d3, f), i, j, k, l) == f(i, j, k, l)
  {
    hide Offset, Volume, PositionOf;
    OffsetBelow(d0, d1, d2, d3, i, j, k, l);
    OffsetPosition(d1, d2, d3, i, j, k, l);
  }

  /** The tensor of the given shape whose element at each position is given by `f`. */
  function Build<T>(d0: nat, d1: nat, d2: nat, d3: nat, f: (nat, nat, nat, nat) --> T): (t: Tensor<T>)
    requires Covers(d0, d1, d2, d3, f)
    ensures t.WF() && t.d0 == d0 && t.d1 == d1 && t.d2 == d2 && t.d3 == d3
    ensures forall i: nat, j: nat, k: nat, l: nat :: t.Has(i, j, k, l) ==> At(t, i, j, k, l) == f(i, j, k, l)
  {
    assert forall i: nat, j: nat, k: nat, l: nat ::
        i < d0 && j < d1 && k < d2 && l < d3 ==> At(Laid(d0, d1, d2, d3, f), i, j, k, l) == f(i, j, k, l) by {
      hide Laid, At, Covers;
      forall i: nat, j: nat, k: nat, l: nat | i < d0 && j < d1 && k < d2 && l < d3
        ensures At(Laid(d0, d1, d2, d3, f), i, j, k, l) == f(i, j, k, l)
      {
        LaidAt(d0, d1, d2, d3, f, i, j, k, l);
      }
    }
    Laid(d0, d1, d2, d3, f)
  }

  /** Two tensors of one shape with the same elements are the same tensor. */
  lemma Extensional<T>(a: Tensor<T>, b: Tensor<T>)
    requires a.WF() && b.WF() && SameShape(a, b)
    requires forall i: nat, j: nat, k: nat, l: nat :: a.Has(i, j, k, l) ==> At(a, i, j, k, l) == At(b, i, j, k, l)
    ensures a == b
  {
    hide Offset, Volume, PositionOf;
    forall n | 0 <= n < |a.data| ensures a.data[n] == b.data[n] {
      PositionOffset(a.d0, a.d1, a.d2, a.d3, n);
      var p := PositionOf(a.d1, a.d2, a.d3, n);
      assert a.Has(p.i, p.j, p.k, p.l);
      assert At(a, p.i, p.j, p.k, p.l) == At(b, p.i, p.j, p.k, p.l);
    }
  }

  // ---- operations --------------------------------------------------------------------------------

  function Map<T>(f: T -> T, t: Tensor<T>): Tensor<T>
    requires t.WF()
  {
    Build(t.d0, t.d1, t.d2, t.d3, (i: nat, j: nat, k: nat, l: nat) requires t.Has(i, j, k, l) => f(At(t, i, j, k, l)))
  }

  /** Sizes along one dimension that broadcast: equal, or one. */
  predicate Broadcasts(b: nat, d: nat) { b == d || b == 1 }

  predicate FitsOver<T>(b: Tensor<T>, a: Tensor<T>) {
    Broadcasts(b.d0, a.d0) && Broadcasts(b.d1, a.d1) && Broadcasts(b.d2, a.d2) && Broadcasts(b.d3, a.d3)
  }

  function Pick(b: nat, i: nat): nat { if b == 1 then 0 else i }

  /** `b` stretched over the shape of `a`. */
  function Stretch<T>(b: Tensor<T>, a: Tensor<T>): (t: Tensor<T>)
    requires b.WF() && FitsOver(b, a)
  {
    Build(a.d0, a.d1, a.d2, a.d3, (i: nat, j: nat, k: nat, l: nat) requires a.Has(i, j, k, l) =>
      At(b, Pick(b.d0, i), Pick(b.d1, j), Pick(b.d2, k), Pick(b.d3, l)))
  }

  function Pointwise<T>(f: (T, T) -> T, a: Tensor<T>, b: Tensor<T>): Tensor<T>
    requires a.WF() && b.WF() && SameShape(a, b)
  {
    Build(a.d0, a.d1, a.d2, a.d3, (i: nat, j: nat, k: nat, l: nat) requires a.Has(i, j, k, l) =>
      f(At(a, i, j, k, l), At(b, i, j, k, l)))
  }

  function Zip<T>(f: (T, T) -> T, a: Tensor<T>, b: Tensor<T>): Tensor<T>
    requires a.WF() && b.WF() && FitsOver(b, a)
  {
    Pointwise(f, a, Stretch(b, a))
  }

  function Choice<T>(f: (T, T, T) -> T, c: Tensor<T>, a: Tensor<T>, b: Tensor<T>): Tensor<T>
    requires a.WF() && b.WF() && c.WF() && SameShape(a, b) && SameShape(a, c)
  {
    Build(a.d0, a.d1, a.d2, a.d3, (i: nat, j: nat, k: nat, l: nat) requires a.Has(i, j, k, l) =>
      f(At(c, i, j, k, l), At(a, i, j, k, l), At(b, i, j, k, l)))
  }

  /** Pointwise choice between `a` and `b`, steered by `c`. */
  function Where<T>(f: (T, T, T) -> T, c: Tensor<T>, a: Tensor<T>, b: Tensor<T>): Tensor<T>
    requires a.WF() && b.WF() && c.WF() && FitsOver(b, a) && FitsOver(c, a)
  {
    Choice(f, Stretch(c, a), a, Stretch(b, a))
  }

  function Transpose12<T>(t: Tensor<T>): Tensor<T>
    requires t.WF()
  {
    Build(t.d0, t.d2, t.d1, t.d3, (i: nat, j: nat, k: nat, l: nat) requires t.Has(i, k, j, l) => At(t, i, k, j, l))
  }

  function Transpose23<T>(t: Tensor<T>): Tensor<T>
    requires t.WF()
  {
    Build(t.d0, t.d1, t.d3, t.d2, (i: nat, j: nat, k: nat, l: nat) requires t.Has(i, j, l, k) => At(t, i, j, l, k))
  }

  /** The part `[lo, hi)` along dimension 1. */
  function Slice1<T>(t: Tensor<T>, lo: nat, hi: nat): Tensor<T>
    requires t.WF() && lo <= hi <= t.d1
  {
    Build(t.d0, hi - lo, t.d2, t.d3, (i: nat, j: nat, k: nat, l: nat) requires t.Has(i, lo + j, k, l) => At(t, i, lo + j, k, l))
  }

  /** The part `[lo, hi)` along dimension 3. */
  function Slice3<T>(t: Tensor<T>, lo: nat, hi: nat): Tensor<T>
    requires t.WF() && lo <= hi <= t.d3
  {
    Build(t.d0, t.d1, t.d2, hi - lo, (i: nat, j: nat, k: nat, l: nat) requires t.Has(i, j, k, lo + l) => At(t, i, j, k, lo + l))
  }

  function Concat2<T>(a: Tensor<T>, b: Tensor<T>): Tensor<T>
    requires a.WF() && b.WF() && a.d0 == b.d0 && a.d1 == b.d1 && a.d3 == b.d3
  {
    Build(a.d0, a.d1, a.d2 + b.d2, a.d3, (i: nat, j: nat, k: nat, l: nat) requires i < a.d0 && j < a.d1 && k < a.d2 + b.d2 && l < a.d3 =>
      if k < a.d2 then At(a, i, j, k, l) else At(b, i, j, k - a.d2, l))
  }

  function Concat3<T>(a: Tensor<T>, b: Tensor<T>): Tensor<T>
    requires a.WF() && b.WF() && a.d0 == b.d0 && a.d1 == b.d1 && a.d2 == b.d2
  {
    Build(a.d0, a.d1, a.d2, a.d3 + b.d3, (i: nat, j: nat, k: nat, l: nat) requires i < a.d0 && j < a.d1 && k < a.d2 && l < a.d3 + b.d3 =>
      if l < a.d3 then At(a, i, j, k, l) else At(b, i, j, k, l - a.d3))
  }

  /** Tensors of one shape that are one wide along dimension 1. */
  ghost predicate Slabs<T>(ts: seq<Tensor<T>>) {
    ts != [] && forall n :: 0 <= n < |ts| ==> ts[n].WF() && ts[n].d1 == 1 && SameShape(ts[n], ts[0])
  }

  /** Concatenation along dimension 1 of tensors that are one wide there. */
  function Concat1<T>(ts: seq<Tensor<T>>): Tensor<T>
    requires Slabs(ts)
  {
    Build(ts[0].d0, |ts|, ts[0].d2, ts[0].d3, (i: nat, j: nat, k: nat, l: nat) requires i < ts[0].d0 && j < |ts| && k < ts[0].d2 && l < ts[0].d3 =>
      At(ts[j], i, 0, k, l))
  }

  /** Every entry along dimension 1 repeated `n` times in a row. */
  function Repeat1<T>(t: Tensor<T>, n: nat): Tensor<T>
    requires t.WF() && n > 0
  {
    Build(t.d0, Times(t.d1, n), t.d2, t.d3, (i: nat, j: nat, k: nat, l: nat) requires i < t.d0 && j < Times(t.d1, n) && k < t.d2 && l < t.d3 =>
      DigitsJoin(j, t.d1, n);
      At(t, i, Rest(j, n), k, l))
  }

  function Row<T>(t: Tensor<T>, i: nat, j: nat, k: nat): (r: seq<T>)
    requires t.WF() && i < t.d0 && j < t.d1 && k < t.d2
    ensures |r| == t.d3
  {
    seq(t.d3, l requires 0 <= l < t.d3 => At(t, i, j, k, l))
  }

  function Column<T>(t: Tensor<T>, i: nat, j: nat, l: nat): (r: seq<T>)
    requires t.WF() && i < t.d0 && j < t.d1 && l < t.d3
    ensures |r| == t.d2
  {
    seq(t.d2, k requires 0 <= k < t.d2 => At(t, i, j, k, l))
  }

  function MatMul<T>(dot: (seq<T>, seq<T>) -> T, a: Tensor<T>, b: Tensor<T>): Tensor<T>
    requires a.WF() && b.WF() && a.d0 == b.d0 && a.d1 == b.d1 && a.d3 == b.d2
  {
    Build(a.d0, a.d1, a.d2, b.d3, (i: nat, j: nat, k: nat, l: nat) requires i < a.d0 && j < a.d1 && k < a.d2 && l < b.d3 =>
      dot(Row(a, i, j, k), Column(b, i, j, l)))
  }

  /** Element `l` of each row is computed from the whole row. */
  function MapRows<T>(f: (seq<T>, nat) -> T, t: Tensor<T>): Tensor<T>
    requires t.WF()
  {
    Build(t.d0, t.d1, t.d2, t.d3, (i: nat, j: nat, k: nat, l: nat) requires t.Has(i, j, k, l) => f(Row(t, i, j, k), l))
  }

  /** Each row reduced to one element. */
  function ReduceRows<T>(f: seq<T> -> T, t: Tensor<T>): Tensor<T>
    requires t.WF()
  {
    Build(t.d0, t.d1, t.d2, 1, (i: nat, j: nat, k: nat, l: nat) requires i < t.d0 && j < t.d1 && k < t.d2 && l < 1 => f(Row(t, i, j, k)))
  }

  /** The same elements under another shape of the same volume. */
  function View<T>(t: Tensor<T>, d0: nat, d1: nat, d2: nat, d3: nat): Tensor<T>
    requires t.WF() && Volume(d0, d1, d2, d3) == Volume(t.d0, t.d1, t.d2, t.d3)
  {
    Tensor(d0, d1, d2, d3, t.data)
  }
}
