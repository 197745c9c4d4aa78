/**
  What attention computes, entry by entry: every number that a forward pass returns, written with indices and the
  scalar arithmetic alone.  No tensor operation takes part in it.
 */
module ShaMeaning {
  import opened Positions
  import opened Tensors
  import opened TensorHeads
  import opened ShaAttention
  import opened ShaTheorem
  import opened ShaForward

  // ---- scalars -----------------------------------------------------------------------------------------------

  /** Weights and scales of output channel `o` of `outputs`. */
  function ChannelAt<T>(f: Filter<T>, inputs: nat, outputs: nat, o: nat): Channel<T>
    requires FilterOk(f, inputs, outputs) && o < outputs
  {
    PartBelow(|f.scale1.data|, outputs, o);
    PartBelow(|f.scale2.data|, outputs, o);
    var n1, n2 := |f.scale1.data| / outputs, |f.scale2.data| / outputs;
    Channel(seq(inputs, i requires 0 <= i < inputs => At(f.weight, 0, 0, i, o)),
            f.scale1.data[o * n1..(o + 1) * n1], f.scale2.data[o * n2..(o + 1) * n2])
  }

  function Quantized<T>(a: Arith<T>, q: Quant<T>, row: seq<T>): (r: seq<T>)
    ensures |r| == |row| && forall j :: 0 <= j < |row| ==> r[j] == a.fakeQuant(q, row[j])
  {
    seq(|row|, j requires 0 <= j < |row| => a.fakeQuant(q, row[j]))
  }

  /** One row of a head between projection and rotary embedding: quantized, or normed between two quantizations. */
  function Readied<T>(a: Arith<T>, p: Post<T>, row: seq<T>, l: nat): T
    requires l < |row|
  {
    match p
    case Plain(output) => a.fakeQuant(output, row[l])
    case Norm(input, norm, output) =>
      a.fakeQuant(output, a.rms(norm, Quantized(a, input, row), l))
  }

  /** The row turned by a quarter: below the middle the negated upper half, above it the lower half. */
  function Turned<T>(a: Arith<T>, negHalf: Quant<T>, row: seq<T>, l: nat): T
    requires l < |row|
  {
    var half := |row| / 2;
    if l + half < |row| then a.fakeQuant(negHalf, a.neg(row[l + half])) else row[l + half - |row|]
  }

  /** The rotary embedding of one row, with the cosines and sines of its token. */
  function Rotated<T>(a: Arith<T>, r: Rope<T>, row: seq<T>, cos: seq<T>, sin: seq<T>, l: nat): T
    requires l < |row| == |cos| == |sin|
  {
    a.fakeQuant(r.add0, a.add(a.fakeQuant(r.mul0, a.mul(row[l], cos[l])),
                              a.fakeQuant(r.mul1, a.mul(Turned(a, r.negHalf, row, l), sin[l]))))
  }

  /** To eight bits, by way of a float. */
  function Narrowed<T>(a: Arith<T>, scale: Tensor<T>, x: T): T { a.fakeQuantKv(scale, a.toU8(a.toF32(x))) }

  /** A scaled score of a query row and a key. */
  function Score<T>(a: Arith<T>, p: Softmax<T>, query: seq<T>, key: seq<T>): T {
    a.fakeQuant(p.mul0, a.mul(a.fakeQuant(p.qk, a.dot(query, key)), a.fakeQuant(p.scaling, a.scaling)))
  }

  /** What stands for a hidden score: the least score of the row, less twenty. */
  function Low<T>(a: Arith<T>, p: Softmax<T>, scores: seq<T>): T {
    a.fakeQuant(p.minus0, a.add(a.fakeQuant(p.reduceMin, a.least(scores)), a.fakeQuant(p.neg20, a.minus20)))
  }

  /** The score that position `u` has after masking: its own where the mask is zero, the low one elsewhere. */
  function Seen<T>(a: Arith<T>, p: Softmax<T>, zero: Quant<T>, mask: seq<T>, scores: seq<T>, u: nat): T
    requires u < |scores| == |mask|
  {
    a.fakeQuant(p.where, a.choose(a.eq(mask[u], a.fakeQuant(zero, a.zero)), scores[u], Low(a, p, scores)))
  }

  function SeenRow<T>(a: Arith<T>, p: Softmax<T>, zero: Quant<T>, mask: seq<T>, scores: seq<T>): (r: seq<T>)
    requires |scores| == |mask|
    ensures |r| == |scores| && forall u :: 0 <= u < |r| ==> r[u] == Seen(a, p, zero, mask, scores, u)
  {
    seq(|scores|, u requires 0 <= u < |scores| => Seen(a, p, zero, mask, scores, u))
  }

  /** The weight of position `t`. */
  function Weight<T>(a: Arith<T>, p: Softmax<T>, zero: Quant<T>, mask: seq<T>, scores: seq<T>, t: nat): T
    requires t < |scores| == |mask|
  {
    a.fakeQuant(p.softmax, a.softmax(SeenRow(a, p, zero, mask, scores), t))
  }

  // ---- entries of the operations --------------------------------------------------------------------------------

  lemma RotateHalfAt<T>(a: Arith<T>, q: Quant<T>, x: Tensor<T>, i: nat, j: nat, k: nat, l: nat)
    requires x.WF() && x.Has(i, j, k, l)
    ensures At(RotateHalf(a, q, x), i, j, k, l) == Turned(a, q, Row(x, i, j, k), l)
  {
    hide At;
  }

  lemma RotaryAt<T>(a: Arith<T>, r: Rope<T>, x: Tensor<T>, cos: Tensor<T>, sin: Tensor<T>, h: nat, k: nat, l: nat)
    requires Shaped(x, 1, x.d1, x.d2, x.d3) && Shaped(cos, 1, 1, x.d2, x.d3) && Shaped(sin, 1, 1, x.d2, x.d3) && x.Has(0, h, k, l)
    ensures At(Rotary(a, r, x, cos, sin), 0, h, k, l) == Rotated(a, r, Row(x, 0, h, k), Row(cos, 0, 0, k), Row(sin, 0, 0, k), l)
  {
    hide At, RotateHalf, Turned;
    RotateHalfAt(a, r.negHalf, x, 0, h, k, l);
  }

  lemma QdqRow<T>(a: Arith<T>, q: Quant<T>, t: Tensor<T>, h: nat, k: nat)
    requires t.WF() && t.d0 > 0 && h < t.d1 && k < t.d2
    ensures Row(Qdq(a, q, t), 0, h, k) == Quantized(a, q, Row(t, 0, h, k))
  {
    hide At;
  }

  lemma ReadiedAt<T>(a: Arith<T>, p: Post<T>, t: Tensor<T>, h: nat, k: nat, l: nat)
    requires t.WF() && t.Has(0, h, k, l)
    ensures At(AfterProjection(a, p, t), 0, h, k, l) == Readied(a, p, Row(t, 0, h, k), l)
  {
    hide At, Quantized;
    match p
    case Plain(_) =>
    case Norm(input, norm, output) => QdqRow(a, input, t, h, k);
  }

  lemma ChannelIs<T>(f: Filter<T>, inputs: nat, outputs: nat, o: nat)
    requires FilterOk(f, inputs, outputs) && o < outputs
    ensures ChannelOf(f, o) == ChannelAt(f, inputs, outputs, o)
  {
    hide At;
    var c, d := ChannelOf(f, o), ChannelAt(f, inputs, outputs, o);
    assert c.weights == d.weights;
  }

  lemma ConvAt<T>(a: Arith<T>, x: Tensor<T>, f: Filter<T>, outputs: nat, k: nat, o: nat)
    requires Shaped(x, 1, 1, x.d2, x.d3) && FilterOk(f, x.d3, outputs) && k < x.d2 && o < outputs
    ensures At(Conv(a, x, f), 0, 0, k, o) == a.conv(Row(x, 0, 0, k), ChannelAt(f, x.d3, outputs, o))
  {
    hide At, ChannelOf, ChannelAt, Row;
    ChannelIs(f, x.d3, outputs, o);
  }

  /** Scores of one query row against every key. */
  function Scores<T>(a: Arith<T>, p: Softmax<T>, query: seq<T>, kh: Tensor<T>, h: nat): (r: seq<T>)
    requires kh.WF() && kh.d0 > 0 && h < kh.d1
    ensures |r| == kh.d3 && forall u :: 0 <= u < kh.d3 ==> r[u] == Score(a, p, query, Column(kh, 0, h, u))
  {
    seq(kh.d3, u requires 0 <= u < kh.d3 => Score(a, p, query, Column(kh, 0, h, u)))
  }

  function Scaled<T>(a: Arith<T>, p: Softmax<T>, q: Tensor<T>, kh: Tensor<T>): (t: Tensor<T>)
    requires Shaped(q, 1, q.d1, q.d2, q.d3) && Shaped(kh, 1, q.d1, q.d3, kh.d3)
    ensures Shaped(t, 1, q.d1, q.d2, kh.d3)
  {
    var scale := a.fakeQuant(p.scaling, a.scaling);
    Qdq(a, p.mul0, Map(x => a.mul(x, scale), Qdq(a, p.qk, MatMul(a.dot, q, kh))))
  }

  lemma ScaledRow<T>(a: Arith<T>, p: Softmax<T>, q: Tensor<T>, kh: Tensor<T>, h: nat, s: nat)
    requires Shaped(q, 1, q.d1, q.d2, q.d3) && Shaped(kh, 1, q.d1, q.d3, kh.d3) && h < q.d1 && s < q.d2
    ensures Row(Scaled(a, p, q, kh), 0, h, s) == Scores(a, p, Row(q, 0, h, s), kh, h)
  {
    hide At, Column;
    var r, t := Row(Scaled(a, p, q, kh), 0, h, s), Scores(a, p, Row(q, 0, h, s), kh, h);
    hide Row;
    forall u | 0 <= u < kh.d3 ensures r[u] == t[u] {}
  }

  function LowTensor<T>(a: Arith<T>, p: Softmax<T>, scaled: Tensor<T>): (t: Tensor<T>)
    requires scaled.WF()
    ensures Shaped(t, scaled.d0, scaled.d1, scaled.d2, 1)
  {
    var least := Qdq(a, p.reduceMin, ReduceRows(a.least, scaled));
    var minus := a.fakeQuant(p.neg20, a.minus20);
    Qdq(a, p.minus0, Map(x => a.add(x, minus), least))
  }

  lemma LowAt<T>(a: Arith<T>, p: Softmax<T>, scaled: Tensor<T>, h: nat, s: nat)
    requires scaled.WF() && scaled.d0 > 0 && h < scaled.d1 && s < scaled.d2
    ensures At(LowTensor(a, p, scaled), 0, h, s, 0) == Low(a, p, Row(scaled, 0, h, s))
  {
    hide At, Row;
  }

  function MaskedTensor<T>(a: Arith<T>, p: Softmax<T>, zero: Quant<T>, mask: Tensor<T>, scaled: Tensor<T>): (t: Tensor<T>)
    requires Shaped(scaled, 1, scaled.d1, scaled.d2, scaled.d3) && Shaped(mask, 1, 1, scaled.d2, scaled.d3)
    ensures Shaped(t, 1, scaled.d1, scaled.d2, scaled.d3)
  {
    var z := a.fakeQuant(zero, a.zero);
    var open := Map(x => a.eq(x, z), mask);
    Qdq(a, p.where, Where(a.choose, open, scaled, LowTensor(a, p, scaled)))
  }

  lemma StretchAt<T>(b: Tensor<T>, t: Tensor<T>, h: nat, s: nat, u: nat, j: nat, l: nat)
    requires t.WF() && b.WF() && FitsOver(b, t) && t.Has(0, h, s, u) && j == Pick(b.d1, h) && s == Pick(b.d2, s) && l == Pick(b.d3, u)
    ensures At(Stretch(b, t), 0, h, s, u) == At(b, 0, j, s, l)
  {
    hide At;
  }

  lemma MaskedAt<T>(a: Arith<T>, p: Softmax<T>, zero: Quant<T>, mask: Tensor<T>, scaled: Tensor<T>, h: nat, s: nat, u: nat)
    requires Shaped(scaled, 1, scaled.d1, scaled.d2, scaled.d3) && Shaped(mask, 1, 1, scaled.d2, scaled.d3)
    requires h < scaled.d1 && s < scaled.d2 && u < scaled.d3
    ensures At(MaskedTensor(a, p, zero, mask, scaled), 0, h, s, u) == Seen(a, p, zero, Row(mask, 0, 0, s), Row(scaled, 0, h, s), u)
  {
    hide At, LowTensor, Low;
    LowAt(a, p, scaled, h, s);
    var z := a.fakeQuant(zero, a.zero);
    var open, low := Map(x => a.eq(x, z), mask), LowTensor(a, p, scaled);
    StretchAt(open, scaled, h, s, u, 0, u);
    StretchAt(low, scaled, h, s, u, h, 0);
    assert mask.Has(0, 0, s, u);
  }

  lemma MaskedRow<T>(a: Arith<T>, p: Softmax<T>, zero: Quant<T>, mask: Tensor<T>, scaled: Tensor<T>, h: nat, s: nat)
    requires Shaped(scaled, 1, scaled.d1, scaled.d2, scaled.d3) && Shaped(mask, 1, 1, scaled.d2, scaled.d3) && h < scaled.d1 && s < scaled.d2
    ensures Row(MaskedTensor(a, p, zero, mask, scaled), 0, h, s) == SeenRow(a, p, zero, Row(mask, 0, 0, s), Row(scaled, 0, h, s))
  {
    hide At, MaskedTensor, Seen;
    forall u | 0 <= u < scaled.d3
      ensures Row(MaskedTensor(a, p, zero, mask, scaled), 0, h, s)[u] == SeenRow(a, p, zero, Row(mask, 0, 0, s), Row(scaled, 0, h, s))[u]
    {
      MaskedAt(a, p, zero, mask, scaled, h, s, u);
    }
  }

  /** An entry of the attention weights. */
  lemma WeightsAt<T>(a: Arith<T>, p: Softmax<T>, zero: Quant<T>, mask: Tensor<T>, q: Tensor<T>, kh: Tensor<T>, h: nat, s: nat, t: nat)
    requires Shaped(q, 1, q.d1, q.d2, q.d3) && Shaped(kh, 1, q.d1, q.d3, kh.d3) && Shaped(mask, 1, 1, q.d2, kh.d3)
    requires h < q.d1 && s < q.d2 && t < kh.d3
    ensures At(Weights(a, p, zero, mask, q, kh), 0, h, s, t) == Weight(a, p, zero, Row(mask, 0, 0, s), Scores(a, p, Row(q, 0, h, s), kh, h), t)
  {
    hide At, Row, Scores, Seen, Where, MatMul, ReduceRows;
    var scaled := Scaled(a, p, q, kh);
    var masked := MaskedTensor(a, p, zero, mask, scaled);
    ScaledRow(a, p, q, kh, h, s);
    MaskedRow(a, p, zero, mask, scaled, h, s);
    assert Weights(a, p, zero, mask, q, kh) == Qdq(a, p.softmax, MapRows(a.softmax, masked));
  }
}
