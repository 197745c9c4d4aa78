/**
  Attention head by head: the parameters split by head, the forward pass over per-head tensors, and
  the proof that it returns what the multi-head form returns.
 */
module ShaTheorem {
  import opened Positions
  import opened Tensors
  import opened TensorHeads
  import opened ShaAttention

  // ---- splitting parameters by head ------------------------------------------------------------------

  function Flat<T>(s: seq<T>): (t: Tensor<T>)
    ensures t.WF()
  {
    Tensor(1, 1, 1, |s|, s)
  }

  /** The part of a projection that computes head `h` of `heads`: output channels `[h * dim, (h + 1) * dim)`. */
  function HeadFilter<T>(f: Filter<T>, h: nat, heads: nat, dim: nat): Filter<T>
    requires f.weight.WF() && f.weight.d3 == Times(heads, dim) && h < heads
  {
    HeadBounds(h, heads, dim);
    Filter(Slice3(f.weight, Times(h, dim), Times(h + 1, dim)), Flat(Part(f.scale1.data, heads, h)), Flat(Part(f.scale2.data, heads, h)))
  }

  lemma HeadBounds(h: nat, heads: nat, dim: nat)
    requires h < heads
    ensures Times(h, dim) <= Times(h + 1, dim) <= Times(heads, dim) && Times(h + 1, dim) - Times(h, dim) == dim
  {
    MulLe(h + 1, heads, dim);
    assert (h + 1) * dim == h * dim + dim;
  }

  function HeadQuery<T>(c: Config, q: QueryParams<T>, h: nat): QueryParams<T>
    requires q.proj.weight.WF() && q.proj.weight.d3 == Times(c.heads, c.headDim) && h < c.heads
  {
    q.(proj := HeadFilter(q.proj, h, c.heads, c.headDim))
  }

  function HeadKv<T>(c: Config, kv: KvParams<T>, h: nat): KvParams<T>
    requires kv.kProj.weight.WF() && kv.kProj.weight.d3 == Times(c.kvHeads, c.headDim) && h < c.kvHeads
    requires kv.vProj.weight.WF() && kv.vProj.weight.d3 == Times(c.kvHeads, c.headDim)
  {
    kv.(kProj := HeadFilter(kv.kProj, h, c.kvHeads, c.headDim), vProj := HeadFilter(kv.vProj, h, c.kvHeads, c.headDim))
  }

  lemma PartOfPart<T>(s: seq<T>, heads: nat, dim: nat, h: nat, c: nat)
    requires heads > 0 && dim > 0 && h < heads && c < dim && |s| % (heads * dim) == 0
    ensures |Part(s, heads, h)| % dim == 0
    ensures h * dim + c < heads * dim && Part(Part(s, heads, h), dim, c) == Part(s, heads * dim, h * dim + c)
  {
    var m := |s| / (heads * dim);
    ThreeFactors(|s|, heads, dim, m);
    JoinBelow(h, heads, dim, c);
    PartBelow(|s|, heads, h);
    assert |Part(s, heads, h)| == dim * m by { NextMultiple(h, dim * m); }
    DigitsOfMultiple(m, dim);
    PartBelow(dim * m, dim, c);
    PartBelow(|s|, heads * dim, h * dim + c);
    assert h * (dim * m) + c * m == (h * dim + c) * m by { Spread(h, dim, c, m); }
    assert h * (dim * m) + (c + 1) * m == (h * dim + c + 1) * m by { Spread(h, dim, c + 1, m); }
  }

  lemma NextMultiple(h: nat, d: nat)
    ensures (h + 1) * d == h * d + d
  {
  }

  lemma Spread(h: nat, dim: nat, c: nat, m: nat)
    ensures h * (dim * m) + c * m == (h * dim + c) * m
  {
    assert h * (dim * m) == (h * dim) * m;
  }

  lemma DigitsOfMultiple(m: nat, d: nat)
    requires d > 0
    ensures (d * m) / d == m && (d * m) % d == 0
  {
    JoinDigits(m, d, 0);
  }

  lemma ThreeFactors(n: nat, heads: nat, dim: nat, m: nat)
    requires heads > 0 && dim > 0 && heads * dim > 0 && n % (heads * dim) == 0 && m == n / (heads * dim)
    ensures n == heads * (dim * m) && n / heads == dim * m && n % heads == 0
  {
    assert n == heads * dim * m;
    assert heads * dim * m == heads * (dim * m);
    DigitsOfMultiple(dim * m, heads);
  }

  /** Output channel `o` of head `h` is output channel `h * dim + o` of the whole projection. */
  lemma HeadChannel<T>(f: Filter<T>, inputs: nat, h: nat, heads: nat, dim: nat, o: nat)
    requires heads > 0 && dim > 0 && FilterOk(f, inputs, Times(heads, dim)) && h < heads && o < dim
    ensures FilterOk(HeadFilter(f, h, heads, dim), inputs, dim) && Join(h, dim, o) < Times(heads, dim)
    ensures ChannelOf(HeadFilter(f, h, heads, dim), o) == ChannelOf(f, Join(h, dim, o))
  {
    HeadBounds(h, heads, dim);
    JoinBelow(h, heads, dim, o);
    PartOfPart(f.scale1.data, heads, dim, h, o);
    PartOfPart(f.scale2.data, heads, dim, h, o);
    hide At, Part;
    var g := HeadFilter(f, h, heads, dim);
    assert Column(g.weight, 0, 0, o) == Column(f.weight, 0, 0, Join(h, dim, o));
  }

  /** The first `n` of `count` equal parts, concatenated. */
  function Joined<T>(s: seq<T>, count: nat, n: nat): seq<T>
    requires n <= count && count > 0
  {
    if n == 0 then [] else Joined(s, count, n - 1) + Part(s, count, n - 1)
  }

  lemma {:induction false} JoinedIs<T>(s: seq<T>, count: nat, n: nat)
    requires n <= count && count > 0
    ensures n * (|s| / count) <= |s| && Joined(s, count, n) == s[..n * (|s| / count)]
  {
    if n > 0 {
      JoinedIs(s, count, n - 1);
      PartBelow(|s|, count, n - 1);
    } else {
      assert n * (|s| / count) == 0;
    }
  }

  lemma WholeParts(len: nat, count: nat)
    requires count > 0
    ensures count * (len / count) <= len && (count * (len / count) == len <==> len % count == 0)
  {
    assert len == count * (len / count) + len % count;
  }

  lemma PrefixWhole<T>(s: seq<T>, n: nat)
    requires n <= |s|
    ensures s[..n] == s <==> n == |s|
  {
    assert |s[..n]| == n;
  }

  /** The per-head parts of a scale make up the scale again exactly when the head count divides its length. */
  lemma PartsMakeWhole<T>(s: seq<T>, count: nat)
    requires count > 0
    ensures Joined(s, count, count) == s <==> |s| % count == 0
  {
    hide Joined;
    JoinedIs(s, count, count);
    WholeParts(|s|, count);
    PrefixWhole(s, count * (|s| / count));
  }

  // ---- one head ----------------------------------------------------------------------------------------

  lemma SplitAt<T>(t: Tensor<T>, heads: nat, dim: nat, h: nat, k: nat, l: nat)
    requires Shaped(t, 1, 1, t.d2, Times(heads, dim)) && h < heads && k < t.d2 && l < dim
    ensures Join(h, dim, l) < Times(heads, dim) && At(SplitHeads(t, heads, dim), 0, h, k, l) == At(t, 0, 0, k, Join(h, dim, l))
  {
    JoinBelow(h, heads, dim, l);
    VolumeSplit(t.d2, heads, dim);
    hide At, SplitHeads;
    assert At(SplitHeads(t, heads, dim), 0, h, k, l) == At(View(t, 1, t.d2, heads, dim), 0, k, h, l) by { SplitIs(t, heads, dim, h, k, l); }
    ViewAt(t, heads, dim, h, k, l);
  }

  lemma SplitIs<T>(t: Tensor<T>, heads: nat, dim: nat, h: nat, k: nat, l: nat)
    requires Shaped(t, 1, 1, t.d2, Times(heads, dim)) && h < heads && k < t.d2 && l < dim
    requires Volume(1, t.d2, heads, dim) == Volume(t.d0, t.d1, t.d2, t.d3)
    ensures At(SplitHeads(t, heads, dim), 0, h, k, l) == At(View(t, 1, t.d2, heads, dim), 0, k, h, l)
  {
    hide At;
  }

  lemma ViewAt<T>(t: Tensor<T>, heads: nat, dim: nat, h: nat, k: nat, l: nat)
    requires Shaped(t, 1, 1, t.d2, Times(heads, dim)) && h < heads && k < t.d2 && l < dim && Join(h, dim, l) < Times(heads, dim)
    requires Volume(1, t.d2, heads, dim) == Volume(t.d0, t.d1, t.d2, t.d3)
    ensures At(View(t, 1, t.d2, heads, dim), 0, k, h, l) == At(t, 0, 0, k, Join(h, dim, l))
  {
    assert Offset(t.d2, heads, dim, 0, k, h, l) == (k * heads + h) * dim + l;
    assert Offset(1, t.d2, Times(heads, dim), 0, 0, k, Join(h, dim, l)) == k * (heads * dim) + (h * dim + l);
    assert (k * heads + h) * dim + l == k * (heads * dim) + (h * dim + l) by { SpreadOver(k, heads, h, dim); }
  }

  /** Merging heads lays channel `l` of head `h` at position `h * dim + l`. */
  lemma MergedAt<T>(y: Tensor<T>, h: nat, k: nat, l: nat)
    requires Shaped(y, 1, y.d1, y.d2, y.d3) && h < y.d1 && k < y.d2 && l < y.d3
    ensures Join(h, y.d3, l) < Times(y.d1, y.d3) && At(MergeHeads(y), 0, 0, k, Join(h, y.d3, l)) == At(y, 0, h, k, l)
  {
    var t := MergeHeads(y);
    SplitAt(t, y.d1, y.d3, h, k, l);
    SplitMerged(y);
  }

  lemma SplitMerged<T>(y: Tensor<T>)
    requires Shaped(y, 1, y.d1, y.d2, y.d3)
    ensures SplitHeads(MergeHeads(y), y.d1, y.d3) == y
  {
    hide At;
    Extensional(Transpose12(Transpose12(y)), y);
  }

  lemma SpreadOver(k: nat, heads: nat, h: nat, dim: nat)
    ensures (k * heads + h) * dim == k * (heads * dim) + h * dim
  {
    assert (k * heads) * dim == k * (heads * dim);
  }

  /** One head of a whole-width projection is the projection through that head's filter. */
  lemma HeadOfConv<T>(a: Arith<T>, x: Tensor<T>, f: Filter<T>, heads: nat, dim: nat, h: nat)
    requires Shaped(x, 1, 1, x.d2, x.d3) && heads > 0 && dim > 0 && FilterOk(f, x.d3, Times(heads, dim)) && h < heads
    ensures FilterOk(HeadFilter(f, h, heads, dim), x.d3, dim)
    ensures Head(SplitHeads(Conv(a, x, f), heads, dim), h) == Conv(a, x, HeadFilter(f, h, heads, dim))
  {
    HeadChannel(f, x.d3, h, heads, dim, 0);
    var g := HeadFilter(f, h, heads, dim);
    var whole, part := Head(SplitHeads(Conv(a, x, f), heads, dim), h), Conv(a, x, g);
    HeadFilterShape(f, x.d3, h, heads, dim);
    hide At, HeadFilter, ChannelOf, SplitHeads;
    forall i: nat, j: nat, k: nat, l: nat | part.Has(i, j, k, l) ensures At(whole, i, j, k, l) == At(part, i, j, k, l) {
      HeadChannel(f, x.d3, h, heads, dim, l);
      HeadAt(SplitHeads(Conv(a, x, f), heads, dim), h, 0, k, l);
      SplitAt(Conv(a, x, f), heads, dim, h, k, l);
    }
    Extensional(whole, part);
  }

  lemma HeadFilterShape<T>(f: Filter<T>, inputs: nat, h: nat, heads: nat, dim: nat)
    requires f.weight.WF() && f.weight.d3 == Times(heads, dim) && h < heads
    ensures HeadFilter(f, h, heads, dim).weight.d3 == dim
  {
    HeadBounds(h, heads, dim);
  }

  lemma HeadQdq<T>(a: Arith<T>, q: Quant<T>, t: Tensor<T>, h: nat)
    requires t.WF() && h < t.d1
    ensures Head(Qdq(a, q, t), h) == Qdq(a, q, Head(t, h))
  {
    HeadMap(x => a.fakeQuant(q, x), t, h);
  }

  lemma HeadAfterProjection<T>(a: Arith<T>, p: Post<T>, t: Tensor<T>, h: nat)
    requires t.WF() && h < t.d1
    ensures Head(AfterProjection(a, p, t), h) == AfterProjection(a, p, Head(t, h))
  {
    hide Qdq, Head;
    match p
    case Plain(output) => HeadQdq(a, output, t, h);
    case Norm(input, norm, output) =>
      HeadQdq(a, input, t, h);
      HeadMapRows((row, l) => a.rms(norm, row, l), Qdq(a, input, t), h);
      HeadQdq(a, output, ApplyNorm(a, norm, Qdq(a, input, t)), h);
  }

  lemma HeadRotary<T>(a: Arith<T>, r: Rope<T>, x: Tensor<T>, cos: Tensor<T>, sin: Tensor<T>, h: nat)
    requires x.WF() && Shared(cos, x) && Shared(sin, x) && h < x.d1
    ensures Head(Rotary(a, r, x, cos, sin), h) == Rotary(a, r, Head(x, h), cos, sin)
  {
    hide Qdq, RotateHalf;
    var m0 := Qdq(a, r.mul0, Zip(a.mul, x, cos));
    var m1 := Qdq(a, r.mul1, Zip(a.mul, RotateHalf(a, r.negHalf, x), sin));
    HeadZipShared(a.mul, x, cos, h);
    HeadQdq(a, r.mul0, Zip(a.mul, x, cos), h);
    HeadRotateHalf(a, r.negHalf, x, h);
    HeadZipShared(a.mul, RotateHalf(a, r.negHalf, x), sin, h);
    HeadQdq(a, r.mul1, Zip(a.mul, RotateHalf(a, r.negHalf, x), sin), h);
    HeadPointwise(a.add, m0, m1, h);
    HeadQdq(a, r.add0, Pointwise(a.add, m0, m1), h);
  }

  lemma HeadRotateHalf<T>(a: Arith<T>, q: Quant<T>, x: Tensor<T>, h: nat)
    requires x.WF() && h < x.d1
    ensures Head(RotateHalf(a, q, x), h) == RotateHalf(a, q, Head(x, h))
  {
    hide Qdq, Head;
    var lo, hi := Slice3(x, 0, x.d3 / 2), Slice3(x, x.d3 / 2, x.d3);
    HeadSlice3(x, 0, x.d3 / 2, h);
    HeadSlice3(x, x.d3 / 2, x.d3, h);
    HeadMap(a.neg, hi, h);
    HeadQdq(a, q, Map(a.neg, hi), h);
    HeadConcat3(Qdq(a, q, Map(a.neg, hi)), lo, h);
    HeadShape(x, h);
  }

  lemma HeadShape<T>(x: Tensor<T>, h: nat)
    requires x.WF() && h < x.d1
    ensures Shaped(Head(x, h), x.d0, 1, x.d2, x.d3)
  {
  }

  lemma HeadToInt8<T>(a: Arith<T>, scale: Tensor<T>, direct: bool, t: Tensor<T>, h: nat)
    requires t.WF() && h < t.d1
    ensures Head(ToInt8(a, scale, direct, t), h) == ToInt8(a, scale, direct, Head(t, h))
  {
    hide Head;
    var s := if direct then t else Map(a.toF32, t);
    HeadMap(a.toF32, t, h);
    HeadMap(a.toU8, s, h);
    HeadMap(x => a.fakeQuantKv(scale, x), Map(a.toU8, s), h);
  }

  lemma HeadWeights<T>(a: Arith<T>, p: Softmax<T>, zero: Quant<T>, mask: Tensor<T>, q: Tensor<T>, kh: Tensor<T>, h: nat)
    requires Shaped(q, 1, q.d1, q.d2, q.d3) && Shaped(kh, 1, q.d1, q.d3, kh.d3) && Shaped(mask, 1, 1, q.d2, kh.d3) && h < q.d1
    ensures Shaped(Head(q, h), 1, 1, q.d2, q.d3) && Shaped(Head(kh, h), 1, 1, q.d3, kh.d3)
    ensures Head(Weights(a, p, zero, mask, q, kh), h) == Weights(a, p, zero, mask, Head(q, h), Head(kh, h))
  {
    hide Qdq;
    var attn := Qdq(a, p.qk, MatMul(a.dot, q, kh));
    var scale := a.fakeQuant(p.scaling, a.scaling);
    var scaled := Qdq(a, p.mul0, Map(x => a.mul(x, scale), attn));
    var least := Qdq(a, p.reduceMin, ReduceRows(a.least, scaled));
    var minus := a.fakeQuant(p.neg20, a.minus20);
    var low := Qdq(a, p.minus0, Map(x => a.add(x, minus), least));
    var z := a.fakeQuant(zero, a.zero);
    var open := Map(x => a.eq(x, z), mask);
    var masked := Qdq(a, p.where, Where(a.choose, open, scaled, low));
    HeadMatMul(a.dot, q, kh, h);
    HeadQdq(a, p.qk, MatMul(a.dot, q, kh), h);
    HeadMap(x => a.mul(x, scale), attn, h);
    HeadQdq(a, p.mul0, Map(x => a.mul(x, scale), attn), h);
    HeadReduceRows(a.least, scaled, h);
    HeadQdq(a, p.reduceMin, ReduceRows(a.least, scaled), h);
    HeadMap(x => a.add(x, minus), least, h);
    HeadQdq(a, p.minus0, Map(x => a.add(x, minus), least), h);
    HeadWhere(a.choose, open, scaled, low, h);
    HeadQdq(a, p.where, Where(a.choose, open, scaled, low), h);
    HeadMapRows(a.softmax, masked, h);
    HeadQdq(a, p.softmax, MapRows(a.softmax, masked), h);
  }

  lemma HeadAttend<T>(a: Arith<T>, p: Softmax<T>, zero: Quant<T>, mask: Tensor<T>, q: Tensor<T>, kh: Tensor<T>, vh: Tensor<T>, h: nat)
    requires Shaped(q, 1, q.d1, q.d2, q.d3) && Shaped(kh, 1, q.d1, q.d3, kh.d3) && Shaped(vh, 1, q.d1, kh.d3, q.d3)
    requires Shaped(mask, 1, 1, q.d2, kh.d3) && h < q.d1
    ensures Shaped(Head(q, h), 1, 1, q.d2, q.d3) && Shaped(Head(kh, h), 1, 1, q.d3, kh.d3) && Shaped(Head(vh, h), 1, 1, kh.d3, q.d3)
    ensures Head(Attend(a, p, zero, mask, q, kh, vh), h) == Attend(a, p, zero, mask, Head(q, h), Head(kh, h), Head(vh, h))
  {
    hide Qdq, Weights;
    var w := Weights(a, p, zero, mask, q, kh);
    HeadWeights(a, p, zero, mask, q, kh, h);
    HeadMatMul(a.dot, w, vh, h);
    HeadQdq(a, p.av, MatMul(a.dot, w, vh), h);
  }
}
