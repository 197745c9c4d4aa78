/**
  Grouped-query attention with quantization, as one multi-head computation and as one computation
  per head, over the same scalar arithmetic; and the theorem that splitting the parameters by head
  does not change what is computed.
 */
module ShaAttention {
  import opened Positions
  import opened Tensors
  import opened TensorHeads

  // ---- parameters ----------------------------------------------------------------------------------

  datatype Option<T> = None | Some(value: T)

  /** The scale and zero point of one fake-quantization node. */
  datatype Quant<T> = Quant(scale: Tensor<T>, zeroPoint: Tensor<T>)

  /** A projection: weights `[1, 1, in, out]` and two flat scales, output channel by output channel. */
  datatype Filter<T> = Filter(weight: Tensor<T>, scale1: Tensor<T>, scale2: Tensor<T>)

  /** All that one output channel of a projection depends on. */
  datatype Channel<T> = Channel(weights: seq<T>, scale1: seq<T>, scale2: seq<T>)

  datatype NormWeight<T> = NormWeight(weight: Tensor<T>, scale: Option<Tensor<T>>, zeroPoint: Option<Tensor<T>>)

  /** What happens to a projection before the rotary embedding: quantization, or an RMS norm between two. */
  datatype Post<T> = Plain(output: Quant<T>) | Norm(input: Quant<T>, norm: NormWeight<T>, output: Quant<T>)

  datatype Rope<T> = Rope(mul0: Quant<T>, mul1: Quant<T>, negHalf: Quant<T>, add0: Quant<T>)

  datatype Softmax<T> = Softmax(qk: Quant<T>, scaling: Quant<T>, mul0: Quant<T>, reduceMin: Quant<T>, neg20: Quant<T>,
                                minus0: Quant<T>, where: Quant<T>, softmax: Quant<T>, av: Quant<T>)

  /** The parameters of the query side, of the key and value side, and of neither. */
  datatype QueryParams<T> = QueryParams(proj: Filter<T>, post: Post<T>, rope: Rope<T>, attn: Softmax<T>)
  datatype KvParams<T> = KvParams(kProj: Filter<T>, kPost: Post<T>, kRope: Rope<T>, kInt8: Tensor<T>,
                                  vProj: Filter<T>, vInt16: Quant<T>, vInt8: Tensor<T>)
  datatype Common<T> = Common(input: Quant<T>, oProj: Filter<T>, zero: Quant<T>)

  datatype Config = Config(hidden: nat, headDim: nat, heads: nat, kvHeads: nat) {
    predicate Valid() { headDim > 0 && kvHeads > 0 && heads > 0 && heads % kvHeads == 0 }
    function Groups(): nat requires kvHeads > 0 { heads / kvHeads }
  }

  /** The scalar arithmetic, none of which is interpreted. */
  datatype Arith<!T> = Arith(
    mul: (T, T) -> T, add: (T, T) -> T, neg: T -> T, eq: (T, T) -> T, choose: (T, T, T) -> T,
    dot: (seq<T>, seq<T>) -> T, conv: (seq<T>, Channel<T>) -> T,
    least: seq<T> -> T, softmax: (seq<T>, nat) -> T, rms: (NormWeight<T>, seq<T>, nat) -> T,
    fakeQuant: (Quant<T>, T) -> T, fakeQuantKv: (Tensor<T>, T) -> T, toF32: T -> T, toU8: T -> T,
    scaling: T, minus20: T, zero: T)

  predicate Shaped<T>(t: Tensor<T>, d0: nat, d1: nat, d2: nat, d3: nat) {
    t.WF() && t.d0 == d0 && t.d1 == d1 && t.d2 == d2 && t.d3 == d3
  }

  predicate FilterOk<T>(f: Filter<T>, inputs: nat, outputs: nat) {
    && outputs > 0 && Shaped(f.weight, 1, 1, inputs, outputs)
    && f.scale1.Numel() % outputs == 0 && f.scale2.Numel() % outputs == 0
  }

  // ---- operations ------------------------------------------------------------------------------------

  /** The `n`-th of `count` equal parts. */
  function Part<T>(s: seq<T>, count: nat, n: nat): seq<T>
    requires count > 0 && n < count
  {
    PartBelow(|s|, count, n);
    s[n * (|s| / count)..(n + 1) * (|s| / count)]
  }

  lemma PartBelow(size: nat, count: nat, n: nat)
    requires count > 0 && n < count
    ensures 0 <= n * (size / count) <= (n + 1) * (size / count) <= size
  {
    MulLe(n, n + 1, size / count);
    MulLe(n + 1, count, size / count);
    assert count * (size / count) <= size;
  }

  function ChannelOf<T>(f: Filter<T>, o: nat): Channel<T>
    requires f.weight.WF() && f.weight.d0 == 1 && f.weight.d1 == 1 && o < f.weight.d3
  {
    Channel(Column(f.weight, 0, 0, o), Part(f.scale1.data, f.weight.d3, o), Part(f.scale2.data, f.weight.d3, o))
  }

  function Conv<T>(a: Arith<T>, x: Tensor<T>, f: Filter<T>): (r: Tensor<T>)
    requires x.WF() && FilterOk(f, x.d3, f.weight.d3)
    ensures Shaped(r, x.d0, x.d1, x.d2, f.weight.d3)
  {
    Build(x.d0, x.d1, x.d2, f.weight.d3, (i: nat, j: nat, k: nat, l: nat) requires i < x.d0 && j < x.d1 && k < x.d2 && l < f.weight.d3 =>
      a.conv(Row(x, i, j, k), ChannelOf(f, l)))
  }

  function Qdq<T>(a: Arith<T>, q: Quant<T>, t: Tensor<T>): (r: Tensor<T>)
    requires t.WF()
    ensures r.WF() && SameShape(r, t)
  {
    Map(x => a.fakeQuant(q, x), t)
  }

  function ApplyNorm<T>(a: Arith<T>, w: NormWeight<T>, t: Tensor<T>): (r: Tensor<T>)
    requires t.WF()
    ensures r.WF() && SameShape(r, t)
  {
    MapRows((row, l) => a.rms(w, row, l), t)
  }

  /** The step between projection and rotary embedding, on tensors already split into heads. */
  function AfterProjection<T>(a: Arith<T>, p: Post<T>, t: Tensor<T>): (r: Tensor<T>)
    requires t.WF()
    ensures r.WF() && SameShape(r, t)
  {
    match p
    case Plain(output) => Qdq(a, output, t)
    case Norm(input, norm, output) => Qdq(a, output, ApplyNorm(a, norm, Qdq(a, input, t)))
  }

  function RotateHalf<T>(a: Arith<T>, q: Quant<T>, x: Tensor<T>): (r: Tensor<T>)
    requires x.WF()
    ensures r.WF() && SameShape(r, x)
  {
    Concat3(Qdq(a, q, Map(a.neg, Slice3(x, x.d3 / 2, x.d3))), Slice3(x, 0, x.d3 / 2))
  }

  predicate Shared<T>(b: Tensor<T>, a: Tensor<T>) { b.WF() && FitsOver(b, a) && b.d1 == 1 }

  function Rotary<T>(a: Arith<T>, r: Rope<T>, x: Tensor<T>, cos: Tensor<T>, sin: Tensor<T>): (y: Tensor<T>)
    requires x.WF() && Shared(cos, x) && Shared(sin, x)
    ensures y.WF() && SameShape(y, x)
  {
    Qdq(a, r.add0, Pointwise(a.add, Qdq(a, r.mul0, Zip(a.mul, x, cos)),
                             Qdq(a, r.mul1, Zip(a.mul, RotateHalf(a, r.negHalf, x), sin))))
  }

  /** Quantize to 8 bits, by way of a 32-bit float or directly. */
  function ToInt8<T>(a: Arith<T>, scale: Tensor<T>, direct: bool, t: Tensor<T>): (r: Tensor<T>)
    requires t.WF()
    ensures r.WF() && SameShape(r, t)
  {
    Map(x => a.fakeQuantKv(scale, x), Map(a.toU8, if direct then t else Map(a.toF32, t)))
  }

  /** Masked, scaled attention weights of queries `[1, H, S, D]` over keys `[1, H, D, N]`. */
  function Weights<T>(a: Arith<T>, p: Softmax<T>, zero: Quant<T>, mask: Tensor<T>, q: Tensor<T>, kh: Tensor<T>): (w: Tensor<T>)
    requires Shaped(q, 1, q.d1, q.d2, q.d3) && Shaped(kh, 1, q.d1, q.d3, kh.d3) && Shaped(mask, 1, 1, q.d2, kh.d3)
    ensures Shaped(w, 1, q.d1, q.d2, kh.d3)
  {
    var attn := Qdq(a, p.qk, MatMul(a.dot, q, kh));
    var scale := a.fakeQuant(p.scaling, a.scaling);
    var scaled := Qdq(a, p.mul0, Map(x => a.mul(x, scale), attn));
    var least := Qdq(a, p.reduceMin, ReduceRows(a.least, scaled));
    var minus := a.fakeQuant(p.neg20, a.minus20);
    var low := Qdq(a, p.minus0, Map(x => a.add(x, minus), least));
    var z := a.fakeQuant(zero, a.zero);
    var open := Map(x => a.eq(x, z), mask);
    var masked := Qdq(a, p.where, Where(a.choose, open, scaled, low));
    Qdq(a, p.softmax, MapRows(a.softmax, masked))
  }

  /** Attention with these weights over values `[1, H, N, D]`. */
  function Attend<T>(a: Arith<T>, p: Softmax<T>, zero: Quant<T>, mask: Tensor<T>, q: Tensor<T>, kh: Tensor<T>, vh: Tensor<T>): (y: Tensor<T>)
    requires Shaped(q, 1, q.d1, q.d2, q.d3) && Shaped(kh, 1, q.d1, q.d3, kh.d3) && Shaped(vh, 1, q.d1, kh.d3, q.d3)
    requires Shaped(mask, 1, 1, q.d2, kh.d3)
    ensures Shaped(y, 1, q.d1, q.d2, q.d3)
  {
    Qdq(a, p.av, MatMul(a.dot, Weights(a, p, zero, mask, q, kh), vh))
  }

  // ---- the multi-head form -----------------------------------------------------------------------------

  datatype Inputs<T> = Inputs(hidden: Tensor<T>, sin: Tensor<T>, cos: Tensor<T>, mask: Tensor<T>, pastKey: Tensor<T>, pastValue: Tensor<T>)
  datatype Outputs<T> = Outputs(y: Tensor<T>, key: Tensor<T>, value: Tensor<T>)

  /** Shapes of a forward pass over `hidden.d2` tokens after `pastKey.d3` cached ones. */
  predicate InputsOk<T>(c: Config, x: Inputs<T>) {
    var s, n := x.hidden.d2, x.pastKey.d3;
    && c.Valid()
    && Shaped(x.hidden, 1, 1, s, c.hidden) && Shaped(x.sin, 1, 1, s, c.headDim) && Shaped(x.cos, 1, 1, s, c.headDim)
    && Shaped(x.mask, 1, 1, s, n + s) && Shaped(x.pastKey, 1, c.kvHeads, c.headDim, n) && Shaped(x.pastValue, 1, c.kvHeads, n, c.headDim)
  }

  predicate ParamsOk<T>(c: Config, m: Common<T>, q: QueryParams<T>, kv: KvParams<T>) {
    && c.Valid()
    && FilterOk(q.proj, c.hidden, Times(c.heads, c.headDim)) && FilterOk(m.oProj, Times(c.heads, c.headDim), c.hidden)
    && FilterOk(kv.kProj, c.hidden, Times(c.kvHeads, c.headDim)) && FilterOk(kv.vProj, c.hidden, Times(c.kvHeads, c.headDim))
  }

  /** `[1, 1, S, heads * dim]` as `[1, heads, S, dim]`. */
  function SplitHeads<T>(t: Tensor<T>, heads: nat, dim: nat): (r: Tensor<T>)
    requires Shaped(t, 1, 1, t.d2, Times(heads, dim))
    ensures Shaped(r, 1, heads, t.d2, dim)
  {
    VolumeSplit(t.d2, heads, dim);
    Transpose12(View(t, 1, t.d2, heads, dim))
  }

  /** `[1, heads, S, dim]` as `[1, 1, S, heads * dim]`. */
  function MergeHeads<T>(t: Tensor<T>): (r: Tensor<T>)
    requires Shaped(t, 1, t.d1, t.d2, t.d3)
    ensures Shaped(r, 1, 1, t.d2, Times(t.d1, t.d3))
  {
    VolumeSplit(t.d2, t.d1, t.d3);
    View(Transpose12(t), 1, 1, t.d2, Times(t.d1, t.d3))
  }

  lemma VolumeSplit(s: nat, heads: nat, dim: nat)
    ensures Volume(1, s, heads, dim) == Volume(1, 1, s, Times(heads, dim))
  {
    assert s * (heads * dim) == s * heads * dim;
  }

  /** A projection of the whole width, split into heads and made ready for the rotary embedding. */
  function Project<T>(a: Arith<T>, f: Filter<T>, p: Post<T>, x: Tensor<T>, heads: nat, dim: nat): (r: Tensor<T>)
    requires Shaped(x, 1, 1, x.d2, x.d3) && FilterOk(f, x.d3, Times(heads, dim))
    ensures Shaped(r, 1, heads, x.d2, dim)
  {
    match p
    case Plain(output) => SplitHeads(Qdq(a, output, Conv(a, x, f)), heads, dim)
    case Norm(_, _, _) => AfterProjection(a, p, SplitHeads(Conv(a, x, f), heads, dim))
  }

  function MhaKeys<T>(a: Arith<T>, c: Config, kv: KvParams<T>, x: Tensor<T>, cos: Tensor<T>, sin: Tensor<T>): (r: Tensor<T>)
    requires c.Valid() && Shaped(x, 1, 1, x.d2, c.hidden) && FilterOk(kv.kProj, c.hidden, Times(c.kvHeads, c.headDim))
    requires Shaped(cos, 1, 1, x.d2, c.headDim) && Shaped(sin, 1, 1, x.d2, c.headDim)
    ensures Shaped(r, 1, c.kvHeads, c.headDim, x.d2)
  {
    var k := Rotary(a, kv.kRope, Project(a, kv.kProj, kv.kPost, x, c.kvHeads, c.headDim), cos, sin);
    Transpose23(ToInt8(a, kv.kInt8, false, k))
  }

  function MhaValues<T>(a: Arith<T>, c: Config, kv: KvParams<T>, x: Tensor<T>): (r: Tensor<T>)
    requires c.Valid() && Shaped(x, 1, 1, x.d2, c.hidden) && FilterOk(kv.vProj, c.hidden, Times(c.kvHeads, c.headDim))
    ensures Shaped(r, 1, c.kvHeads, x.d2, c.headDim)
  {
    ToInt8(a, kv.vInt8, false, Qdq(a, kv.vInt16, SplitHeads(Conv(a, x, kv.vProj), c.kvHeads, c.headDim)))
  }

  lemma GroupsCover(c: Config)
    requires c.Valid()
    ensures c.Groups() > 0 && Times(c.kvHeads, c.Groups()) == c.heads
  {
  }

  function Output<T>(a: Arith<T>, c: Config, m: Common<T>, y: Tensor<T>): (r: Tensor<T>)
    requires c.Valid() && Shaped(y, 1, c.heads, y.d2, c.headDim) && FilterOk(m.oProj, Times(c.heads, c.headDim), c.hidden)
    ensures Shaped(r, 1, 1, y.d2, c.hidden)
  {
    Conv(a, MergeHeads(y), m.oProj)
  }

  /** The forward pass of the multi-head attention. */
  function MhaForward<T>(a: Arith<T>, c: Config, m: Common<T>, q: QueryParams<T>, kv: KvParams<T>, inp: Inputs<T>): Outputs<T>
    requires InputsOk(c, inp) && ParamsOk(c, m, q, kv)
  {
    GroupsCover(c);
    var x := Qdq(a, m.input, inp.hidden);
    var query := Rotary(a, q.rope, Project(a, q.proj, q.post, x, c.heads, c.headDim), inp.cos, inp.sin);
    var key := MhaKeys(a, c, kv, x, inp.cos, inp.sin);
    var value := MhaValues(a, c, kv, x);
    var kh := Repeat1(Concat3(inp.pastKey, key), c.Groups());
    var vh := Repeat1(Concat2(inp.pastValue, value), c.Groups());
    var y := Attend(a, q.attn, m.zero, inp.mask, query, kh, vh);
    Outputs(Output(a, c, m, y), key, value)
  }
}
