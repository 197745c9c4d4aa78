/** The forward pass head by head, with its loops over per-head tensors, and its equality with the multi-head form. */
module ShaForward {
  import opened Positions
  import opened Tensors
  import opened TensorHeads
  import opened ShaAttention
  import opened ShaTheorem

  // ---- one head, as a function of the parameters for that head -----------------------------------------

  ghost predicate HeadParamsOk<T>(c: Config, m: Common<T>, qs: seq<QueryParams<T>>, kvs: seq<KvParams<T>>) {
    && c.Valid() && |qs| == c.heads && |kvs| == c.kvHeads && FilterOk(m.oProj, Times(c.heads, c.headDim), c.hidden)
    && (forall h :: 0 <= h < |qs| ==> FilterOk(qs[h].proj, c.hidden, c.headDim))
    && (forall h :: 0 <= h < |kvs| ==> FilterOk(kvs[h].kProj, c.hidden, c.headDim) && FilterOk(kvs[h].vProj, c.hidden, c.headDim))
  }

  function Projected<T>(a: Arith<T>, c: Config, f: Filter<T>, x: Tensor<T>): (r: Tensor<T>)
    requires Shaped(x, 1, 1, x.d2, c.hidden) && FilterOk(f, c.hidden, c.headDim)
    ensures Shaped(r, 1, 1, x.d2, c.headDim)
  {
    Conv(a, x, f)
  }

  function ShaQuery<T>(a: Arith<T>, c: Config, q: QueryParams<T>, x: Tensor<T>, cos: Tensor<T>, sin: Tensor<T>): (r: Tensor<T>)
    requires Shaped(x, 1, 1, x.d2, c.hidden) && FilterOk(q.proj, c.hidden, c.headDim)
    requires Shaped(cos, 1, 1, x.d2, c.headDim) && Shaped(sin, 1, 1, x.d2, c.headDim)
    ensures Shaped(r, 1, 1, x.d2, c.headDim)
  {
    Rotary(a, q.rope, AfterProjection(a, q.post, Projected(a, c, q.proj, x)), cos, sin)
  }

  /** The key of one head before it is quantized to 8 bits. */
  function ShaRotatedKey<T>(a: Arith<T>, c: Config, kv: KvParams<T>, x: Tensor<T>, cos: Tensor<T>, sin: Tensor<T>): (r: Tensor<T>)
    requires Shaped(x, 1, 1, x.d2, c.hidden) && FilterOk(kv.kProj, c.hidden, c.headDim)
    requires Shaped(cos, 1, 1, x.d2, c.headDim) && Shaped(sin, 1, 1, x.d2, c.headDim)
    ensures Shaped(r, 1, 1, x.d2, c.headDim)
  {
    Rotary(a, kv.kRope, AfterProjection(a, kv.kPost, Projected(a, c, kv.kProj, x)), cos, sin)
  }

  function ShaKey<T>(a: Arith<T>, c: Config, kv: KvParams<T>, direct: bool, x: Tensor<T>, cos: Tensor<T>, sin: Tensor<T>): (r: Tensor<T>)
    requires Shaped(x, 1, 1, x.d2, c.hidden) && FilterOk(kv.kProj, c.hidden, c.headDim)
    requires Shaped(cos, 1, 1, x.d2, c.headDim) && Shaped(sin, 1, 1, x.d2, c.headDim)
    ensures Shaped(r, 1, 1, c.headDim, x.d2)
  {
    Transpose23(ToInt8(a, kv.kInt8, direct, ShaRotatedKey(a, c, kv, x, cos, sin)))
  }

  function ShaValue<T>(a: Arith<T>, c: Config, kv: KvParams<T>, direct: bool, x: Tensor<T>): (r: Tensor<T>)
    requires Shaped(x, 1, 1, x.d2, c.hidden) && FilterOk(kv.vProj, c.hidden, c.headDim)
    ensures Shaped(r, 1, 1, x.d2, c.headDim)
  {
    ToInt8(a, kv.vInt8, direct, Qdq(a, kv.vInt16, Projected(a, c, kv.vProj, x)))
  }

  // ---- the parameters that splitting makes ---------------------------------------------------------------

  /** `qs` and `kvs` are the parameters `q` and `kv` split by head. */
  ghost predicate SplitOf<T>(c: Config, q: QueryParams<T>, kv: KvParams<T>, qs: seq<QueryParams<T>>, kvs: seq<KvParams<T>>)
    requires FilterOk(q.proj, c.hidden, Times(c.heads, c.headDim))
    requires FilterOk(kv.kProj, c.hidden, Times(c.kvHeads, c.headDim)) && FilterOk(kv.vProj, c.hidden, Times(c.kvHeads, c.headDim))
  {
    && |qs| == c.heads && |kvs| == c.kvHeads
    && (forall h :: 0 <= h < |qs| ==> qs[h] == HeadQuery(c, q, h))
    && (forall h :: 0 <= h < |kvs| ==> kvs[h] == HeadKv(c, kv, h))
  }

  lemma SplitOk<T>(c: Config, m: Common<T>, q: QueryParams<T>, kv: KvParams<T>, qs: seq<QueryParams<T>>, kvs: seq<KvParams<T>>)
    requires ParamsOk(c, m, q, kv) && SplitOf(c, q, kv, qs, kvs)
    ensures HeadParamsOk(c, m, qs, kvs)
  {
    hide FilterOk;
    forall h | 0 <= h < |qs| ensures FilterOk(qs[h].proj, c.hidden, c.headDim) {
      HeadChannel(q.proj, c.hidden, h, c.heads, c.headDim, 0);
    }
    forall h | 0 <= h < |kvs| ensures FilterOk(kvs[h].kProj, c.hidden, c.headDim) && FilterOk(kvs[h].vProj, c.hidden, c.headDim) {
      HeadChannel(kv.kProj, c.hidden, h, c.kvHeads, c.headDim, 0);
      HeadChannel(kv.vProj, c.hidden, h, c.kvHeads, c.headDim, 0);
    }
  }

  // ---- each head of the multi-head form ------------------------------------------------------------------

  /** The query side of the multi-head form. */
  function MhaQuery<T>(a: Arith<T>, c: Config, q: QueryParams<T>, x: Tensor<T>, cos: Tensor<T>, sin: Tensor<T>): (r: Tensor<T>)
    requires c.Valid() && Shaped(x, 1, 1, x.d2, c.hidden) && FilterOk(q.proj, c.hidden, Times(c.heads, c.headDim))
    requires Shaped(cos, 1, 1, x.d2, c.headDim) && Shaped(sin, 1, 1, x.d2, c.headDim)
    ensures Shaped(r, 1, c.heads, x.d2, c.headDim)
  {
    Rotary(a, q.rope, Project(a, q.proj, q.post, x, c.heads, c.headDim), cos, sin)
  }

  /** Quantizing before splitting into heads, as the multi-head form may do, is quantizing afterwards. */
  lemma SplitQdq<T>(a: Arith<T>, q: Quant<T>, t: Tensor<T>, heads: nat, dim: nat)
    requires Shaped(t, 1, 1, t.d2, Times(heads, dim))
    ensures SplitHeads(Qdq(a, q, t), heads, dim) == Qdq(a, q, SplitHeads(t, heads, dim))
  {
    var u, v := SplitHeads(Qdq(a, q, t), heads, dim), Qdq(a, q, SplitHeads(t, heads, dim));
    hide At, SplitHeads;
    forall i: nat, j: nat, k: nat, l: nat | u.Has(i, j, k, l) ensures At(u, i, j, k, l) == At(v, i, j, k, l) {
      SplitAt(Qdq(a, q, t), heads, dim, j, k, l);
      SplitAt(t, heads, dim, j, k, l);
    }
    Extensional(u, v);
  }

  lemma HeadOfProject<T>(a: Arith<T>, f: Filter<T>, p: Post<T>, x: Tensor<T>, heads: nat, dim: nat, h: nat)
    requires Shaped(x, 1, 1, x.d2, x.d3) && heads > 0 && dim > 0 && FilterOk(f, x.d3, Times(heads, dim)) && h < heads
    ensures FilterOk(HeadFilter(f, h, heads, dim), x.d3, dim)
    ensures Head(Project(a, f, p, x, heads, dim), h) == AfterProjection(a, p, Conv(a, x, HeadFilter(f, h, heads, dim)))
  {
    hide SplitHeads, HeadFilter, Head, Conv;
    HeadOfConv(a, x, f, heads, dim, h);
    var t := SplitHeads(Conv(a, x, f), heads, dim);
    HeadAfterProjection(a, p, t, h);
    if p.Plain? { SplitQdq(a, p.output, Conv(a, x, f), heads, dim); }
  }

  lemma HeadOfQuery<T>(a: Arith<T>, c: Config, q: QueryParams<T>, x: Tensor<T>, cos: Tensor<T>, sin: Tensor<T>, h: nat)
    requires c.Valid() && Shaped(x, 1, 1, x.d2, c.hidden) && FilterOk(q.proj, c.hidden, Times(c.heads, c.headDim)) && h < c.heads
    requires Shaped(cos, 1, 1, x.d2, c.headDim) && Shaped(sin, 1, 1, x.d2, c.headDim)
    ensures FilterOk(HeadQuery(c, q, h).proj, c.hidden, c.headDim)
    ensures Head(MhaQuery(a, c, q, x, cos, sin), h) == ShaQuery(a, c, HeadQuery(c, q, h), x, cos, sin)
  {
    hide Head, Conv, HeadFilter, Project, Rotary, AfterProjection;
    HeadOfProject(a, q.proj, q.post, x, c.heads, c.headDim, h);
    HeadRotary(a, q.rope, Project(a, q.proj, q.post, x, c.heads, c.headDim), cos, sin, h);
  }

  /** The keys of the multi-head form before they are quantized to 8 bits. */
  function MhaRotatedKeys<T>(a: Arith<T>, c: Config, kv: KvParams<T>, x: Tensor<T>, cos: Tensor<T>, sin: Tensor<T>): (r: Tensor<T>)
    requires c.Valid() && Shaped(x, 1, 1, x.d2, c.hidden) && FilterOk(kv.kProj, c.hidden, Times(c.kvHeads, c.headDim))
    requires Shaped(cos, 1, 1, x.d2, c.headDim) && Shaped(sin, 1, 1, x.d2, c.headDim)
    ensures Shaped(r, 1, c.kvHeads, x.d2, c.headDim)
  {
    Rotary(a, kv.kRope, Project(a, kv.kProj, kv.kPost, x, c.kvHeads, c.headDim), cos, sin)
  }

  lemma HeadOfKey<T>(a: Arith<T>, c: Config, kv: KvParams<T>, x: Tensor<T>, cos: Tensor<T>, sin: Tensor<T>, direct: bool, h: nat)
    requires c.Valid() && Shaped(x, 1, 1, x.d2, c.hidden) && FilterOk(kv.kProj, c.hidden, Times(c.kvHeads, c.headDim)) && h < c.kvHeads
    requires FilterOk(kv.vProj, c.hidden, Times(c.kvHeads, c.headDim))
    requires Shaped(cos, 1, 1, x.d2, c.headDim) && Shaped(sin, 1, 1, x.d2, c.headDim)
    ensures FilterOk(HeadKv(c, kv, h).kProj, c.hidden, c.headDim)
    ensures Head(Transpose23(ToInt8(a, kv.kInt8, direct, MhaRotatedKeys(a, c, kv, x, cos, sin))), h)
            == ShaKey(a, c, HeadKv(c, kv, h), direct, x, cos, sin)
  {
    hide Head, Conv, HeadFilter, Project, Rotary, AfterProjection, ToInt8;
    HeadOfProject(a, kv.kProj, kv.kPost, x, c.kvHeads, c.headDim, h);
    HeadRotary(a, kv.kRope, Project(a, kv.kProj, kv.kPost, x, c.kvHeads, c.headDim), cos, sin, h);
    var k := MhaRotatedKeys(a, c, kv, x, cos, sin);
    HeadToInt8(a, kv.kInt8, direct, k, h);
    HeadTranspose23(ToInt8(a, kv.kInt8, direct, k), h);
  }

  /** The values of the multi-head form before they are quantized to 8 bits. */
  function MhaWideValues<T>(a: Arith<T>, c: Config, kv: KvParams<T>, x: Tensor<T>): (r: Tensor<T>)
    requires c.Valid() && Shaped(x, 1, 1, x.d2, c.hidden) && FilterOk(kv.vProj, c.hidden, Times(c.kvHeads, c.headDim))
    ensures Shaped(r, 1, c.kvHeads, x.d2, c.headDim)
  {
    Qdq(a, kv.vInt16, SplitHeads(Conv(a, x, kv.vProj), c.kvHeads, c.headDim))
  }

  lemma HeadOfValue<T>(a: Arith<T>, c: Config, kv: KvParams<T>, x: Tensor<T>, direct: bool, h: nat)
    requires c.Valid() && Shaped(x, 1, 1, x.d2, c.hidden) && FilterOk(kv.vProj, c.hidden, Times(c.kvHeads, c.headDim)) && h < c.kvHeads
    requires FilterOk(kv.kProj, c.hidden, Times(c.kvHeads, c.headDim))
    ensures FilterOk(HeadKv(c, kv, h).vProj, c.hidden, c.headDim)
    ensures Head(ToInt8(a, kv.vInt8, direct, MhaWideValues(a, c, kv, x)), h) == ShaValue(a, c, HeadKv(c, kv, h), direct, x)
  {
    hide Head, HeadFilter, ToInt8, SplitHeads, Qdq;
    HeadOfConv(a, x, kv.vProj, c.kvHeads, c.headDim, h);
    HeadQdq(a, kv.vInt16, SplitHeads(Conv(a, x, kv.vProj), c.kvHeads, c.headDim), h);
    HeadToInt8(a, kv.vInt8, direct, MhaWideValues(a, c, kv, x), h);
  }

  // ---- the forward pass -----------------------------------------------------------------------------------

  /** The attention of query head `h`, over the cache of the key and value head that its group shares. */
  function ShaHead<T>(a: Arith<T>, c: Config, m: Common<T>, q: QueryParams<T>, kv: KvParams<T>, direct: bool, inp: Inputs<T>, h: nat): (r: Tensor<T>)
    requires InputsOk(c, inp) && h < c.heads && FilterOk(q.proj, c.hidden, c.headDim)
    requires FilterOk(kv.kProj, c.hidden, c.headDim) && FilterOk(kv.vProj, c.hidden, c.headDim)
    ensures Shaped(r, 1, 1, inp.hidden.d2, c.headDim)
  {
    GroupBelow(c, h);
    var x, g := Qdq(a, m.input, inp.hidden), Rest(h, c.Groups());
    var kh := Concat3(Head(inp.pastKey, g), ShaKey(a, c, kv, direct, x, inp.cos, inp.sin));
    var vh := Concat2(Head(inp.pastValue, g), ShaValue(a, c, kv, direct, x));
    Attend(a, q.attn, m.zero, inp.mask, ShaQuery(a, c, q, x, inp.cos, inp.sin), kh, vh)
  }

  lemma GroupBelow(c: Config, h: nat)
    requires c.Valid() && h < c.heads
    ensures c.Groups() > 0 && Rest(h, c.Groups()) < c.kvHeads
  {
    GroupsCover(c);
    DigitsJoin(h, c.kvHeads, c.Groups());
  }

  function ShaKeys<T>(a: Arith<T>, c: Config, kvs: seq<KvParams<T>>, direct: bool, inp: Inputs<T>, x: Tensor<T>): (r: seq<Tensor<T>>)
    requires InputsOk(c, inp) && Shaped(x, 1, 1, inp.hidden.d2, c.hidden) && |kvs| == c.kvHeads
    requires forall h :: 0 <= h < |kvs| ==> FilterOk(kvs[h].kProj, c.hidden, c.headDim)
    ensures |r| == c.kvHeads && forall h :: 0 <= h < |r| ==> Shaped(r[h], 1, 1, c.headDim, x.d2)
    ensures forall h :: 0 <= h < |r| ==> r[h] == ShaKey(a, c, kvs[h], direct, x, inp.cos, inp.sin)
  {
    seq(c.kvHeads, h requires 0 <= h < c.kvHeads => ShaKey(a, c, kvs[h], direct, x, inp.cos, inp.sin))
  }

  function ShaValues<T>(a: Arith<T>, c: Config, kvs: seq<KvParams<T>>, direct: bool, inp: Inputs<T>, x: Tensor<T>): (r: seq<Tensor<T>>)
    requires InputsOk(c, inp) && Shaped(x, 1, 1, inp.hidden.d2, c.hidden) && |kvs| == c.kvHeads
    requires forall h :: 0 <= h < |kvs| ==> FilterOk(kvs[h].vProj, c.hidden, c.headDim)
    ensures |r| == c.kvHeads && forall h :: 0 <= h < |r| ==> Shaped(r[h], 1, 1, x.d2, c.headDim)
    ensures forall h :: 0 <= h < |r| ==> r[h] == ShaValue(a, c, kvs[h], direct, x)
  {
    seq(c.kvHeads, h requires 0 <= h < c.kvHeads => ShaValue(a, c, kvs[h], direct, x))
  }

  function ShaHeads<T>(a: Arith<T>, c: Config, m: Common<T>, qs: seq<QueryParams<T>>, kvs: seq<KvParams<T>>, direct: bool, inp: Inputs<T>): (r: seq<Tensor<T>>)
    requires InputsOk(c, inp) && HeadParamsOk(c, m, qs, kvs)
    ensures |r| == c.heads && forall h :: 0 <= h < |r| ==> Shaped(r[h], 1, 1, inp.hidden.d2, c.headDim)
    ensures forall h :: 0 <= h < |r| ==>
              Rest(h, c.Groups()) < c.kvHeads && r[h] == ShaHead(a, c, m, qs[h], kvs[Rest(h, c.Groups())], direct, inp, h)
  {
    assert forall h: nat :: h < c.heads ==> Rest(h, c.Groups()) < c.kvHeads by {
      forall h: nat | h < c.heads ensures Rest(h, c.Groups()) < c.kvHeads { GroupBelow(c, h); }
    }
    seq(c.heads, h requires 0 <= h < c.heads => ShaHead(a, c, m, qs[h], kvs[Rest(h, c.Groups())], direct, inp, h))
  }

  lemma SlabsOf<T>(ts: seq<Tensor<T>>, d2: nat, d3: nat)
    requires ts != [] && forall h :: 0 <= h < |ts| ==> Shaped(ts[h], 1, 1, d2, d3)
    ensures Slabs(ts) && Shaped(Concat1(ts), 1, |ts|, d2, d3)
  {
  }

  /** The per-head form: every head on its own, then concatenated. */
  function ShaOutputs<T>(a: Arith<T>, c: Config, m: Common<T>, qs: seq<QueryParams<T>>, kvs: seq<KvParams<T>>, direct: bool, inp: Inputs<T>): Outputs<T>
    requires InputsOk(c, inp) && HeadParamsOk(c, m, qs, kvs)
  {
    var x := Qdq(a, m.input, inp.hidden);
    var heads, keys, values := ShaHeads(a, c, m, qs, kvs, direct, inp), ShaKeys(a, c, kvs, direct, inp, x), ShaValues(a, c, kvs, direct, inp, x);
    SlabsOf(heads, inp.hidden.d2, c.headDim);
    SlabsOf(keys, c.headDim, inp.hidden.d2);
    SlabsOf(values, inp.hidden.d2, c.headDim);
    Outputs(Output(a, c, m, Concat1(heads)), Concat1(keys), Concat1(values))
  }

  // ---- the two forms agree ----------------------------------------------------------------------------------

  /** The multi-head form with the 8-bit quantization done the per-head form's way. */
  function MhaOutputs<T>(a: Arith<T>, c: Config, m: Common<T>, q: QueryParams<T>, kv: KvParams<T>, direct: bool, inp: Inputs<T>): Outputs<T>
    requires InputsOk(c, inp) && ParamsOk(c, m, q, kv)
  {
    GroupsCover(c);
    var x := Qdq(a, m.input, inp.hidden);
    var query := MhaQuery(a, c, q, x, inp.cos, inp.sin);
    var key := Transpose23(ToInt8(a, kv.kInt8, direct, MhaRotatedKeys(a, c, kv, x, inp.cos, inp.sin)));
    var value := ToInt8(a, kv.vInt8, direct, MhaWideValues(a, c, kv, x));
    var kh := Repeat1(Concat3(inp.pastKey, key), c.Groups());
    var vh := Repeat1(Concat2(inp.pastValue, value), c.Groups());
    Outputs(Output(a, c, m, Attend(a, q.attn, m.zero, inp.mask, query, kh, vh)), key, value)
  }

  lemma MhaIs<T>(a: Arith<T>, c: Config, m: Common<T>, q: QueryParams<T>, kv: KvParams<T>, inp: Inputs<T>)
    requires InputsOk(c, inp) && ParamsOk(c, m, q, kv)
    ensures MhaOutputs(a, c, m, q, kv, false, inp) == MhaForward(a, c, m, q, kv, inp)
  {
    hide Attend, Weights, Output, Rotary, Project, ToInt8, Qdq, Repeat1, Concat2, Concat3, Transpose23;
  }

  /** Head `h` of the multi-head attention is what the per-head form computes for head `h`. */
  lemma HeadOfAttention<T>(a: Arith<T>, c: Config, m: Common<T>, q: QueryParams<T>, kv: KvParams<T>, direct: bool, inp: Inputs<T>, x: Tensor<T>,
                           query: Tensor<T>, key: Tensor<T>, value: Tensor<T>, h: nat)
    requires InputsOk(c, inp) && ParamsOk(c, m, q, kv) && x == Qdq(a, m.input, inp.hidden) && h < c.heads
    requires query == MhaQuery(a, c, q, x, inp.cos, inp.sin)
    requires key == Transpose23(ToInt8(a, kv.kInt8, direct, MhaRotatedKeys(a, c, kv, x, inp.cos, inp.sin)))
    requires value == ToInt8(a, kv.vInt8, direct, MhaWideValues(a, c, kv, x))
    ensures c.Groups() > 0 && Times(c.kvHeads, c.Groups()) == c.heads && Rest(h, c.Groups()) < c.kvHeads
    ensures FilterOk(HeadQuery(c, q, h).proj, c.hidden, c.headDim)
    ensures var kvh := HeadKv(c, kv, Rest(h, c.Groups()));
            FilterOk(kvh.kProj, c.hidden, c.headDim) && FilterOk(kvh.vProj, c.hidden, c.headDim)
    ensures Head(Attend(a, q.attn, m.zero, inp.mask, query, Repeat1(Concat3(inp.pastKey, key), c.Groups()), Repeat1(Concat2(inp.pastValue, value), c.Groups())), h)
            == ShaHead(a, c, m, HeadQuery(c, q, h), HeadKv(c, kv, Rest(h, c.Groups())), direct, inp, h)
  {
    hide Head, Conv, HeadFilter, Project, Rotary, AfterProjection, ToInt8, Attend, Weights, MhaQuery, MhaRotatedKeys, MhaWideValues, Qdq, Rest, ShaKey, ShaValue, ShaQuery;
    GroupsCover(c);
    GroupBelow(c, h);
    var g := Rest(h, c.Groups());
    var kh, vh := Concat3(inp.pastKey, key), Concat2(inp.pastValue, value);
    HeadAttend(a, q.attn, m.zero, inp.mask, query, Repeat1(kh, c.Groups()), Repeat1(vh, c.Groups()), h);
    HeadRepeat1(kh, c.Groups(), h);
    HeadRepeat1(vh, c.Groups(), h);
    HeadConcat3(inp.pastKey, key, g);
    HeadConcat2(inp.pastValue, value, g);
    HeadOfQuery(a, c, q, x, inp.cos, inp.sin, h);
    HeadOfKey(a, c, kv, x, inp.cos, inp.sin, direct, g);
    HeadOfValue(a, c, kv, x, direct, g);
  }

  /** Splitting the parameters by head keeps what the forward pass returns. */
  lemma ShaIsMha<T>(a: Arith<T>, c: Config, m: Common<T>, q: QueryParams<T>, kv: KvParams<T>, qs: seq<QueryParams<T>>, kvs: seq<KvParams<T>>,
                    direct: bool, inp: Inputs<T>)
    requires InputsOk(c, inp) && ParamsOk(c, m, q, kv) && SplitOf(c, q, kv, qs, kvs)
    ensures HeadParamsOk(c, m, qs, kvs)
    ensures ShaOutputs(a, c, m, qs, kvs, direct, inp) == MhaOutputs(a, c, m, q, kv, direct, inp)
  {
    hide Head, Conv, HeadFilter, Project, Rotary, AfterProjection, ToInt8, Attend, Weights, MhaQuery, MhaRotatedKeys, MhaWideValues, Qdq, Rest, ShaKey, ShaValue, ShaQuery, ShaHead, Output, Concat1, Slabs, HeadQuery, HeadKv;
    SplitOk(c, m, q, kv, qs, kvs);
    GroupsCover(c);
    var x := Qdq(a, m.input, inp.hidden);
    var query := MhaQuery(a, c, q, x, inp.cos, inp.sin);
    var key := Transpose23(ToInt8(a, kv.kInt8, direct, MhaRotatedKeys(a, c, kv, x, inp.cos, inp.sin)));
    var value := ToInt8(a, kv.vInt8, direct, MhaWideValues(a, c, kv, x));
    var kh, vh := Repeat1(Concat3(inp.pastKey, key), c.Groups()), Repeat1(Concat2(inp.pastValue, value), c.Groups());
    var y := Attend(a, q.attn, m.zero, inp.mask, query, kh, vh);
    var keys, values, heads := ShaKeys(a, c, kvs, direct, inp, x), ShaValues(a, c, kvs, direct, inp, x), ShaHeads(a, c, m, qs, kvs, direct, inp);
    forall h | 0 <= h < c.kvHeads ensures keys[h] == Head(key, h) { HeadOfKey(a, c, kv, x, inp.cos, inp.sin, direct, h); }
    forall h | 0 <= h < c.kvHeads ensures values[h] == Head(value, h) { HeadOfValue(a, c, kv, x, direct, h); }
    forall h | 0 <= h < c.heads ensures heads[h] == Head(y, h) { HeadOfAttention(a, c, m, q, kv, direct, inp, x, query, key, value, h); }
    ConcatHeads(key, keys);
    ConcatHeads(value, values);
    ConcatHeads(y, heads);
  }

  /** For every element of `t`, quantizing by way of a float and directly give the same 8-bit value. */
  ghost predicate CastsAgree<T>(a: Arith<T>, scale: Tensor<T>, t: Tensor<T>)
    requires t.WF()
  {
    forall i: nat, j: nat, k: nat, l: nat :: t.Has(i, j, k, l) ==>
      var x := At(t, i, j, k, l);
      a.fakeQuantKv(scale, a.toU8(a.toF32(x))) == a.fakeQuantKv(scale, a.toU8(x))
  }

  lemma ToInt8Agree<T>(a: Arith<T>, scale: Tensor<T>, t: Tensor<T>)
    requires t.WF()
    ensures ToInt8(a, scale, true, t) == ToInt8(a, scale, false, t) <==> CastsAgree(a, scale, t)
  {
    hide At;
    var u, v := ToInt8(a, scale, true, t), ToInt8(a, scale, false, t);
    forall i: nat, j: nat, k: nat, l: nat | t.Has(i, j, k, l)
      ensures At(u, i, j, k, l) == a.fakeQuantKv(scale, a.toU8(At(t, i, j, k, l)))
      ensures At(v, i, j, k, l) == a.fakeQuantKv(scale, a.toU8(a.toF32(At(t, i, j, k, l))))
    {
      assert Map(a.toF32, t).Has(i, j, k, l);
    }
    if CastsAgree(a, scale, t) { Extensional(u, v); }
  }

  lemma TransposeInjective<T>(s: Tensor<T>, t: Tensor<T>)
    requires s.WF() && t.WF() && SameShape(s, t) && Transpose23(s) == Transpose23(t)
    ensures s == t
  {
    hide At;
    forall i: nat, j: nat, k: nat, l: nat | s.Has(i, j, k, l) ensures At(s, i, j, k, l) == At(t, i, j, k, l) {
      assert At(Transpose23(s), i, j, l, k) == At(s, i, j, k, l) && At(Transpose23(t), i, j, l, k) == At(t, i, j, k, l);
    }
    Extensional(s, t);
  }

  /** The per-head form that quantizes by way of a float, as Llama's does, returns what the multi-head form returns. */
  lemma LlamaShaIsMha<T>(a: Arith<T>, c: Config, m: Common<T>, q: QueryParams<T>, kv: KvParams<T>,
                         qs: seq<QueryParams<T>>, kvs: seq<KvParams<T>>, inp: Inputs<T>)
    requires InputsOk(c, inp) && ParamsOk(c, m, q, kv) && SplitOf(c, q, kv, qs, kvs)
    ensures HeadParamsOk(c, m, qs, kvs)
    ensures ShaOutputs(a, c, m, qs, kvs, false, inp) == MhaForward(a, c, m, q, kv, inp)
  {
    hide ShaOutputs, MhaOutputs, MhaForward;
    ShaIsMha(a, c, m, q, kv, qs, kvs, false, inp);
    MhaIs(a, c, m, q, kv, inp);
  }

  /**
    The per-head form that quantizes directly, as Qwen3's does, returns what the multi-head form
    returns exactly when the two ways of quantizing agree on the keys and values of this pass.
   */
  lemma Qwen3ShaIsMha<T>(a: Arith<T>, c: Config, m: Common<T>, q: QueryParams<T>, kv: KvParams<T>,
                         qs: seq<QueryParams<T>>, kvs: seq<KvParams<T>>, inp: Inputs<T>)
    requires InputsOk(c, inp) && ParamsOk(c, m, q, kv) && SplitOf(c, q, kv, qs, kvs)
    ensures HeadParamsOk(c, m, qs, kvs)
    ensures var x := Qdq(a, m.input, inp.hidden);
            ShaOutputs(a, c, m, qs, kvs, true, inp) == MhaForward(a, c, m, q, kv, inp) <==>
              CastsAgree(a, kv.kInt8, MhaRotatedKeys(a, c, kv, x, inp.cos, inp.sin)) && CastsAgree(a, kv.vInt8, MhaWideValues(a, c, kv, x))
  {
    hide ShaOutputs, MhaForward, Attend, Weights, Output, ToInt8, CastsAgree, MhaRotatedKeys, MhaWideValues, Repeat1, Concat2, Concat3, Transpose23, Qdq, MhaQuery;
    ShaIsMha(a, c, m, q, kv, qs, kvs, true, inp);
    MhaIs(a, c, m, q, kv, inp);
    var x := Qdq(a, m.input, inp.hidden);
    var k, v := MhaRotatedKeys(a, c, kv, x, inp.cos, inp.sin), MhaWideValues(a, c, kv, x);
    ToInt8Agree(a, kv.kInt8, k);
    ToInt8Agree(a, kv.vInt8, v);
    if Transpose23(ToInt8(a, kv.kInt8, true, k)) == Transpose23(ToInt8(a, kv.kInt8, false, k)) {
      TransposeInjective(ToInt8(a, kv.kInt8, true, k), ToInt8(a, kv.kInt8, false, k));
    }
  }

  // ---- the loops ---------------------------------------------------------------------------------------------

  lemma ParamsOf<T>(c: Config, m: Common<T>, qs: seq<QueryParams<T>>, kvs: seq<KvParams<T>>)
    requires HeadParamsOk(c, m, qs, kvs)
    ensures c.Valid() && |qs| == c.heads && |kvs| == c.kvHeads
    ensures forall h :: 0 <= h < |kvs| ==> FilterOk(kvs[h].kProj, c.hidden, c.headDim) && FilterOk(kvs[h].vProj, c.hidden, c.headDim)
  {
  }

  /** One projection per head, then, in place, what follows up to the rotary embedding. */
  method RotatedQueries<T>(a: Arith<T>, c: Config, m: Common<T>, qs: seq<QueryParams<T>>, kvs: seq<KvParams<T>>, inp: Inputs<T>, x: Tensor<T>)
    returns (states: seq<Tensor<T>>)
    requires InputsOk(c, inp) && HeadParamsOk(c, m, qs, kvs) && Shaped(x, 1, 1, inp.hidden.d2, c.hidden)
    ensures |states| == c.heads && forall h :: 0 <= h < c.heads ==> states[h] == ShaQuery(a, c, qs[h], x, inp.cos, inp.sin)
  {
    hide Projected, AfterProjection, Rotary, FilterOk;
    states := [];
    for h := 0 to c.heads
      invariant |states| == h && forall j :: 0 <= j < h ==> states[j] == Projected(a, c, qs[j].proj, x)
    {
      states := states + [Projected(a, c, qs[h].proj, x)];
    }
    for h := 0 to c.heads
      invariant |states| == c.heads
      invariant forall j :: 0 <= j < h ==> states[j] == ShaQuery(a, c, qs[j], x, inp.cos, inp.sin)
      invariant forall j :: h <= j < c.heads ==> states[j] == Projected(a, c, qs[j].proj, x)
    {
      states := states[h := AfterProjection(a, qs[h].post, states[h])];
      states := states[h := Rotary(a, qs[h].rope, states[h], inp.cos, inp.sin)];
    }
  }

  /** The same for the keys. */
  method RotatedKeys<T>(a: Arith<T>, c: Config, m: Common<T>, qs: seq<QueryParams<T>>, kvs: seq<KvParams<T>>, inp: Inputs<T>, x: Tensor<T>)
    returns (states: seq<Tensor<T>>)
    requires InputsOk(c, inp) && HeadParamsOk(c, m, qs, kvs) && Shaped(x, 1, 1, inp.hidden.d2, c.hidden)
    ensures |states| == c.kvHeads && forall h :: 0 <= h < c.kvHeads ==> states[h] == ShaRotatedKey(a, c, kvs[h], x, inp.cos, inp.sin)
  {
    hide Projected, AfterProjection, Rotary, FilterOk;
    states := [];
    for h := 0 to c.kvHeads
      invariant |states| == h && forall j :: 0 <= j < h ==> states[j] == Projected(a, c, kvs[j].kProj, x)
    {
      states := states + [Projected(a, c, kvs[h].kProj, x)];
    }
    for h := 0 to c.kvHeads
      invariant |states| == c.kvHeads
      invariant forall j :: 0 <= j < h ==> states[j] == ShaRotatedKey(a, c, kvs[j], x, inp.cos, inp.sin)
      invariant forall j :: h <= j < c.kvHeads ==> states[j] == Projected(a, c, kvs[j].kProj, x)
    {
      states := states[h := AfterProjection(a, kvs[h].kPost, states[h])];
      states := states[h := Rotary(a, kvs[h].kRope, states[h], inp.cos, inp.sin)];
    }
  }

  method ValueStates<T>(a: Arith<T>, c: Config, m: Common<T>, qs: seq<QueryParams<T>>, kvs: seq<KvParams<T>>, inp: Inputs<T>, x: Tensor<T>)
    returns (states: seq<Tensor<T>>)
    requires InputsOk(c, inp) && HeadParamsOk(c, m, qs, kvs) && Shaped(x, 1, 1, inp.hidden.d2, c.hidden)
    ensures |states| == c.kvHeads && forall h :: 0 <= h < c.kvHeads ==> states[h] == Projected(a, c, kvs[h].vProj, x)
  {
    hide Projected, FilterOk;
    states := [];
    for h := 0 to c.kvHeads
      invariant |states| == h && forall j :: 0 <= j < h ==> states[j] == Projected(a, c, kvs[j].vProj, x)
    {
      states := states + [Projected(a, c, kvs[h].vProj, x)];
    }
  }

  /** The cache of one key and value head: what was cached, then what is new. */
  function KeyCache<T>(c: Config, inp: Inputs<T>, key: Tensor<T>, h: nat): (r: Tensor<T>)
    requires InputsOk(c, inp) && h < c.kvHeads && Shaped(key, 1, 1, c.headDim, inp.hidden.d2)
    ensures Shaped(r, 1, 1, c.headDim, inp.pastKey.d3 + inp.hidden.d2)
  {
    Concat3(Head(inp.pastKey, h), key)
  }

  function ValueCache<T>(c: Config, inp: Inputs<T>, value: Tensor<T>, h: nat): (r: Tensor<T>)
    requires InputsOk(c, inp) && h < c.kvHeads && Shaped(value, 1, 1, inp.hidden.d2, c.headDim)
    ensures Shaped(r, 1, 1, inp.pastKey.d3 + inp.hidden.d2, c.headDim)
  {
    Concat2(Head(inp.pastValue, h), value)
  }

  /** Quantize the new key and value of one head, and append them to the cached ones. */
  method CacheHead<T>(a: Arith<T>, c: Config, kv: KvParams<T>, direct: bool, inp: Inputs<T>, h: nat, keyState: Tensor<T>, valueState: Tensor<T>)
    returns (k: Tensor<T>, v: Tensor<T>, kc: Tensor<T>, vc: Tensor<T>)
    requires InputsOk(c, inp) && h < c.kvHeads
    requires Shaped(keyState, 1, 1, inp.hidden.d2, c.headDim) && Shaped(valueState, 1, 1, inp.hidden.d2, c.headDim)
    ensures k == Transpose23(ToInt8(a, kv.kInt8, direct, keyState)) && v == ToInt8(a, kv.vInt8, direct, Qdq(a, kv.vInt16, valueState))
    ensures Shaped(k, 1, 1, c.headDim, inp.hidden.d2) && kc == KeyCache(c, inp, k, h)
    ensures Shaped(v, 1, 1, inp.hidden.d2, c.headDim) && vc == ValueCache(c, inp, v, h)
  {
    hide ToInt8, Qdq;
    k := Transpose23(ToInt8(a, kv.kInt8, direct, keyState));
    v := ToInt8(a, kv.vInt8, direct, Qdq(a, kv.vInt16, valueState));
    kc := Concat3(Head(inp.pastKey, h), k);
    vc := Concat2(Head(inp.pastValue, h), v);
  }

  method Caches<T>(a: Arith<T>, c: Config, m: Common<T>, qs: seq<QueryParams<T>>, kvs: seq<KvParams<T>>, direct: bool, inp: Inputs<T>, x: Tensor<T>,
                   keyStates: seq<Tensor<T>>, valueStates: seq<Tensor<T>>)
    returns (keys: seq<Tensor<T>>, values: seq<Tensor<T>>, keyCaches: seq<Tensor<T>>, valueCaches: seq<Tensor<T>>)
    requires InputsOk(c, inp) && HeadParamsOk(c, m, qs, kvs) && Shaped(x, 1, 1, inp.hidden.d2, c.hidden)
    requires |keyStates| == c.kvHeads && forall h :: 0 <= h < c.kvHeads ==> keyStates[h] == ShaRotatedKey(a, c, kvs[h], x, inp.cos, inp.sin)
    requires |valueStates| == c.kvHeads && forall h :: 0 <= h < c.kvHeads ==> valueStates[h] == Projected(a, c, kvs[h].vProj, x)
    ensures keys == ShaKeys(a, c, kvs, direct, inp, x) && values == ShaValues(a, c, kvs, direct, inp, x)
    ensures |keyCaches| == |valueCaches| == c.kvHeads
    ensures forall h :: 0 <= h < c.kvHeads ==> keyCaches[h] == KeyCache(c, inp, keys[h], h) && valueCaches[h] == ValueCache(c, inp, values[h], h)
  {
    hide Projected, FilterOk, ToInt8, Qdq, Concat2, Concat3, ShaRotatedKey, Head, ShaKeys, ShaValues, Transpose23, InputsOk, HeadParamsOk, KeyCache, ValueCache, Tensor.WF, SameShape;
    ParamsOf(c, m, qs, kvs);
    ghost var ks, vs := ShaKeys(a, c, kvs, direct, inp, x), ShaValues(a, c, kvs, direct, inp, x);
    keys, values, keyCaches, valueCaches := [], [], [], [];
    for h := 0 to c.kvHeads
      invariant keys == ks[..h] && values == vs[..h] && |keyCaches| == |valueCaches| == h
      invariant forall j :: 0 <= j < h ==> keyCaches[j] == KeyCache(c, inp, ks[j], j)
      invariant forall j :: 0 <= j < h ==> valueCaches[j] == ValueCache(c, inp, vs[j], j)
    {
      var k, v, kc, vc := CacheHead(a, c, kvs[h], direct, inp, h, keyStates[h], valueStates[h]);
      keys, values, keyCaches, valueCaches := keys + [k], values + [v], keyCaches + [kc], valueCaches + [vc];
    }
  }

  /** Attention for each query head, over the cache that its group shares. */
  method AttendHeads<T>(a: Arith<T>, c: Config, m: Common<T>, qs: seq<QueryParams<T>>, kvs: seq<KvParams<T>>, direct: bool, inp: Inputs<T>,
                        queries: seq<Tensor<T>>, keyCaches: seq<Tensor<T>>, valueCaches: seq<Tensor<T>>)
    returns (outputs: seq<Tensor<T>>)
    requires InputsOk(c, inp) && HeadParamsOk(c, m, qs, kvs)
    requires var x := Qdq(a, m.input, inp.hidden);
             && |queries| == c.heads && (forall h :: 0 <= h < c.heads ==> queries[h] == ShaQuery(a, c, qs[h], x, inp.cos, inp.sin))
             && |keyCaches| == |valueCaches| == c.kvHeads
             && (forall h :: 0 <= h < c.kvHeads ==> keyCaches[h] == KeyCache(c, inp, ShaKeys(a, c, kvs, direct, inp, x)[h], h))
             && (forall h :: 0 <= h < c.kvHeads ==> valueCaches[h] == ValueCache(c, inp, ShaValues(a, c, kvs, direct, inp, x)[h], h))
    ensures outputs == ShaHeads(a, c, m, qs, kvs, direct, inp)
  {
    hide FilterOk, Qdq, Concat2, Concat3, ShaQuery, ShaKey, ShaValue, Head, Attend, Weights, Rest;
    outputs := [];
    for h := 0 to c.heads
      invariant outputs == ShaHeads(a, c, m, qs, kvs, direct, inp)[..h]
    {
      GroupBelow(c, h);
      var g := Rest(h, c.Groups());
      outputs := outputs + [Attend(a, qs[h].attn, m.zero, inp.mask, queries[h], keyCaches[g], valueCaches[g])];
    }
  }

  /** The forward pass of the per-head attention. */
  method Forward<T>(a: Arith<T>, c: Config, m: Common<T>, qs: seq<QueryParams<T>>, kvs: seq<KvParams<T>>, direct: bool, inp: Inputs<T>)
    returns (out: Outputs<T>)
    requires InputsOk(c, inp) && HeadParamsOk(c, m, qs, kvs)
    ensures out == ShaOutputs(a, c, m, qs, kvs, direct, inp)
  {
    hide FilterOk, ShaKey, ShaValue, ShaQuery, ShaHead, Head, Attend, Weights, Qdq, KeyCache, ValueCache, Projected, ShaRotatedKey, ShaHeads, ShaKeys, ShaValues;
    var x := Qdq(a, m.input, inp.hidden);
    var queries := RotatedQueries(a, c, m, qs, kvs, inp, x);
    var keyStates := RotatedKeys(a, c, m, qs, kvs, inp, x);
    var valueStates := ValueStates(a, c, m, qs, kvs, inp, x);
    var keys, values, keyCaches, valueCaches := Caches(a, c, m, qs, kvs, direct, inp, x, keyStates, valueStates);
    var outputs := AttendHeads(a, c, m, qs, kvs, direct, inp, queries, keyCaches, valueCaches);
    SlabsOf(outputs, inp.hidden.d2, c.headDim);
    SlabsOf(keys, c.headDim, inp.hidden.d2);
    SlabsOf(values, inp.hidden.d2, c.headDim);
    out := Outputs(Output(a, c, m, Concat1(outputs)), Concat1(keys), Concat1(values));
  }

  /** The forward pass over split parameters returns what the multi-head form returns over the whole ones. */
  method ForwardOverSplit<T>(a: Arith<T>, c: Config, m: Common<T>, ghost q: QueryParams<T>, ghost kv: KvParams<T>,
                             qs: seq<QueryParams<T>>, kvs: seq<KvParams<T>>, inp: Inputs<T>)
    returns (out: Outputs<T>)
    requires InputsOk(c, inp) && ParamsOk(c, m, q, kv) && SplitOf(c, q, kv, qs, kvs)
    ensures out == MhaForward(a, c, m, q, kv, inp)
  {
    hide ShaOutputs, MhaForward, SplitOf, ParamsOk;
    LlamaShaIsMha(a, c, m, q, kv, qs, kvs, inp);
    out := Forward(a, c, m, qs, kvs, false, inp);
  }
}
