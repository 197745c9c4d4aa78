/**
  The two ways of quantizing keys and values to 8 bits: by way of a 32-bit float, as the multi-head forms do, and
  directly, as Qwen3's per-head form does.  When they can be exchanged for every input is a question about scalars.
 */
module ShaCasts {
  import opened Positions
  import opened Tensors
  import opened TensorHeads
  import opened ShaAttention
  import opened ShaTheorem
  import opened ShaForward
  import opened ShaSamples

  /** Both ways give the same on this scalar. */
  predicate CastsAgreeOn<T(==)>(a: Arith<T>, scale: Tensor<T>, x: T) {
    a.fakeQuantKv(scale, a.toU8(a.toF32(x))) == a.fakeQuantKv(scale, a.toU8(x))
  }

  ghost predicate CastsAlwaysAgree<T(!new)>(a: Arith<T>, scale: Tensor<T>) { forall x: T :: CastsAgreeOn(a, scale, x) }

  /** Where the two ways agree on all scalars, for both scales, quantizing directly is right for every input and cache. */
  lemma Qwen3AlwaysMha<T(!new)>(a: Arith<T>, c: Config, m: Common<T>, q: QueryParams<T>, kv: KvParams<T>,
                                qs: seq<QueryParams<T>>, kvs: seq<KvParams<T>>, inp: Inputs<T>)
    requires InputsOk(c, inp) && ParamsOk(c, m, q, kv) && SplitOf(c, q, kv, qs, kvs)
    requires CastsAlwaysAgree(a, kv.kInt8) && CastsAlwaysAgree(a, kv.vInt8)
    ensures HeadParamsOk(c, m, qs, kvs)
    ensures ShaOutputs(a, c, m, qs, kvs, true, inp) == MhaForward(a, c, m, q, kv, inp)
  {
    hide ShaOutputs, MhaForward, MhaRotatedKeys, MhaWideValues, SplitOf, HeadParamsOk, CastsAlwaysAgree, CastsAgreeOn, CastsAgree, FilterOk, Qdq;
    Qwen3ShaIsMha(a, c, m, q, kv, qs, kvs, inp);
    var x := Qdq(a, m.input, inp.hidden);
    ScalarsDecide(a, kv.kInt8, MhaRotatedKeys(a, c, kv, x, inp.cos, inp.sin));
    ScalarsDecide(a, kv.vInt8, MhaWideValues(a, c, kv, x));
  }

  lemma ScalarsDecide<T(!new)>(a: Arith<T>, scale: Tensor<T>, t: Tensor<T>)
    requires t.WF() && CastsAlwaysAgree(a, scale)
    ensures CastsAgree(a, scale, t)
  {
    forall i: nat, j: nat, k: nat, l: nat | t.Has(i, j, k, l)
      ensures a.fakeQuantKv(scale, a.toU8(a.toF32(At(t, i, j, k, l)))) == a.fakeQuantKv(scale, a.toU8(At(t, i, j, k, l)))
    {
      assert CastsAgreeOn(a, scale, At(t, i, j, k, l));
    }
  }

  // ---- an input on which a scalar's two values are seen -------------------------------------------------------

  /** The same casts, with the rest of the arithmetic chosen so that all keys and values of a pass are `x`. */
  function Exposing<T>(a: Arith<T>, x: T): Arith<T> {
    a.(conv := (r, ch) => x, mul := (u, v) => u, add := (u, v) => u, fakeQuant := (q, u) => u)
  }

  lemma ProjectAt<T>(a: Arith<T>, x: T, f: Filter<T>, t: Tensor<T>, heads: nat, dim: nat)
    requires Shaped(t, 1, 1, t.d2, t.d3) && FilterOk(f, t.d3, Times(heads, dim)) && t.d2 > 0 && heads > 0 && dim > 0
    ensures At(SplitHeads(Conv(Exposing(a, x), t, f), heads, dim), 0, 0, 0, 0) == x
  {
    hide At, ChannelOf, Times;
    SplitAt(Conv(Exposing(a, x), t, f), heads, dim, 0, 0, 0);
  }

  lemma RotaryAt<T>(a: Arith<T>, x: T, r: Rope<T>, t: Tensor<T>, cos: Tensor<T>, sin: Tensor<T>)
    requires t.WF() && Shared(cos, t) && Shared(sin, t) && t.Has(0, 0, 0, 0)
    ensures At(Rotary(Exposing(a, x), r, t, cos, sin), 0, 0, 0, 0) == At(t, 0, 0, 0, 0)
  {
    hide At, RotateHalf;
  }

  /** On this pass a key and a value are `x` before they are quantized to 8 bits. */
  lemma ExposedAt<T>(a: Arith<T>, c: Config, x: T, kInt8: Tensor<T>, vInt8: Tensor<T>, t: Tensor<T>, cos: Tensor<T>, sin: Tensor<T>)
    requires c.Valid() && c.hidden > 0 && Times(c.kvHeads, c.headDim) > 0 && Shaped(t, 1, 1, t.d2, c.hidden) && t.d2 > 0
    requires Shaped(cos, 1, 1, t.d2, c.headDim) && Shaped(sin, 1, 1, t.d2, c.headDim)
    ensures var kv := PlainKv(c, x, kInt8, vInt8);
            && At(MhaRotatedKeys(Exposing(a, x), c, kv, t, cos, sin), 0, 0, 0, 0) == x
            && At(MhaWideValues(Exposing(a, x), c, kv, t), 0, 0, 0, 0) == x
  {
    hide At, PlainFilter, Conv, SplitHeads, Rotary, Times;
    var b, kv := Exposing(a, x), PlainKv(c, x, kInt8, vInt8);
    ProjectAt(a, x, kv.kProj, t, c.kvHeads, c.headDim);
    KeepsOut(a, x, Conv(b, t, kv.kProj));
    KeepsOut(a, x, SplitHeads(Conv(b, t, kv.vProj), c.kvHeads, c.headDim));
    RotaryAt(a, x, kv.kRope, Project(b, kv.kProj, kv.kPost, t, c.kvHeads, c.headDim), cos, sin);
  }

  lemma KeepsOut<T>(a: Arith<T>, x: T, t: Tensor<T>)
    requires t.WF()
    ensures Qdq(Exposing(a, x), NoQuant(), t) == t
  {
    hide At;
    Extensional(Qdq(Exposing(a, x), NoQuant(), t), t);
  }

  function QueriesOf<T>(c: Config, q: QueryParams<T>): seq<QueryParams<T>>
    requires FilterOk(q.proj, c.hidden, Times(c.heads, c.headDim))
  {
    seq(c.heads, h requires 0 <= h < c.heads => HeadQuery(c, q, h))
  }

  function KvsOf<T>(c: Config, kv: KvParams<T>): seq<KvParams<T>>
    requires FilterOk(kv.kProj, c.hidden, Times(c.kvHeads, c.headDim)) && FilterOk(kv.vProj, c.hidden, Times(c.kvHeads, c.headDim))
  {
    seq(c.kvHeads, h requires 0 <= h < c.kvHeads => HeadKv(c, kv, h))
  }

  /** A scalar on which the two ways differ makes some pass differ, in every configuration. */
  lemma DifferingPass<T(!new)>(a: Arith<T>, c: Config, kInt8: Tensor<T>, vInt8: Tensor<T>, x: T)
    requires c.Valid() && c.hidden > 0 && !(CastsAgreeOn(a, kInt8, x) && CastsAgreeOn(a, vInt8, x))
    ensures Times(c.heads, c.headDim) > 0 && Times(c.kvHeads, c.headDim) > 0
    ensures ParamsOk(c, PlainCommon(c, x), PlainQuery(c, x), PlainKv(c, x, kInt8, vInt8))
    ensures var b, m, q, kv, inp := Exposing(a, x), PlainCommon(c, x), PlainQuery(c, x), PlainKv(c, x, kInt8, vInt8),
                                    OneToken(c, x, Full(1, c.kvHeads, 1, c.headDim, x));
            && HeadParamsOk(c, m, QueriesOf(c, q), KvsOf(c, kv)) && SplitOf(c, q, kv, QueriesOf(c, q), KvsOf(c, kv))
            && ShaOutputs(b, c, m, QueriesOf(c, q), KvsOf(c, kv), true, inp) != MhaForward(b, c, m, q, kv, inp)
  {
    hide ShaOutputs, MhaForward, MhaRotatedKeys, MhaWideValues, HeadParamsOk, FilterOk, Times, HeadQuery, HeadKv, OneToken, At;
    PlainOk(c, x, kInt8, vInt8);
    var b, m, q, kv, inp := Exposing(a, x), PlainCommon(c, x), PlainQuery(c, x), PlainKv(c, x, kInt8, vInt8),
                            OneToken(c, x, Full(1, c.kvHeads, 1, c.headDim, x));
    Qwen3ShaIsMha(b, c, m, q, kv, QueriesOf(c, q), KvsOf(c, kv), inp);
    var t := Qdq(b, m.input, inp.hidden);
    ExposedAt(a, c, x, kInt8, vInt8, t, inp.cos, inp.sin);
    SeenDiffers(a, kInt8, MhaRotatedKeys(b, c, kv, t, inp.cos, inp.sin), x);
    SeenDiffers(a, vInt8, MhaWideValues(b, c, kv, t), x);
  }

  lemma SeenDiffers<T>(a: Arith<T>, scale: Tensor<T>, t: Tensor<T>, x: T)
    requires t.WF() && t.Has(0, 0, 0, 0) && At(t, 0, 0, 0, 0) == x
    ensures CastsAgree(Exposing(a, x), scale, t) ==> CastsAgreeOn(a, scale, x)
  {
    hide At;
  }

  /** Quantizing directly is right in every model that has these casts and these scales, on every input and cache. */
  ghost predicate DirectKeeps<T(!new)>(a: Arith<T>, c: Config, kInt8: Tensor<T>, vInt8: Tensor<T>) {
    forall b: Arith<T>, m: Common<T>, q: QueryParams<T>, kv: KvParams<T>, inp: Inputs<T> ::
      InputsOk(c, inp) && ParamsOk(c, m, q, kv) && SameCasts(a, b) && kv.kInt8 == kInt8 && kv.vInt8 == vInt8 ==>
        && HeadParamsOk(c, m, QueriesOf(c, q), KvsOf(c, kv))
        && ShaOutputs(b, c, m, QueriesOf(c, q), KvsOf(c, kv), true, inp) == MhaForward(b, c, m, q, kv, inp)
  }

  ghost predicate SameCasts<T>(a: Arith<T>, b: Arith<T>) {
    a.toF32 == b.toF32 && a.toU8 == b.toU8 && a.fakeQuantKv == b.fakeQuantKv
  }

  /** The casts and the scales decide: the two ways are interchangeable exactly when they agree on every scalar. */
  lemma DirectIsExact<T(!new)>(a: Arith<T>, c: Config, kInt8: Tensor<T>, vInt8: Tensor<T>)
    requires c.Valid() && c.hidden > 0
    ensures DirectKeeps(a, c, kInt8, vInt8) <==> CastsAlwaysAgree(a, kInt8) && CastsAlwaysAgree(a, vInt8)
  {
    hide ShaOutputs, MhaForward, InputsOk, FilterOk, HeadParamsOk, OneToken, PlainCommon, PlainQuery, QueriesOf, KvsOf, SplitOf, CastsAlwaysAgree, CastsAgreeOn;
    if CastsAlwaysAgree(a, kInt8) && CastsAlwaysAgree(a, vInt8) {
      forall b: Arith<T>, m: Common<T>, q: QueryParams<T>, kv: KvParams<T>, inp: Inputs<T>
        | InputsOk(c, inp) && ParamsOk(c, m, q, kv) && SameCasts(a, b) && kv.kInt8 == kInt8 && kv.vInt8 == vInt8
        ensures HeadParamsOk(c, m, QueriesOf(c, q), KvsOf(c, kv))
        ensures ShaOutputs(b, c, m, QueriesOf(c, q), KvsOf(c, kv), true, inp) == MhaForward(b, c, m, q, kv, inp)
      {
        SplitHere(c, m, q, kv);
        SameCastsAgree(a, b, kInt8);
        SameCastsAgree(a, b, vInt8);
        Qwen3AlwaysMha(b, c, m, q, kv, QueriesOf(c, q), KvsOf(c, kv), inp);
      }
    } else {
      var x := Disagreement(a, kInt8, vInt8);
      DifferingPass(a, c, kInt8, vInt8, x);
    }
  }

  lemma Disagreement<T(!new)>(a: Arith<T>, k: Tensor<T>, v: Tensor<T>) returns (x: T)
    requires !(CastsAlwaysAgree(a, k) && CastsAlwaysAgree(a, v))
    ensures !(CastsAgreeOn(a, k, x) && CastsAgreeOn(a, v, x))
  {
    x :| !(CastsAgreeOn(a, k, x) && CastsAgreeOn(a, v, x));
  }

  lemma SplitHere<T>(c: Config, m: Common<T>, q: QueryParams<T>, kv: KvParams<T>)
    requires ParamsOk(c, m, q, kv)
    ensures FilterOk(q.proj, c.hidden, Times(c.heads, c.headDim))
    ensures FilterOk(kv.kProj, c.hidden, Times(c.kvHeads, c.headDim)) && FilterOk(kv.vProj, c.hidden, Times(c.kvHeads, c.headDim))
    ensures SplitOf(c, q, kv, QueriesOf(c, q), KvsOf(c, kv))
  {
    hide FilterOk, HeadQuery, HeadKv;
  }

  lemma SameCastsAgree<T(!new)>(a: Arith<T>, b: Arith<T>, scale: Tensor<T>)
    requires SameCasts(a, b) && CastsAlwaysAgree(a, scale)
    ensures CastsAlwaysAgree(b, scale)
  {
    forall x: T ensures CastsAgreeOn(b, scale, x) { assert CastsAgreeOn(a, scale, x); }
  }

  // ---- one such pair of casts -----------------------------------------------------------------------------------

  /** Sixteen-bit numbers whose unit is 1/256 of the eight-bit ones: scaled down as floats, and clipped as they are. */
  function SixteenBits(): Arith<int> {
    Arith((x, y) => x, (x, y) => x, x => x, (x, y) => x, (x, y, z) => y, (r, s) => 0, (r, ch) => 0, s => 0, (s, l) => 0, (w, s, l) => 0,
          (q, x) => x, (s, x) => x, x => x / 256, x => if x > 255 then 255 else x, 0, 0, 0)
  }

  /** With these casts Qwen3's two forms return different keys on some pass, in every configuration. */
  lemma SixteenBitsDiffer(c: Config)
    requires c.Valid() && c.hidden > 0
    ensures !DirectKeeps(SixteenBits(), c, Flat([]), Flat([]))
  {
    hide DirectKeeps;
    DirectIsExact(SixteenBits(), c, Flat([]), Flat([]));
    assert !CastsAgreeOn(SixteenBits(), Flat([]), 256);
  }
}
