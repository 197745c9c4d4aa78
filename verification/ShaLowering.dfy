/**
  The multi-head form as the accelerator runs it, with `repeat` lowered to a tiling of the cached heads:
  for which configurations it still returns what the multi-head form returns.
 */
module ShaLowering {
  import opened Positions
  import opened Tensors
  import opened TensorHeads
  import opened ShaAttention
  import opened ShaTheorem
  import opened ShaSamples

  /** The forward pass of the multi-head attention with both repetitions lowered. */
  function TiledForward<T>(a: Arith<T>, c: Config, m: Common<T>, q: QueryParams<T>, kv: KvParams<T>, inp: Inputs<T>): Outputs<T>
    requires InputsOk(c, inp) && ParamsOk(c, m, q, kv)
  {
    GroupsCover(c);
    var x := Qdq(a, m.input, inp.hidden);
    var query := Rotary(a, q.rope, Project(a, q.proj, q.post, x, c.heads, c.headDim), inp.cos, inp.sin);
    var key := MhaKeys(a, c, kv, x, inp.cos, inp.sin);
    var value := MhaValues(a, c, kv, x);
    var kh := Tile1(Concat3(inp.pastKey, key), c.Groups());
    var vh := Tile1(Concat2(inp.pastValue, value), c.Groups());
    Outputs(Output(a, c, m, Attend(a, q.attn, m.zero, inp.mask, query, kh, vh)), key, value)
  }

  /** With one group, or one key and value head, lowering changes nothing, whatever the arithmetic and the input. */
  lemma TiledIsMha<T>(a: Arith<T>, c: Config, m: Common<T>, q: QueryParams<T>, kv: KvParams<T>, inp: Inputs<T>)
    requires InputsOk(c, inp) && ParamsOk(c, m, q, kv) && (c.Groups() == 1 || c.kvHeads == 1)
    ensures TiledForward(a, c, m, q, kv, inp) == MhaForward(a, c, m, q, kv, inp)
  {
    hide Attend, Weights, Output, Rotary, Project, Qdq, Repeat1, Tile1, Concat2, Concat3, MhaKeys, MhaValues;
    GroupsCover(c);
    var x := Qdq(a, m.input, inp.hidden);
    var key, value := MhaKeys(a, c, kv, x, inp.cos, inp.sin), MhaValues(a, c, kv, x);
    ConcatShapes(inp.pastKey, key, inp.pastValue, value);
    TileAgrees(Concat3(inp.pastKey, key), c.Groups());
    TileAgrees(Concat2(inp.pastValue, value), c.Groups());
  }

  lemma ConcatShapes<T>(k: Tensor<T>, l: Tensor<T>, v: Tensor<T>, w: Tensor<T>)
    requires k.WF() && l.WF() && k.d0 == l.d0 && k.d1 == l.d1 && k.d2 == l.d2
    requires v.WF() && w.WF() && v.d0 == w.d0 && v.d1 == w.d1 && v.d3 == w.d3
    ensures Shaped(Concat3(k, l), k.d0, k.d1, k.d2, k.d3 + l.d3) && Shaped(Concat2(v, w), v.d0, v.d1, v.d2 + w.d2, v.d3)
  {
  }

  lemma CopiedShapes<T>(t: Tensor<T>, n: nat)
    requires t.WF() && t.d1 > 0 && n > 0
    ensures Shaped(Repeat1(t, n), t.d0, Times(t.d1, n), t.d2, t.d3) && Shaped(Tile1(t, n), t.d0, Times(t.d1, n), t.d2, t.d3)
  {
  }

  // ---- an input that tells the two apart --------------------------------------------------------------------

  /** Attention looks only at the first cached value, and the output projection only at channel `seen`. */
  function FirstValue(seen: nat): Arith<int> {
    Arith((x, y) => x, (x, y) => x, x => x, (x, y) => x, (x, y, z) => y,
          (r, s) => if s == [] then 0 else s[0],
          (r, ch) => if seen < |r| then r[seen] else 0,
          s => 0, (s, l) => 0, (w, s, l) => 0,
          (q, x) => x, (s, x) => x, x => x, x => x, 0, 0, 0)
  }

  /** One new token after one cached one, whose value tells its head. */
  function NumberedInputs(c: Config): (inp: Inputs<int>)
    requires c.Valid()
    ensures InputsOk(c, inp) && inp.pastValue == Numbered(1, c.kvHeads, 1, c.headDim) && inp.hidden.d2 == 1
  {
    OneToken(c, 0, Numbered(1, c.kvHeads, 1, c.headDim))
  }

  /** An entry of attention comes from the column of values of its head. */
  lemma AttendAt(seen: nat, p: Softmax<int>, zero: Quant<int>, mask: Tensor<int>, q: Tensor<int>, kh: Tensor<int>, vh: Tensor<int>, h: nat)
    requires Shaped(q, 1, q.d1, q.d2, q.d3) && Shaped(kh, 1, q.d1, q.d3, kh.d3) && Shaped(vh, 1, q.d1, kh.d3, q.d3)
    requires Shaped(mask, 1, 1, q.d2, kh.d3) && h < q.d1 && q.d2 > 0 && q.d3 > 0 && kh.d3 > 0
    ensures At(Attend(FirstValue(seen), p, zero, mask, q, kh, vh), 0, h, 0, 0) == At(vh, 0, h, 0, 0)
  {
    hide Weights, At;
    var a := FirstValue(seen);
    var y := MatMul(a.dot, Weights(a, p, zero, mask, q, kh), vh);
    assert At(Qdq(a, p.av, y), 0, h, 0, 0) == At(y, 0, h, 0, 0);
    assert Column(vh, 0, h, 0)[0] == At(vh, 0, h, 0, 0);
  }

  lemma OutputAt(c: Config, m: Common<int>, y: Tensor<int>)
    requires c.Valid() && c.heads > 1 && Shaped(y, 1, c.heads, y.d2, c.headDim) && y.d2 > 0
    requires c.hidden > 0 && FilterOk(m.oProj, Times(c.heads, c.headDim), c.hidden)
    ensures At(Output(FirstValue(c.headDim), c, m, y), 0, 0, 0, 0) == At(y, 0, 1, 0, 0)
  {
    hide At, FilterOk;
    MergedAt(y, 1, 0, 0);
    assert Join(1, c.headDim, 0) == c.headDim;
    assert Row(MergeHeads(y), 0, 0, 0)[c.headDim] == At(MergeHeads(y), 0, 0, 0, c.headDim);
  }

  /** The entry of the repeated and of the tiled values for the second query head. */
  lemma SecondHead(c: Config, value: Tensor<int>)
    requires c.Valid() && c.Groups() > 1 && c.kvHeads > 1 && Shaped(value, 1, c.kvHeads, 1, c.headDim)
    ensures c.heads > 1 && Times(c.kvHeads, c.Groups()) == c.heads
    ensures var v := Concat2(Numbered(1, c.kvHeads, 1, c.headDim), value);
            At(Repeat1(v, c.Groups()), 0, 1, 0, 0) == 0 && At(Tile1(v, c.Groups()), 0, 1, 0, 0) == 1
  {
    hide At, Rest, Last;
    GroupsCover(c);
    SecondDiffers(c.kvHeads, c.Groups());
  }

  /** With more groups and more key and value heads, the lowered form returns another output on some input. */
  lemma LoweringDiffers(c: Config)
    requires c.Valid() && c.hidden > 0 && c.Groups() > 1 && c.kvHeads > 1
    ensures Times(c.heads, c.headDim) > 0 && Times(c.kvHeads, c.headDim) > 0
    ensures ParamsOk(c, PlainCommon(c, 0), PlainQuery(c, 0), PlainKv(c, 0, Flat([]), Flat([])))
    ensures var a, m, q, kv, inp := FirstValue(c.headDim), PlainCommon(c, 0), PlainQuery(c, 0), PlainKv(c, 0, Flat([]), Flat([])), NumberedInputs(c);
            At(TiledForward(a, c, m, q, kv, inp).y, 0, 0, 0, 0) == 1 && At(MhaForward(a, c, m, q, kv, inp).y, 0, 0, 0, 0) == 0
  {
    hide At, Times, FilterOk, Attend, Weights, Output, Rotary, Project, Qdq, Repeat1, Tile1, Concat2, Concat3, MhaKeys, MhaValues, FirstValue, NumberedInputs, PlainCommon, PlainQuery, PlainKv;
    PlainOk(c, 0, Flat([]), Flat([]));
    GroupsCover(c);
    var a, m, q, kv, inp := FirstValue(c.headDim), PlainCommon(c, 0), PlainQuery(c, 0), PlainKv(c, 0, Flat([]), Flat([])), NumberedInputs(c);
    var x := Qdq(a, m.input, inp.hidden);
    var query := Rotary(a, q.rope, Project(a, q.proj, q.post, x, c.heads, c.headDim), inp.cos, inp.sin);
    var key, value := MhaKeys(a, c, kv, x, inp.cos, inp.sin), MhaValues(a, c, kv, x);
    var k, v := Concat3(inp.pastKey, key), Concat2(inp.pastValue, value);
    ConcatShapes(inp.pastKey, key, inp.pastValue, value);
    SecondHead(c, value);
    CopiedShapes(k, c.Groups());
    CopiedShapes(v, c.Groups());
    ForwardAt(c, m, q.attn, inp.mask, query, Repeat1(k, c.Groups()), Repeat1(v, c.Groups()));
    ForwardAt(c, m, q.attn, inp.mask, query, Tile1(k, c.Groups()), Tile1(v, c.Groups()));
  }

  lemma ForwardAt(c: Config, m: Common<int>, p: Softmax<int>, mask: Tensor<int>, q: Tensor<int>, kh: Tensor<int>, vh: Tensor<int>)
    requires c.Valid() && c.hidden > 0 && c.heads > 1 && FilterOk(m.oProj, Times(c.heads, c.headDim), c.hidden)
    requires Shaped(q, 1, c.heads, q.d2, c.headDim) && Shaped(kh, 1, c.heads, c.headDim, kh.d3) && Shaped(vh, 1, c.heads, kh.d3, c.headDim)
    requires Shaped(mask, 1, 1, q.d2, kh.d3) && q.d2 > 0 && kh.d3 > 0
    ensures At(Output(FirstValue(c.headDim), c, m, Attend(FirstValue(c.headDim), p, m.zero, mask, q, kh, vh)), 0, 0, 0, 0) == At(vh, 0, 1, 0, 0)
  {
    hide At, FilterOk, Attend, Weights, Output, FirstValue;
    AttendAt(c.headDim, p, m.zero, mask, q, kh, vh, 1);
    OutputAt(c, m, Attend(FirstValue(c.headDim), p, m.zero, mask, q, kh, vh));
  }

  /** Whatever the arithmetic, the parameters and the input, the lowered form returns what the multi-head form returns. */
  ghost predicate LoweringKeeps(c: Config) {
    forall a: Arith<int>, m: Common<int>, q: QueryParams<int>, kv: KvParams<int>, inp: Inputs<int> ::
      InputsOk(c, inp) && ParamsOk(c, m, q, kv) ==> TiledForward(a, c, m, q, kv, inp) == MhaForward(a, c, m, q, kv, inp)
  }

  /** Lowering is right for every model of a configuration exactly with one group, or one key and value head. */
  lemma LoweringIsExact(c: Config)
    requires c.Valid() && c.hidden > 0
    ensures LoweringKeeps(c) <==> c.Groups() == 1 || c.kvHeads == 1
  {
    hide TiledForward, MhaForward, InputsOk, ParamsOk;
    if c.Groups() == 1 || c.kvHeads == 1 {
      forall a: Arith<int>, m: Common<int>, q: QueryParams<int>, kv: KvParams<int>, inp: Inputs<int> | InputsOk(c, inp) && ParamsOk(c, m, q, kv)
        ensures TiledForward(a, c, m, q, kv, inp) == MhaForward(a, c, m, q, kv, inp)
      {
        TiledIsMha(a, c, m, q, kv, inp);
      }
    } else {
      GroupsCover(c);
      LoweringDiffers(c);
    }
  }
}
