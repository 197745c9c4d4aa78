/** Small parameters and inputs of every configuration, from which the failing inputs of the attention modules are made. */
module ShaSamples {
  import opened Positions
  import opened Tensors
  import opened ShaAttention
  import opened ShaTheorem

  function Full<T>(d0: nat, d1: nat, d2: nat, d3: nat, x: T): (t: Tensor<T>)
    ensures Shaped(t, d0, d1, d2, d3)
    ensures forall i: nat, j: nat, k: nat, l: nat :: t.Has(i, j, k, l) ==> At(t, i, j, k, l) == x
  {
    Build(d0, d1, d2, d3, (i: nat, j: nat, k: nat, l: nat) => x)
  }

  function PlainFilter<T>(inputs: nat, outputs: nat, x: T): (f: Filter<T>)
    requires outputs > 0
    ensures FilterOk(f, inputs, outputs)
  {
    Filter(Full(1, 1, inputs, outputs, x), Flat([]), Flat([]))
  }

  function NoQuant<T>(): Quant<T> { Quant(Flat([]), Flat([])) }

  function PlainRope<T>(): Rope<T> { Rope(NoQuant(), NoQuant(), NoQuant(), NoQuant()) }

  function PlainSoftmax<T>(): Softmax<T> {
    Softmax(NoQuant(), NoQuant(), NoQuant(), NoQuant(), NoQuant(), NoQuant(), NoQuant(), NoQuant(), NoQuant())
  }

  function PlainQuery<T>(c: Config, x: T): QueryParams<T>
    requires c.Valid() && Times(c.heads, c.headDim) > 0
  {
    QueryParams(PlainFilter(c.hidden, Times(c.heads, c.headDim), x), Plain(NoQuant()), PlainRope(), PlainSoftmax())
  }

  /** The key and value side with the given scales of the two 8-bit quantizations. */
  function PlainKv<T>(c: Config, x: T, kInt8: Tensor<T>, vInt8: Tensor<T>): KvParams<T>
    requires c.Valid() && Times(c.kvHeads, c.headDim) > 0
  {
    var f := PlainFilter(c.hidden, Times(c.kvHeads, c.headDim), x);
    KvParams(f, Plain(NoQuant()), PlainRope(), kInt8, f, NoQuant(), vInt8)
  }

  function PlainCommon<T>(c: Config, x: T): Common<T>
    requires c.hidden > 0
  {
    Common(NoQuant(), PlainFilter(Times(c.heads, c.headDim), c.hidden, x), NoQuant())
  }

  lemma Widths(c: Config)
    requires c.Valid()
    ensures Times(c.heads, c.headDim) > 0 && Times(c.kvHeads, c.headDim) > 0
  {
    MulLe(1, c.heads, c.headDim);
    MulLe(1, c.kvHeads, c.headDim);
  }

  lemma PlainOk<T>(c: Config, x: T, kInt8: Tensor<T>, vInt8: Tensor<T>)
    requires c.Valid() && c.hidden > 0
    ensures Times(c.heads, c.headDim) > 0 && Times(c.kvHeads, c.headDim) > 0
    ensures ParamsOk(c, PlainCommon(c, x), PlainQuery(c, x), PlainKv(c, x, kInt8, vInt8))
  {
    hide PlainFilter, Times, FilterOk;
    Widths(c);
  }

  /** One new token after one cached one, with given cached values. */
  function OneToken<T>(c: Config, x: T, pastValue: Tensor<T>): (inp: Inputs<T>)
    requires c.Valid() && Shaped(pastValue, 1, c.kvHeads, 1, c.headDim)
    ensures InputsOk(c, inp) && inp.pastValue == pastValue && inp.hidden.d2 == 1
  {
    Inputs(Full(1, 1, 1, c.hidden, x), Full(1, 1, 1, c.headDim, x), Full(1, 1, 1, c.headDim, x), Full(1, 1, 1, 2, x),
           Full(1, c.kvHeads, c.headDim, 1, x), pastValue)
  }
}
