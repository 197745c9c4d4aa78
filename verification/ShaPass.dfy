/**
  One forward pass as scalars: what the queries, keys, values and outputs are, number by number, from the entries
  of the inputs and parameters; and the proof that the multi-head form, and with it the per-head form, returns them.
 */
module ShaPass {
  import opened Positions
  import opened Tensors
  import opened TensorHeads
  import opened ShaAttention
  import opened ShaTheorem
  import opened ShaForward
  import opened ShaMeaning

  /** All that a pass depends on. */
  datatype Pass<!T> = Pass(a: Arith<T>, c: Config, m: Common<T>, q: QueryParams<T>, kv: KvParams<T>, inp: Inputs<T>) {
    predicate Ok() { InputsOk(c, inp) && ParamsOk(c, m, q, kv) }
    function Fresh(): nat { inp.hidden.d2 }
    function Cached(): nat { inp.pastKey.d3 }
    function Total(): nat { inp.pastKey.d3 + inp.hidden.d2 }
  }

  /** The quantized hidden state of token `s`. */
  function Token<T>(p: Pass<T>, s: nat): (r: seq<T>)
    requires p.Ok() && s < p.Fresh()
    ensures |r| == p.c.hidden
  {
    Quantized(p.a, p.m.input, Row(p.inp.hidden, 0, 0, s))
  }

  /** The projection of token `s` that belongs to head `h`: its channels from `h * headDim` on. */
  function HeadRow<T>(p: Pass<T>, f: Filter<T>, heads: nat, h: nat, s: nat): (r: seq<T>)
    requires p.Ok() && FilterOk(f, p.c.hidden, Times(heads, p.c.headDim)) && h < heads && s < p.Fresh()
    ensures |r| == p.c.headDim
  {
    seq(p.c.headDim, l requires 0 <= l < p.c.headDim =>
      JoinBelow(h, heads, p.c.headDim, l);
      p.a.conv(Token(p, s), ChannelAt(f, p.c.hidden, Times(heads, p.c.headDim), h * p.c.headDim + l)))
  }

  /** A row of a head made ready and turned by its token's angles. */
  function RotatedRow<T>(p: Pass<T>, post: Post<T>, rope: Rope<T>, row: seq<T>, s: nat): (r: seq<T>)
    requires p.Ok() && |row| == p.c.headDim && s < p.Fresh()
    ensures |r| == p.c.headDim
  {
    var ready := seq(|row|, l requires 0 <= l < |row| => Readied(p.a, post, row, l));
    seq(|row|, l requires 0 <= l < |row| => Rotated(p.a, rope, ready, Row(p.inp.cos, 0, 0, s), Row(p.inp.sin, 0, 0, s), l))
  }

  function QueryRow<T>(p: Pass<T>, h: nat, s: nat): (r: seq<T>)
    requires p.Ok() && h < p.c.heads && s < p.Fresh()
    ensures |r| == p.c.headDim
  {
    RotatedRow(p, p.q.post, p.q.rope, HeadRow(p, p.q.proj, p.c.heads, h, s), s)
  }

  function KeyRow<T>(p: Pass<T>, g: nat, s: nat): (r: seq<T>)
    requires p.Ok() && g < p.c.kvHeads && s < p.Fresh()
    ensures |r| == p.c.headDim
  {
    var row := RotatedRow(p, p.kv.kPost, p.kv.kRope, HeadRow(p, p.kv.kProj, p.c.kvHeads, g, s), s);
    seq(|row|, l requires 0 <= l < |row| => Narrowed(p.a, p.kv.kInt8, row[l]))
  }

  function ValueRow<T>(p: Pass<T>, g: nat, s: nat): (r: seq<T>)
    requires p.Ok() && g < p.c.kvHeads && s < p.Fresh()
    ensures |r| == p.c.headDim
  {
    var row := HeadRow(p, p.kv.vProj, p.c.kvHeads, g, s);
    seq(|row|, l requires 0 <= l < |row| => Narrowed(p.a, p.kv.vInt8, p.a.fakeQuant(p.kv.vInt16, row[l])))
  }

  /** The key at position `u`: a cached one, or a new one. */
  function KeyAt<T>(p: Pass<T>, g: nat, u: nat): (r: seq<T>)
    requires p.Ok() && g < p.c.kvHeads && u < p.Total()
    ensures |r| == p.c.headDim
  {
    seq(p.c.headDim, l requires 0 <= l < p.c.headDim =>
      if u < p.Cached() then At(p.inp.pastKey, 0, g, l, u) else KeyRow(p, g, u - p.Cached())[l])
  }

  /** Entry `l` of the values at all positions. */
  function ValueColumn<T>(p: Pass<T>, g: nat, l: nat): (r: seq<T>)
    requires p.Ok() && g < p.c.kvHeads && l < p.c.headDim
    ensures |r| == p.Total()
  {
    seq(p.Total(), u requires 0 <= u < p.Total() =>
      if u < p.Cached() then At(p.inp.pastValue, 0, g, u, l) else ValueRow(p, g, u - p.Cached())[l])
  }

  /** The key and value head of query head `h`: `groups` query heads in a row share one. */
  function GroupOf(c: Config, h: nat): (g: nat)
    requires c.Valid() && h < c.heads
    ensures g < c.kvHeads
  {
    GroupBelow(c, h);
    h / (c.heads / c.kvHeads)
  }

  function ScoreRow<T>(p: Pass<T>, h: nat, s: nat): (r: seq<T>)
    requires p.Ok() && h < p.c.heads && s < p.Fresh()
    ensures |r| == p.Total()
  {
    seq(p.Total(), u requires 0 <= u < p.Total() => Score(p.a, p.q.attn, QueryRow(p, h, s), KeyAt(p, GroupOf(p.c, h), u)))
  }

  function WeightRow<T>(p: Pass<T>, h: nat, s: nat): (r: seq<T>)
    requires p.Ok() && h < p.c.heads && s < p.Fresh()
    ensures |r| == p.Total()
  {
    seq(p.Total(), t requires 0 <= t < p.Total() => Weight(p.a, p.q.attn, p.m.zero, Row(p.inp.mask, 0, 0, s), ScoreRow(p, h, s), t))
  }

  /** What query head `h` attends to, at token `s` and entry `l`. */
  function Attended<T>(p: Pass<T>, h: nat, s: nat, l: nat): T
    requires p.Ok() && h < p.c.heads && s < p.Fresh() && l < p.c.headDim
  {
    p.a.fakeQuant(p.q.attn.av, p.a.dot(WeightRow(p, h, s), ValueColumn(p, GroupOf(p.c, h), l)))
  }

  /** All heads of token `s` in a row. */
  function Merged<T>(p: Pass<T>, s: nat): (r: seq<T>)
    requires p.Ok() && s < p.Fresh()
    ensures |r| == Times(p.c.heads, p.c.headDim)
  {
    seq(Times(p.c.heads, p.c.headDim), j requires 0 <= j < Times(p.c.heads, p.c.headDim) =>
      DigitsJoin(j, p.c.heads, p.c.headDim);
      Attended(p, j / p.c.headDim, s, j % p.c.headDim))
  }

  /** Output channel `o` of token `s`. */
  function OutputAt<T>(p: Pass<T>, s: nat, o: nat): T
    requires p.Ok() && s < p.Fresh() && o < p.c.hidden
  {
    p.a.conv(Merged(p, s), ChannelAt(p.m.oProj, Times(p.c.heads, p.c.headDim), p.c.hidden, o))
  }

  // ---- the tensors hold these numbers -----------------------------------------------------------------------

  function X<T>(p: Pass<T>): (x: Tensor<T>)
    requires p.Ok()
    ensures Shaped(x, 1, 1, p.Fresh(), p.c.hidden)
  {
    Qdq(p.a, p.m.input, p.inp.hidden)
  }

  /** The rows of a projection split into heads. */
  lemma HeadRowAt<T>(p: Pass<T>, f: Filter<T>, heads: nat, h: nat, s: nat)
    requires p.Ok() && FilterOk(f, p.c.hidden, Times(heads, p.c.headDim)) && h < heads && s < p.Fresh()
    ensures Row(SplitHeads(Conv(p.a, X(p), f), heads, p.c.headDim), 0, h, s) == HeadRow(p, f, heads, h, s)
  {
    hide At, ChannelAt, SplitHeads, Times, Qdq;
    var x := X(p);
    QdqRow(p.a, p.m.input, p.inp.hidden, 0, s);
    var r, t := Row(SplitHeads(Conv(p.a, x, f), heads, p.c.headDim), 0, h, s), HeadRow(p, f, heads, h, s);
    forall l | 0 <= l < p.c.headDim ensures r[l] == t[l] {
      JoinBelow(h, heads, p.c.headDim, l);
      SplitAt(Conv(p.a, x, f), heads, p.c.headDim, h, s, l);
      ConvAt(p.a, x, f, Times(heads, p.c.headDim), s, Join(h, p.c.headDim, l));
      assert r[l] == p.a.conv(Token(p, s), ChannelAt(f, p.c.hidden, Times(heads, p.c.headDim), Join(h, p.c.headDim, l)));
      assert Join(h, p.c.headDim, l) == h * p.c.headDim + l;
    }
  }

  /** A projection, made ready and turned, whichever way the norm or the quantization is ordered with the split. */
  lemma RotatedRowAt<T>(p: Pass<T>, f: Filter<T>, post: Post<T>, rope: Rope<T>, heads: nat, h: nat, s: nat)
    requires p.Ok() && FilterOk(f, p.c.hidden, Times(heads, p.c.headDim)) && h < heads && s < p.Fresh()
    ensures Row(Rotary(p.a, rope, Project(p.a, f, post, X(p), heads, p.c.headDim), p.inp.cos, p.inp.sin), 0, h, s)
         == RotatedRow(p, post, rope, HeadRow(p, f, heads, h, s), s)
  {
    hide At, SplitHeads, Times, Qdq, Conv, Rotary, AfterProjection, HeadRow, X;
    var split := SplitHeads(Conv(p.a, X(p), f), heads, p.c.headDim);
    if post.Plain? { SplitQdq(p.a, post.output, Conv(p.a, X(p), f), heads, p.c.headDim); }
    ProjectIs(p.a, f, post, X(p), heads, p.c.headDim);
    HeadRowAt(p, f, heads, h, s);
    TurnedRow(p, post, rope, split, h, s);
  }

  lemma ProjectIs<T>(a: Arith<T>, f: Filter<T>, post: Post<T>, x: Tensor<T>, heads: nat, dim: nat)
    requires Shaped(x, 1, 1, x.d2, x.d3) && FilterOk(f, x.d3, Times(heads, dim))
    ensures Project(a, f, post, x, heads, dim) == AfterProjection(a, post, SplitHeads(Conv(a, x, f), heads, dim))
  {
    hide At, SplitHeads, Qdq, Conv;
    if post.Plain? { SplitQdq(a, post.output, Conv(a, x, f), heads, dim); }
  }

  lemma TurnedRow<T>(p: Pass<T>, post: Post<T>, rope: Rope<T>, t: Tensor<T>, h: nat, s: nat)
    requires p.Ok() && Shaped(t, 1, t.d1, p.Fresh(), p.c.headDim) && h < t.d1 && s < p.Fresh()
    ensures Row(Rotary(p.a, rope, AfterProjection(p.a, post, t), p.inp.cos, p.inp.sin), 0, h, s) == RotatedRow(p, post, rope, Row(t, 0, h, s), s)
  {
    hide At, Rotary, AfterProjection, Rotated, Readied;
    var u := AfterProjection(p.a, post, t);
    var row := Row(t, 0, h, s);
    var ready := seq(|row|, l requires 0 <= l < |row| => Readied(p.a, post, row, l));
    forall l | 0 <= l < p.c.headDim ensures Row(u, 0, h, s)[l] == ready[l] { ReadiedAt(p.a, post, t, h, s, l); }
    assert Row(u, 0, h, s) == ready;
    var r, v := Row(Rotary(p.a, rope, u, p.inp.cos, p.inp.sin), 0, h, s), RotatedRow(p, post, rope, row, s);
    forall l | 0 <= l < p.c.headDim ensures r[l] == v[l] { RotaryAt(p.a, rope, u, p.inp.cos, p.inp.sin, h, s, l); }
  }

  lemma NarrowedAt<T>(a: Arith<T>, scale: Tensor<T>, t: Tensor<T>, g: nat, s: nat, l: nat)
    requires t.WF() && t.Has(0, g, s, l)
    ensures At(ToInt8(a, scale, false, t), 0, g, s, l) == Narrowed(a, scale, Row(t, 0, g, s)[l])
  {
    hide At;
    assert Map(a.toF32, t).Has(0, g, s, l);
  }

  lemma KeyIs<T>(p: Pass<T>, g: nat, s: nat, l: nat)
    requires p.Ok() && g < p.c.kvHeads && s < p.Fresh() && l < p.c.headDim
    ensures At(MhaKeys(p.a, p.c, p.kv, X(p), p.inp.cos, p.inp.sin), 0, g, l, s) == KeyRow(p, g, s)[l]
  {
    hide At, Rotary, Project, RotatedRow, HeadRow, X, ToInt8, Narrowed, Times;
    var k := Rotary(p.a, p.kv.kRope, Project(p.a, p.kv.kProj, p.kv.kPost, X(p), p.c.kvHeads, p.c.headDim), p.inp.cos, p.inp.sin);
    RotatedRowAt(p, p.kv.kProj, p.kv.kPost, p.kv.kRope, p.c.kvHeads, g, s);
    NarrowedAt(p.a, p.kv.kInt8, k, g, s, l);
  }

  lemma ValueIs<T>(p: Pass<T>, g: nat, s: nat, l: nat)
    requires p.Ok() && g < p.c.kvHeads && s < p.Fresh() && l < p.c.headDim
    ensures At(MhaValues(p.a, p.c, p.kv, X(p)), 0, g, s, l) == ValueRow(p, g, s)[l]
  {
    hide At, HeadRow, X, ToInt8, Narrowed, Times, Conv, SplitHeads, Qdq, Quantized;
    var t := SplitHeads(Conv(p.a, X(p), p.kv.vProj), p.c.kvHeads, p.c.headDim);
    HeadRowAt(p, p.kv.vProj, p.c.kvHeads, g, s);
    QdqRow(p.a, p.kv.vInt16, t, g, s);
    NarrowedAt(p.a, p.kv.vInt8, Qdq(p.a, p.kv.vInt16, t), g, s, l);
  }

  // ---- attention ----------------------------------------------------------------------------------------------

  lemma QueryIs<T>(p: Pass<T>, h: nat, s: nat)
    requires p.Ok() && h < p.c.heads && s < p.Fresh()
    ensures Row(MhaQuery(p.a, p.c, p.q, X(p), p.inp.cos, p.inp.sin), 0, h, s) == QueryRow(p, h, s)
  {
    hide At, Rotary, Project, RotatedRow, HeadRow, X, Times;
    RotatedRowAt(p, p.q.proj, p.q.post, p.q.rope, p.c.heads, h, s);
  }

  /** The keys that the query heads see. */
  function KeysSeen<T>(p: Pass<T>): (t: Tensor<T>)
    requires p.Ok()
    ensures Shaped(t, 1, p.c.heads, p.c.headDim, p.Total())
  {
    GroupsCover(p.c);
    Repeat1(Concat3(p.inp.pastKey, MhaKeys(p.a, p.c, p.kv, X(p), p.inp.cos, p.inp.sin)), p.c.Groups())
  }

  function ValuesSeen<T>(p: Pass<T>): (t: Tensor<T>)
    requires p.Ok()
    ensures Shaped(t, 1, p.c.heads, p.Total(), p.c.headDim)
  {
    GroupsCover(p.c);
    Repeat1(Concat2(p.inp.pastValue, MhaValues(p.a, p.c, p.kv, X(p))), p.c.Groups())
  }

  lemma RepeatAt<T>(t: Tensor<T>, n: nat, h: nat, k: nat, l: nat)
    requires Shaped(t, 1, t.d1, t.d2, t.d3) && n > 0 && h < Times(t.d1, n) && k < t.d2 && l < t.d3
    ensures Rest(h, n) < t.d1 && At(Repeat1(t, n), 0, h, k, l) == At(t, 0, Rest(h, n), k, l)
  {
    hide At, Rest, Times;
    DigitsJoin(h, t.d1, n);
  }

  lemma KeySeen<T>(p: Pass<T>, h: nat, u: nat)
    requires p.Ok() && h < p.c.heads && u < p.Total()
    ensures Column(KeysSeen(p), 0, h, u) == KeyAt(p, GroupOf(p.c, h), u)
  {
    hide At, MhaKeys, X, KeyRow, Times, Repeat1;
    GroupsCover(p.c);
    GroupBelow(p.c, h);
    var g, key := GroupOf(p.c, h), MhaKeys(p.a, p.c, p.kv, X(p), p.inp.cos, p.inp.sin);
    assert g == Rest(h, p.c.Groups());
    forall l | 0 <= l < p.c.headDim ensures Column(KeysSeen(p), 0, h, u)[l] == KeyAt(p, g, u)[l] {
      RepeatAt(Concat3(p.inp.pastKey, key), p.c.Groups(), h, l, u);
      if u >= p.Cached() { KeyIs(p, g, u - p.Cached(), l); }
    }
  }

  lemma ValueSeen<T>(p: Pass<T>, h: nat, l: nat)
    requires p.Ok() && h < p.c.heads && l < p.c.headDim
    ensures Column(ValuesSeen(p), 0, h, l) == ValueColumn(p, GroupOf(p.c, h), l)
  {
    hide At, MhaValues, X, ValueRow, Times, Repeat1;
    GroupsCover(p.c);
    GroupBelow(p.c, h);
    var g, value := GroupOf(p.c, h), MhaValues(p.a, p.c, p.kv, X(p));
    assert g == Rest(h, p.c.Groups());
    forall u | 0 <= u < p.Total() ensures Column(ValuesSeen(p), 0, h, l)[u] == ValueColumn(p, g, l)[u] {
      RepeatAt(Concat2(p.inp.pastValue, value), p.c.Groups(), h, u, l);
      if u >= p.Cached() { ValueIs(p, g, u - p.Cached(), l); }
    }
  }

  lemma ScoresAre<T>(p: Pass<T>, h: nat, s: nat)
    requires p.Ok() && h < p.c.heads && s < p.Fresh()
    ensures Scores(p.a, p.q.attn, QueryRow(p, h, s), KeysSeen(p), h) == ScoreRow(p, h, s)
  {
    hide KeysSeen, KeyAt, QueryRow, Column, Score, GroupOf;
    var r, t := Scores(p.a, p.q.attn, QueryRow(p, h, s), KeysSeen(p), h), ScoreRow(p, h, s);
    forall u | 0 <= u < p.Total() ensures r[u] == t[u] { KeySeen(p, h, u); }
  }

  lemma WeightsAre<T>(p: Pass<T>, h: nat, s: nat)
    requires p.Ok() && h < p.c.heads && s < p.Fresh()
    ensures var query := MhaQuery(p.a, p.c, p.q, X(p), p.inp.cos, p.inp.sin);
            Row(Weights(p.a, p.q.attn, p.m.zero, p.inp.mask, query, KeysSeen(p)), 0, h, s) == WeightRow(p, h, s)
  {
    hide At, KeysSeen, MhaQuery, X, QueryRow, Weights, ScoreRow, Scores, Weight;
    var query := MhaQuery(p.a, p.c, p.q, X(p), p.inp.cos, p.inp.sin);
    QueryIs(p, h, s);
    ScoresAre(p, h, s);
    var r, t := Row(Weights(p.a, p.q.attn, p.m.zero, p.inp.mask, query, KeysSeen(p)), 0, h, s), WeightRow(p, h, s);
    forall u | 0 <= u < p.Total() ensures r[u] == t[u] {
      WeightsAt(p.a, p.q.attn, p.m.zero, p.inp.mask, query, KeysSeen(p), h, s, u);
    }
  }

  function AttendedTensor<T>(p: Pass<T>): (y: Tensor<T>)
    requires p.Ok()
    ensures Shaped(y, 1, p.c.heads, p.Fresh(), p.c.headDim)
  {
    Attend(p.a, p.q.attn, p.m.zero, p.inp.mask, MhaQuery(p.a, p.c, p.q, X(p), p.inp.cos, p.inp.sin), KeysSeen(p), ValuesSeen(p))
  }

  lemma AttendedIs<T>(p: Pass<T>, h: nat, s: nat, l: nat)
    requires p.Ok() && h < p.c.heads && s < p.Fresh() && l < p.c.headDim
    ensures At(AttendedTensor(p), 0, h, s, l) == Attended(p, h, s, l)
  {
    hide At, KeysSeen, ValuesSeen, MhaQuery, X, Weights, WeightRow, ValueColumn, GroupOf, Row, Column;
    WeightsAre(p, h, s);
    ValueSeen(p, h, l);
  }

  lemma MergedIs<T>(p: Pass<T>, s: nat)
    requires p.Ok() && s < p.Fresh()
    ensures Row(MergeHeads(AttendedTensor(p)), 0, 0, s) == Merged(p, s)
  {
    hide At, AttendedTensor, MergeHeads, Attended, Times;
    var y := AttendedTensor(p);
    var r, t := Row(MergeHeads(y), 0, 0, s), Merged(p, s);
    forall j | 0 <= j < Times(p.c.heads, p.c.headDim) ensures r[j] == t[j] {
      DigitsJoin(j, p.c.heads, p.c.headDim);
      MergedAt(y, j / p.c.headDim, s, j % p.c.headDim);
      AttendedIs(p, j / p.c.headDim, s, j % p.c.headDim);
    }
  }

  lemma OutputIs<T>(p: Pass<T>, s: nat, o: nat)
    requires p.Ok() && s < p.Fresh() && o < p.c.hidden
    ensures At(Output(p.a, p.c, p.m, AttendedTensor(p)), 0, 0, s, o) == OutputAt(p, s, o)
  {
    hide At, AttendedTensor, MergeHeads, Merged, Times, Row, ChannelAt;
    MergedIs(p, s);
    ConvAt(p.a, MergeHeads(AttendedTensor(p)), p.m.oProj, p.c.hidden, s, o);
  }

  /** Every number that the multi-head form returns. */
  lemma MhaMeans<T>(p: Pass<T>)
    requires p.Ok()
    ensures var out := MhaForward(p.a, p.c, p.m, p.q, p.kv, p.inp);
            && Shaped(out.y, 1, 1, p.Fresh(), p.c.hidden)
            && Shaped(out.key, 1, p.c.kvHeads, p.c.headDim, p.Fresh()) && Shaped(out.value, 1, p.c.kvHeads, p.Fresh(), p.c.headDim)
            && (forall s: nat, o: nat :: s < p.Fresh() && o < p.c.hidden ==> At(out.y, 0, 0, s, o) == OutputAt(p, s, o))
            && (forall g: nat, l: nat, s: nat :: g < p.c.kvHeads && l < p.c.headDim && s < p.Fresh() ==>
                  At(out.key, 0, g, l, s) == KeyRow(p, g, s)[l] && At(out.value, 0, g, s, l) == ValueRow(p, g, s)[l])
  {
    hide At, OutputAt, KeyRow, ValueRow, Output, Attend, MhaKeys, MhaValues, Rotary, Project, Repeat1, Concat2, Concat3, Qdq;
    var out := MhaForward(p.a, p.c, p.m, p.q, p.kv, p.inp);
    forall s: nat, o: nat | s < p.Fresh() && o < p.c.hidden ensures At(out.y, 0, 0, s, o) == OutputAt(p, s, o) { OutputIs(p, s, o); }
    forall g: nat, l: nat, s: nat | g < p.c.kvHeads && l < p.c.headDim && s < p.Fresh()
      ensures At(out.key, 0, g, l, s) == KeyRow(p, g, s)[l] && At(out.value, 0, g, s, l) == ValueRow(p, g, s)[l]
    {
      KeyIs(p, g, s, l);
      ValueIs(p, g, s, l);
    }
  }

  /** Every number that the per-head form returns over split parameters, when it quantizes by way of a float. */
  lemma ShaMeans<T>(p: Pass<T>, qs: seq<QueryParams<T>>, kvs: seq<KvParams<T>>)
    requires p.Ok() && SplitOf(p.c, p.q, p.kv, qs, kvs)
    ensures HeadParamsOk(p.c, p.m, qs, kvs)
    ensures var out := ShaOutputs(p.a, p.c, p.m, qs, kvs, false, p.inp);
            && Shaped(out.y, 1, 1, p.Fresh(), p.c.hidden)
            && Shaped(out.key, 1, p.c.kvHeads, p.c.headDim, p.Fresh()) && Shaped(out.value, 1, p.c.kvHeads, p.Fresh(), p.c.headDim)
            && (forall s: nat, o: nat :: s < p.Fresh() && o < p.c.hidden ==> At(out.y, 0, 0, s, o) == OutputAt(p, s, o))
            && (forall g: nat, l: nat, s: nat :: g < p.c.kvHeads && l < p.c.headDim && s < p.Fresh() ==>
                  At(out.key, 0, g, l, s) == KeyRow(p, g, s)[l] && At(out.value, 0, g, s, l) == ValueRow(p, g, s)[l])
  {
    hide At, OutputAt, KeyRow, ValueRow, ShaOutputs, MhaForward, SplitOf, HeadParamsOk;
    LlamaShaIsMha(p.a, p.c, p.m, p.q, p.kv, qs, kvs, p.inp);
    MhaMeans(p);
  }
}
