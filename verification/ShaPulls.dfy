/** Under which name of the file each parameter of the attention modules is found, whole and per head. */
module ShaPulls {
  import opened Tensors
  import opened ShaAttention
  import opened ShaNames
  import opened ShaPrepare
  import opened ShaModels

  predicate Stored<T(==)>(d: Dict<T>, name: string, t: Tensor<T>) { name in d && d[name] == t }

  function Path(l: nat, rest: string): string { "model.layers." + Decimal(l) + ".self_attn." + rest }

  /** `tail` tells the head: nothing for the whole layer. */
  predicate NodeIs<T(==)>(d: Dict<T>, l: nat, node: string, tail: string, q: Quant<T>) {
    && Stored(d, Path(l, node + tail + ".fake_quant.scale"), q.scale)
    && Stored(d, Path(l, node + tail + ".fake_quant.zero_point"), q.zeroPoint)
  }

  predicate FilterIs<T(==)>(d: Dict<T>, l: nat, proj: string, tail: string, f: Filter<T>) {
    && Stored(d, Path(l, proj + tail + ".weight"), f.weight)
    && Stored(d, Path(l, proj + tail + ".scale1"), f.scale1)
    && Stored(d, Path(l, proj + tail + ".scale2"), f.scale2)
  }

  predicate MaybeStored<T(==)>(d: Dict<T>, name: string, t: Option<Tensor<T>>) {
    if t.Some? then Stored(d, name, t.value) else name !in d
  }

  predicate NormIs<T(==)>(d: Dict<T>, l: nat, norm: string, tail: string, w: NormWeight<T>) {
    && Stored(d, Path(l, norm + tail + ".weight"), w.weight)
    && MaybeStored(d, Path(l, norm + tail + ".scale"), w.scale)
    && MaybeStored(d, Path(l, norm + tail + ".zero_point"), w.zeroPoint)
  }

  predicate RopeIs<T(==)>(d: Dict<T>, l: nat, side: string, tail: string, r: Rope<T>) {
    && NodeIs(d, l, side + "_rope_mul_0_output_qdq", tail, r.mul0)
    && NodeIs(d, l, side + "_rope_mul_1_output_qdq", tail, r.mul1)
    && NodeIs(d, l, side + "_rope_neg_half_qdq", tail, r.negHalf)
    && NodeIs(d, l, side + "_rope_add_0_output_qdq", tail, r.add0)
  }

  /** Llama quantizes the projection; Qwen3 norms it between two quantizations. */
  predicate PostIs<T(==)>(d: Dict<T>, m: Model, l: nat, side: string, tail: string, dotted: string, p: Post<T>) {
    match m
    case Llama => p.Plain? && NodeIs(d, l, side + "_proj_output_qdq", tail, p.output)
    case Qwen3 =>
      && p.Norm?
      && NodeIs(d, l, side + "_norm_input_qdq", tail, p.input)
      && NormIs(d, l, side + "_norm", dotted, p.norm)
      && NodeIs(d, l, side + "_norm_output_qdq", tail, p.output)
  }

  predicate SoftmaxIs<T(==)>(d: Dict<T>, l: nat, tail: string, p: Softmax<T>) {
    && NodeIs(d, l, "qk_matmul_output_qdq", tail, p.qk)
    && NodeIs(d, l, "scaling_qdq", tail, p.scaling)
    && NodeIs(d, l, "mul_0_output_qdq", tail, p.mul0)
    && NodeIs(d, l, "reduce_min_output_qdq", tail, p.reduceMin)
    && NodeIs(d, l, "neg_20_qdq", tail, p.neg20)
    && NodeIs(d, l, "minus_0_output_qdq", tail, p.minus0)
    && NodeIs(d, l, "where_attn_qdq", tail, p.where)
    && NodeIs(d, l, "softmax_output_qdq", tail, p.softmax)
    && NodeIs(d, l, "attn_value_matmul_output_qdq", tail, p.av)
  }

  /** Every parameter of the query side under its own name. */
  predicate QuerySideIs<T(==)>(d: Dict<T>, m: Model, l: nat, tail: string, dotted: string, q: QueryParams<T>) {
    && FilterIs(d, l, "q_proj", dotted, q.proj) && PostIs(d, m, l, "q", tail, dotted, q.post)
    && RopeIs(d, l, "q", tail, q.rope) && SoftmaxIs(d, l, tail, q.attn)
  }

  /** Every parameter of the key and value side; of the two casts to eight bits the scale is used. */
  predicate KvSideIs<T(==)>(d: Dict<T>, m: Model, l: nat, tail: string, dotted: string, kv: KvParams<T>) {
    && FilterIs(d, l, "k_proj", dotted, kv.kProj) && PostIs(d, m, l, "k", tail, dotted, kv.kPost) && RopeIs(d, l, "k", tail, kv.kRope)
    && Stored(d, Path(l, "k_cast_to_int8_qdq" + tail + ".fake_quant.scale"), kv.kInt8)
    && FilterIs(d, l, "v_proj", dotted, kv.vProj) && NodeIs(d, l, "v_cast_to_int16_qdq", tail, kv.vInt16)
    && Stored(d, Path(l, "v_cast_to_int8_qdq" + tail + ".fake_quant.scale"), kv.vInt8)
  }

  /** The number that a string of digits denotes. */
  function Reading(s: string): int { if s == "" then 0 else Reading(s[..|s| - 1]) * 10 + (s[|s| - 1] as int - '0' as int) }

  /** A number's decimal form denotes it, and has no leading zero. */
  lemma {:induction false} DecimalReads(n: nat)
    ensures Reading(Decimal(n)) == n && (n > 0 ==> Decimal(n)[0] != '0')
  {
    assert forall d: nat :: d < 10 ==> Digit(d) as int == '0' as int + d;
    var s := Decimal(n);
    if n < 10 {
      assert s[..0] == "";
    } else {
      DecimalReads(n / 10);
      assert s[..|s| - 1] == Decimal(n / 10);
    }
  }

  // ---- names ---------------------------------------------------------------------------------------------------

  lemma FakeLiterals()
    ensures FAKE_SCALE == ".fake_quant.scale" && FAKE_ZERO == ".fake_quant.zero_point"
  {
  }

  lemma WholeName(l: nat, base: string, suffix: string)
    ensures PlainName(l, base, suffix) == Path(l, base + "" + suffix)
  {
    hide Decimal;
    assert base + "" == base;
    var head := "model.layers." + Decimal(l) + ".self_attn.";
    assert head + base + suffix == head + (base + suffix);
  }

  lemma NodeName(l: nat, node: string, h: nat, suffix: string)
    ensures NameOf(Key(l, node + "_h", h, suffix)) == Path(l, node + ("_h" + Decimal(h)) + suffix)
  {
    hide Decimal;
    var head := "model.layers." + Decimal(l) + ".self_attn.";
    assert head + (node + "_h") + Decimal(h) + suffix == head + (node + ("_h" + Decimal(h)) + suffix);
  }

  lemma PartName(l: nat, base: string, h: nat, suffix: string)
    ensures NameOf(Key(l, base + ".", h, suffix)) == Path(l, base + ("." + Decimal(h)) + suffix)
  {
    hide Decimal;
    var head := "model.layers." + Decimal(l) + ".self_attn.";
    assert head + (base + ".") + Decimal(h) + suffix == head + (base + ("." + Decimal(h)) + suffix);
  }

  lemma NodeFound<T>(d: Dict<T>, l: nat, node: string)
    requires HasNode(d, l, node)
    ensures NodeIs(d, l, node, "", NodeAt(d, l, node))
  {
    hide PlainName, Path;
    FakeLiterals();
    WholeName(l, node, FAKE_SCALE);
    WholeName(l, node, FAKE_ZERO);
  }

  lemma HeadNodeFound<T>(d: Dict<T>, l: nat, node: string, h: nat)
    requires HasHeadNode(d, l, node, h)
    ensures NodeIs(d, l, node, "_h" + Decimal(h), HeadNodeAt(d, l, node, h))
  {
    hide NameOf, Path, Decimal;
    FakeLiterals();
    NodeName(l, node, h, FAKE_SCALE);
    NodeName(l, node, h, FAKE_ZERO);
  }

  lemma FilterFound<T>(d: Dict<T>, l: nat, proj: string)
    requires HasFilter(d, l, proj)
    ensures FilterIs(d, l, proj, "", FilterAt(d, l, proj))
  {
    hide PlainName, Path;
    WholeName(l, proj, WEIGHT);
    WholeName(l, proj, SCALE1);
    WholeName(l, proj, SCALE2);
  }

  lemma HeadFilterFound<T>(d: Dict<T>, l: nat, proj: string, h: nat)
    requires HasHeadFilter(d, l, proj, h)
    ensures FilterIs(d, l, proj, "." + Decimal(h), HeadFilterAt(d, l, proj, h))
  {
    hide NameOf, Path, Decimal;
    PartName(l, proj, h, WEIGHT);
    PartName(l, proj, h, SCALE1);
    PartName(l, proj, h, SCALE2);
  }

  lemma NormFound<T>(d: Dict<T>, l: nat, norm: string)
    requires PlainName(l, norm, WEIGHT) in d
    ensures NormIs(d, l, norm, "", NormAt(d, l, norm))
  {
    hide PlainName, Path;
    WholeName(l, norm, WEIGHT);
    WholeName(l, norm, SCALE);
    WholeName(l, norm, ZERO);
  }

  lemma HeadNormFound<T>(d: Dict<T>, l: nat, norm: string, h: nat)
    requires NameOf(Key(l, norm + ".", h, WEIGHT)) in d
    ensures NormIs(d, l, norm, "." + Decimal(h), HeadNormAt(d, l, norm, h))
  {
    hide NameOf, Path, Decimal;
    PartName(l, norm, h, WEIGHT);
    PartName(l, norm, h, SCALE);
    PartName(l, norm, h, ZERO);
  }

  // ---- what is pulled ---------------------------------------------------------------------------------------------

  /** The quantization of the nodes of a list is found under their names. */
  ghost predicate AllFound<T>(d: Dict<T>, l: nat, nodes: seq<string>, tail: string, q: seq<Quant<T>>) {
    |q| == |nodes| && forall i :: 0 <= i < |nodes| ==> NodeIs(d, l, nodes[i], tail, q[i])
  }

  lemma NodesFound<T>(d: Dict<T>, l: nat, nodes: seq<string>)
    requires HasNodes(d, l, nodes)
    ensures AllFound(d, l, nodes, "", NodesAt(d, l, nodes))
  {
    hide NodeIs, HasNode, NodeAt;
    forall i | 0 <= i < |nodes| ensures NodeIs(d, l, nodes[i], "", NodeAt(d, l, nodes[i])) { NodeFound(d, l, nodes[i]); }
  }

  lemma HeadNodesFound<T>(d: Dict<T>, l: nat, nodes: seq<string>, h: nat)
    requires HasHeadNodes(d, l, nodes, h)
    ensures AllFound(d, l, nodes, "_h" + Decimal(h), HeadNodesAt(d, l, nodes, h))
  {
    hide NodeIs, HasHeadNode, HeadNodeAt, Decimal;
    forall i | 0 <= i < |nodes| ensures NodeIs(d, l, nodes[i], "_h" + Decimal(h), HeadNodeAt(d, l, nodes[i], h)) { HeadNodeFound(d, l, nodes[i], h); }
  }

  lemma SidePulls<T>(d: Dict<T>, m: Model, l: nat, side: string, more: seq<string>, tail: string, dotted: string,
                     norm: Option<NormWeight<T>>, q: seq<Quant<T>>)
    requires AllFound(d, l, SideNodes(m, side) + more, tail, q) && more != []
    requires m.Qwen3? ==> norm.Some? && NormIs(d, l, side + "_norm", dotted, norm.value)
    ensures |q| >= 6 && PostIs(d, m, l, side, tail, dotted, PostOf(m, norm, q)) && RopeIs(d, l, side, tail, RopeAt(m, q))
  {
    hide NodeIs, NormIs;
    var n := SideNodes(m, side) + more;
    assert forall i :: 0 <= i < |SideNodes(m, side)| ==> n[i] == SideNodes(m, side)[i];
  }

  lemma SoftmaxPulls<T>(d: Dict<T>, m: Model, l: nat, tail: string, q: seq<Quant<T>>)
    requires AllFound(d, l, QueryNodes(m), tail, q)
    ensures |q| == |QueryNodes(m)|
    ensures var r := if m.Llama? then 5 else 6;
            r + 9 == |q| && SoftmaxIs(d, l, tail, Softmax(q[r], q[r + 1], q[r + 2], q[r + 3], q[r + 4], q[r + 5], q[r + 6], q[r + 7], q[r + 8]))
  {
    hide NodeIs;
    var r, n := if m.Llama? then 5 else 6, QueryNodes(m);
    assert |SideNodes(m, "q")| == r;
    assert forall i :: 0 <= i < 9 ==> n[r + i] == ATTENTION_NODES[i];
  }

  lemma QueryFromPulls<T>(d: Dict<T>, m: Model, l: nat, tail: string, dotted: string, f: Filter<T>, norm: Option<NormWeight<T>>, q: seq<Quant<T>>)
    requires AllFound(d, l, QueryNodes(m), tail, q) && FilterIs(d, l, "q_proj", dotted, f)
    requires m.Qwen3? ==> norm.Some? && NormIs(d, l, "q" + "_norm", dotted, norm.value)
    ensures |q| == |QueryNodes(m)| && QuerySideIs(d, m, l, tail, dotted, QueryFrom(m, f, norm, q))
  {
    hide NodeIs, NormIs, FilterIs, PostIs, RopeIs, SoftmaxIs, SideNodes, PostOf, RopeAt;
    SidePulls(d, m, l, "q", ATTENTION_NODES, tail, dotted, norm, q);
    SoftmaxPulls(d, m, l, tail, q);
  }

  lemma KvFromPulls<T>(d: Dict<T>, m: Model, l: nat, tail: string, dotted: string, k: Filter<T>, norm: Option<NormWeight<T>>, v: Filter<T>, q: seq<Quant<T>>)
    requires AllFound(d, l, KvNodes(m), tail, q) && FilterIs(d, l, "k_proj", dotted, k) && FilterIs(d, l, "v_proj", dotted, v)
    requires m.Qwen3? ==> norm.Some? && NormIs(d, l, "k" + "_norm", dotted, norm.value)
    ensures |q| == |KvNodes(m)| && KvSideIs(d, m, l, tail, dotted, KvFrom(m, k, norm, v, q))
  {
    hide NormIs, FilterIs, PostIs, RopeIs, PostOf, RopeAt, Path;
    SidePulls(d, m, l, "k", [K_CAST, V_WIDE, V_CAST], tail, dotted, norm, q);
    var r, n := if m.Llama? then 5 else 6, KvNodes(m);
    assert |SideNodes(m, "k")| == r;
    assert n[r] == K_CAST && n[r + 1] == V_WIDE && n[r + 2] == V_CAST;
    assert NodeIs(d, l, n[r], tail, q[r]) && NodeIs(d, l, n[r + 1], tail, q[r + 1]) && NodeIs(d, l, n[r + 2], tail, q[r + 2]);
  }

  /** Every parameter that the multi-head module of layer `l` pulls, under its literal name. */
  lemma LayerPulls<T>(d: Dict<T>, m: Model, l: nat)
    requires Ready(d, m, l)
    ensures QuerySideIs(d, m, l, "", "", QueryAt(d, m, l)) && KvSideIs(d, m, l, "", "", KvAt(d, m, l))
  {
    hide QuerySideIs, KvSideIs, QueryFrom, KvFrom, HasNodes, NodesAt, HasFilter, FilterAt, NormAt, NormIs, FilterIs, AllFound, QueryNodes, KvNodes, PlainName;
    NodesFound(d, l, QueryNodes(m));
    NodesFound(d, l, KvNodes(m));
    FilterFound(d, l, "q_proj");
    FilterFound(d, l, "k_proj");
    FilterFound(d, l, "v_proj");
    assert "q" + "_norm" == "q_norm" && "k" + "_norm" == "k_norm";
    if m.Qwen3? {
      NormFound(d, l, "q_norm");
      NormFound(d, l, "k_norm");
    }
    QueryFromPulls(d, m, l, "", "", FilterAt(d, l, "q_proj"), NormOf(d, m, l, "q_norm"), NodesAt(d, l, QueryNodes(m)));
    KvFromPulls(d, m, l, "", "", FilterAt(d, l, "k_proj"), NormOf(d, m, l, "k_norm"), FilterAt(d, l, "v_proj"), NodesAt(d, l, KvNodes(m)));
  }

  /** Every parameter that the per-head module pulls for query head `h`. */
  lemma QueryHeadPulls<T>(d: Dict<T>, m: Model, l: nat, h: nat)
    requires QueryHeadReady(d, m, l, h)
    ensures QuerySideIs(d, m, l, "_h" + Decimal(h), "." + Decimal(h), HeadQueryAt(d, m, l, h))
  {
    hide QuerySideIs, QueryFrom, HasHeadNodes, HeadNodesAt, HasHeadFilter, HeadFilterAt, HeadNormAt, NormIs, FilterIs, AllFound, QueryNodes, NameOf, Decimal;
    HeadNodesFound(d, l, QueryNodes(m), h);
    HeadFilterFound(d, l, "q_proj", h);
    assert "q" + "_norm" == "q_norm";
    if m.Qwen3? { HeadNormFound(d, l, "q_norm", h); }
    QueryFromPulls(d, m, l, "_h" + Decimal(h), "." + Decimal(h), HeadFilterAt(d, l, "q_proj", h), HeadNormOf(d, m, l, "q_norm", h),
                   HeadNodesAt(d, l, QueryNodes(m), h));
  }

  /** Every parameter that the per-head module pulls for key and value head `h`. */
  lemma KvHeadPulls<T>(d: Dict<T>, m: Model, l: nat, h: nat)
    requires KvHeadReady(d, m, l, h)
    ensures KvSideIs(d, m, l, "_h" + Decimal(h), "." + Decimal(h), HeadKvAt(d, m, l, h))
  {
    hide KvSideIs, KvFrom, HasHeadNodes, HeadNodesAt, HasHeadFilter, HeadFilterAt, HeadNormAt, NormIs, FilterIs, AllFound, KvNodes, NameOf, Decimal;
    HeadNodesFound(d, l, KvNodes(m), h);
    HeadFilterFound(d, l, "k_proj", h);
    HeadFilterFound(d, l, "v_proj", h);
    assert "k" + "_norm" == "k_norm";
    if m.Qwen3? { HeadNormFound(d, l, "k_norm", h); }
    KvFromPulls(d, m, l, "_h" + Decimal(h), "." + Decimal(h), HeadFilterAt(d, l, "k_proj", h), HeadNormOf(d, m, l, "k_norm", h),
                HeadFilterAt(d, l, "v_proj", h), HeadNodesAt(d, l, KvNodes(m), h));
  }

  /** What all heads share. */
  lemma CommonPulls<T>(d: Dict<T>, l: nat)
    requires CommonReady(d, l)
    ensures var c := CommonAt(d, l);
            && NodeIs(d, l, "q_proj_input_qdq", "", c.input) && FilterIs(d, l, "o_proj", "", c.oProj)
            && Stored(d, "constant_zero.scale", c.zero.scale) && Stored(d, "constant_zero.zero_point", c.zero.zeroPoint)
  {
    hide NodeIs, FilterIs, HasNode, HasFilter, NodeAt, FilterAt;
    NodeFound(d, l, "q_proj_input_qdq");
    FilterFound(d, l, "o_proj");
  }
}
