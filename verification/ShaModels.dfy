/**
  The parameters that the two models' attention modules read, whole and per head, and the theorem
  that preparing a file and then running head by head returns what running over the file returns.
 */
module ShaModels {
  import opened Positions
  import opened Tensors
  import opened TensorHeads
  import opened ShaAttention
  import opened ShaTheorem
  import opened ShaForward
  import opened ShaCasts
  import opened ShaNames
  import opened ShaPrepare

  datatype Model = Llama | Qwen3

  // ---- the nodes -----------------------------------------------------------------------------------------

  /** The quantization nodes around the rotary embedding of the queries or of the keys. */
  function SideNodes(m: Model, side: string): seq<string> {
    (if m.Llama? then [side + "_proj_output_qdq"] else [side + "_norm_input_qdq", side + "_norm_output_qdq"])
    + [side + "_rope_mul_0_output_qdq", side + "_rope_mul_1_output_qdq", side + "_rope_neg_half_qdq", side + "_rope_add_0_output_qdq"]
  }

  const K_CAST := "k_cast_to_int8_qdq"
  const V_WIDE := "v_cast_to_int16_qdq"
  const V_CAST := "v_cast_to_int8_qdq"

  const ATTENTION_NODES := [
    "qk_matmul_output_qdq", "scaling_qdq", "mul_0_output_qdq", "reduce_min_output_qdq", "neg_20_qdq", "minus_0_output_qdq",
    "where_attn_qdq", "softmax_output_qdq", "attn_value_matmul_output_qdq"]

  ghost predicate AllDifferent(s: seq<string>) { forall i, j :: 0 <= i < j < |s| ==> s[i] != s[j] }

  lemma AttentionNodesDiffer()
    ensures AllDifferent(ATTENTION_NODES)
  {
    var n := ATTENTION_NODES;
    assert n[5][0] == 'm' && n[7][0] == 's';
  }

  lemma SideNodesDiffer(m: Model, side: string)
    requires |side| == 1
    ensures AllDifferent(SideNodes(m, side))
  {
    var n := SideNodes(m, side);
    var k := |n| - 4;
    assert n[k][7] == 'm' && n[k + 1][7] == 'm' && n[k + 3][7] == 'a';
    assert n[k][11] == '0' && n[k + 1][11] == '1';
  }

  function QueryNodes(m: Model): seq<string> { SideNodes(m, "q") + ATTENTION_NODES }

  function KvNodes(m: Model): seq<string> { SideNodes(m, "k") + [K_CAST, V_WIDE, V_CAST] }

  /** All nodes whose quantization is copied to the heads, in the order of copying. */
  function Nodes(m: Model): seq<string> { SideNodes(m, "q") + KvNodes(m) + ATTENTION_NODES }

  lemma DifferConcat(a: seq<string>, b: seq<string>)
    requires AllDifferent(a) && AllDifferent(b) && forall i, j :: 0 <= i < |a| && 0 <= j < |b| ==> a[i] != b[j]
    ensures AllDifferent(a + b)
  {
  }

  predicate SideName(s: string, c: char) { |s| > 2 && s[0] == c && s[1] == '_' && s[2] != 'c' }

  lemma SideNameConcat(side: string, t: string)
    requires |side| == 1 && |t| > 1 && t[0] == '_' && t[1] != 'c'
    ensures SideName(side + t, side[0])
  {
  }

  lemma SideStarts(m: Model, side: string)
    requires |side| == 1
    ensures forall i :: 0 <= i < |SideNodes(m, side)| ==> SideName(SideNodes(m, side)[i], side[0])
  {
    SideNameConcat(side, "_proj_output_qdq");
    SideNameConcat(side, "_norm_input_qdq");
    SideNameConcat(side, "_norm_output_qdq");
    SideNameConcat(side, "_rope_mul_0_output_qdq");
    SideNameConcat(side, "_rope_mul_1_output_qdq");
    SideNameConcat(side, "_rope_neg_half_qdq");
    SideNameConcat(side, "_rope_add_0_output_qdq");
    hide SideName;
  }

  lemma AttentionStarts()
    ensures forall i :: 0 <= i < |ATTENTION_NODES| ==>
              var s := ATTENTION_NODES[i];
              |s| > 2 && s[0] != 'k' && s[0] != 'v' && (s[0] == 'q' ==> s[1] == 'k')
  {
  }

  lemma NodesDiffer(m: Model)
    ensures AllDifferent(Nodes(m))
  {
    hide SideNodes;
    var q, k, casts := SideNodes(m, "q"), SideNodes(m, "k"), [K_CAST, V_WIDE, V_CAST];
    SideNodesDiffer(m, "q");
    SideNodesDiffer(m, "k");
    AttentionNodesDiffer();
    SideStarts(m, "q");
    SideStarts(m, "k");
    AttentionStarts();
    assert K_CAST[2] == 'c' && K_CAST[0] == 'k' && V_WIDE[0] == 'v' && V_CAST[0] == 'v';
    assert V_WIDE != V_CAST && AllDifferent(casts);
    DifferConcat(k, casts);
    assert forall i :: 0 <= i < |KvNodes(m)| ==> KvNodes(m)[i][0] == 'k' || KvNodes(m)[i][0] == 'v';
    DifferConcat(q, KvNodes(m));
    DifferConcat(q + KvNodes(m), ATTENTION_NODES);
  }

  lemma PlainConcat(a: string, b: string)
    requires '.' !in a && IsPlain(b)
    ensures IsPlain(a + b)
  {
  }

  lemma SideNodesPlain(m: Model, side: string)
    requires '.' !in side
    ensures forall i :: 0 <= i < |SideNodes(m, side)| ==> IsPlain(SideNodes(m, side)[i])
  {
    PlainConcat(side, "_proj_output_qdq");
    PlainConcat(side, "_norm_input_qdq");
    PlainConcat(side, "_norm_output_qdq");
    PlainConcat(side, "_rope_mul_0_output_qdq");
    PlainConcat(side, "_rope_mul_1_output_qdq");
    PlainConcat(side, "_rope_neg_half_qdq");
    PlainConcat(side, "_rope_add_0_output_qdq");
    hide IsPlain;
  }

  lemma AttentionNodesPlain()
    ensures forall i :: 0 <= i < |ATTENTION_NODES| ==> IsPlain(ATTENTION_NODES[i])
  {
  }

  lemma NodesPlain(m: Model)
    ensures forall i :: 0 <= i < |Nodes(m)| ==> IsPlain(Nodes(m)[i])
  {
    hide SideNodes;
    SideNodesPlain(m, "q");
    SideNodesPlain(m, "k");
    AttentionNodesPlain();
    assert IsPlain(K_CAST) && IsPlain(V_WIDE) && IsPlain(V_CAST);
    hide IsPlain;
    assert forall i :: 0 <= i < |KvNodes(m)| ==> IsPlain(KvNodes(m)[i]);
  }

  // ---- the steps -------------------------------------------------------------------------------------------

  function ProjectionSteps(proj: string, count: nat): seq<Step> {
    [WeightStep(proj, count), ScaleStep(proj, count, SCALE1), ScaleStep(proj, count, SCALE2)]
  }

  /** How many heads the `i`-th node is copied to. */
  function CopiesOf(m: Model, c: Config, i: nat): nat {
    if |SideNodes(m, "q")| <= i < |SideNodes(m, "q")| + |KvNodes(m)| then c.kvHeads else c.heads
  }

  function NormSteps(m: Model, c: Config): seq<Step> {
    if m.Qwen3? then [NormStep("q_norm", c.heads), NormStep("k_norm", c.kvHeads)] else []
  }

  function QdqSteps(m: Model, c: Config): seq<Step> {
    seq(|Nodes(m)|, i requires 0 <= i < |Nodes(m)| => QdqStep(Nodes(m)[i], CopiesOf(m, c, i)))
  }

  function CutSteps(c: Config): seq<Step> {
    ProjectionSteps("q_proj", c.heads) + ProjectionSteps("k_proj", c.kvHeads) + ProjectionSteps("v_proj", c.kvHeads)
  }

  /** What the preparation does for each layer. */
  function LayerSteps(m: Model, c: Config): seq<Step> { CutSteps(c) + NormSteps(m, c) + QdqSteps(m, c) }

  function Place(steps: seq<Step>, layers: nat): seq<Placed> {
    if layers == 0 then [] else Place(steps, layers - 1) + seq(|steps|, i requires 0 <= i < |steps| => Placed(layers - 1, steps[i]))
  }

  ghost predicate Clash(a: Step, b: Step) { BaseOf(a) == BaseOf(b) && exists s :: SuffixOf(a, s) && SuffixOf(b, s) }

  ghost predicate NoClash(steps: seq<Step>) { forall i, j :: 0 <= i < j < |steps| ==> !Clash(steps[i], steps[j]) }

  lemma NoClashConcat(a: seq<Step>, b: seq<Step>)
    requires NoClash(a) && NoClash(b) && forall i, j :: 0 <= i < |a| && 0 <= j < |b| ==> !Clash(a[i], b[j])
    ensures NoClash(a + b)
  {
    hide Clash;
  }

  lemma ProjectionStepsApart(proj: string, count: nat)
    ensures NoClash(ProjectionSteps(proj, count))
  {
    assert WEIGHT[1] == 'w' && SCALE1[6] == '1' && SCALE2[6] == '2';
  }

  lemma CutStepsApart(c: Config)
    ensures NoClash(CutSteps(c))
  {
    var q, k, v := ProjectionSteps("q_proj", c.heads), ProjectionSteps("k_proj", c.kvHeads), ProjectionSteps("v_proj", c.kvHeads);
    ProjectionStepsApart("q_proj", c.heads);
    ProjectionStepsApart("k_proj", c.kvHeads);
    ProjectionStepsApart("v_proj", c.kvHeads);
    assert forall i :: 0 <= i < |q| ==> BaseOf(q[i])[0] == 'q';
    assert forall i :: 0 <= i < |k| ==> BaseOf(k[i])[0] == 'k';
    assert forall i :: 0 <= i < |v| ==> BaseOf(v[i])[0] == 'v';
    hide BaseOf, SuffixOf, ProjectionSteps;
    NoClashConcat(q, k);
    var qk: seq<Step> := q + k;
    assert forall i :: 0 <= i < |qk| ==> BaseOf(qk[i])[0] != 'v';
    NoClashConcat(qk, v);
  }

  lemma NormStepsApart(m: Model, c: Config)
    ensures NoClash(NormSteps(m, c))
    ensures forall i, j :: 0 <= i < |CutSteps(c)| && 0 <= j < |NormSteps(m, c)| ==> !Clash(CutSteps(c)[i], NormSteps(m, c)[j])
  {
    var a, b := NormSteps(m, c), CutSteps(c);
    assert forall i :: 0 <= i < |b| ==> |BaseOf(b[i])| == 7 && BaseOf(b[i])[2] == 'p';
    assert forall j :: 0 <= j < |a| ==> |BaseOf(a[j])| == 7 && BaseOf(a[j])[2] == 'n';
    assert m.Qwen3? ==> BaseOf(a[0])[0] == 'q' && BaseOf(a[1])[0] == 'k';
  }

  lemma QdqStepsApart(m: Model, c: Config)
    ensures NoClash(QdqSteps(m, c))
    ensures forall x: Step, j :: 0 <= j < |QdqSteps(m, c)| && !x.QdqStep? && (x.ScaleStep? ==> x.suffix == SCALE1 || x.suffix == SCALE2)
              ==> !Clash(x, QdqSteps(m, c)[j])
  {
    NodesDiffer(m);
    var a := QdqSteps(m, c);
    hide Nodes;
    forall i, j | 0 <= i < j < |a| ensures !Clash(a[i], a[j]) {
      if BaseOf(a[i]) == BaseOf(a[j]) { CancelRight(Nodes(m)[i], Nodes(m)[j], "_h"); }
    }
    assert FAKE_SCALE[1] == 'f' && FAKE_ZERO[1] == 'f' && WEIGHT[1] == 'w' && SCALE1[1] == 's' && SCALE2[1] == 's' && SCALE[1] == 's' && ZERO[1] == 'z';
  }

  lemma LayerStepsApart(m: Model, c: Config)
    ensures NoClash(LayerSteps(m, c))
  {
    CutStepsApart(c);
    NormStepsApart(m, c);
    QdqStepsApart(m, c);
    var a, b, q := CutSteps(c), NormSteps(m, c), QdqSteps(m, c);
    var ab: seq<Step> := a + b;
    assert forall i :: 0 <= i < |ab| ==> !ab[i].QdqStep? && (ab[i].ScaleStep? ==> ab[i].suffix == SCALE1 || ab[i].suffix == SCALE2);
    hide Clash, CutSteps, NormSteps, QdqSteps;
    NoClashConcat(a, b);
    NoClashConcat(ab, q);
  }

  lemma {:induction false} PlaceApart(steps: seq<Step>, layers: nat)
    requires NoClash(steps)
    ensures AllApart(Place(steps, layers))
    ensures forall i :: 0 <= i < |Place(steps, layers)| ==> Place(steps, layers)[i].layer < layers && Place(steps, layers)[i].step in steps
    decreases layers
  {
    if layers > 0 {
      PlaceApart(steps, layers - 1);
      var a := Place(steps, layers - 1);
      var b := seq(|steps|, i requires 0 <= i < |steps| => Placed(layers - 1, steps[i]));
      hide BaseOf, SuffixOf;
      forall i, j | 0 <= i < j < |a + b| ensures StepsApart((a + b)[i], (a + b)[j]) {
        if i < |a| && j < |a| { assert StepsApart(a[i], a[j]); }
        else if i < |a| { assert a[i].layer < layers - 1; }
        else { assert !Clash(steps[i - |a|], steps[j - |a|]); }
      }
    }
  }

  lemma {:induction false} PlacedAt(steps: seq<Step>, layers: nat, l: nat, k: nat) returns (i: nat)
    requires l < layers && k < |steps|
    ensures i < |Place(steps, layers)| && Place(steps, layers)[i] == Placed(l, steps[k])
    decreases layers
  {
    if l == layers - 1 { i := |Place(steps, layers - 1)| + k; } else { i := PlacedAt(steps, layers - 1, l, k); }
  }

  // ---- reading parameters ------------------------------------------------------------------------------------

  predicate HasNode<T>(d: Dict<T>, l: nat, node: string) { PlainName(l, node, FAKE_SCALE) in d && PlainName(l, node, FAKE_ZERO) in d }

  function NodeAt<T>(d: Dict<T>, l: nat, node: string): Quant<T>
    requires HasNode(d, l, node)
  {
    Quant(d[PlainName(l, node, FAKE_SCALE)], d[PlainName(l, node, FAKE_ZERO)])
  }

  predicate HasHeadNode<T>(d: Dict<T>, l: nat, node: string, h: nat) {
    NameOf(Key(l, node + "_h", h, FAKE_SCALE)) in d && NameOf(Key(l, node + "_h", h, FAKE_ZERO)) in d
  }

  function HeadNodeAt<T>(d: Dict<T>, l: nat, node: string, h: nat): Quant<T>
    requires HasHeadNode(d, l, node, h)
  {
    Quant(d[NameOf(Key(l, node + "_h", h, FAKE_SCALE))], d[NameOf(Key(l, node + "_h", h, FAKE_ZERO))])
  }

  predicate HasFilter<T>(d: Dict<T>, l: nat, proj: string) {
    PlainName(l, proj, WEIGHT) in d && PlainName(l, proj, SCALE1) in d && PlainName(l, proj, SCALE2) in d
  }

  function FilterAt<T>(d: Dict<T>, l: nat, proj: string): Filter<T>
    requires HasFilter(d, l, proj)
  {
    Filter(d[PlainName(l, proj, WEIGHT)], d[PlainName(l, proj, SCALE1)], d[PlainName(l, proj, SCALE2)])
  }

  predicate HasHeadFilter<T>(d: Dict<T>, l: nat, proj: string, h: nat) {
    && NameOf(Key(l, proj + ".", h, WEIGHT)) in d && NameOf(Key(l, proj + ".", h, SCALE1)) in d && NameOf(Key(l, proj + ".", h, SCALE2)) in d
  }

  function HeadFilterAt<T>(d: Dict<T>, l: nat, proj: string, h: nat): Filter<T>
    requires HasHeadFilter(d, l, proj, h)
  {
    Filter(d[NameOf(Key(l, proj + ".", h, WEIGHT))], d[NameOf(Key(l, proj + ".", h, SCALE1))], d[NameOf(Key(l, proj + ".", h, SCALE2))])
  }

  /** The norm of a side; only Qwen3 has one. */
  function NormAt<T>(d: Dict<T>, l: nat, norm: string): NormWeight<T>
    requires PlainName(l, norm, WEIGHT) in d
  {
    NormWeight(d[PlainName(l, norm, WEIGHT)], Lookup(d, PlainName(l, norm, SCALE)), Lookup(d, PlainName(l, norm, ZERO)))
  }

  function HeadNormAt<T>(d: Dict<T>, l: nat, norm: string, h: nat): NormWeight<T>
    requires NameOf(Key(l, norm + ".", h, WEIGHT)) in d
  {
    NormWeight(d[NameOf(Key(l, norm + ".", h, WEIGHT))], Lookup(d, NameOf(Key(l, norm + ".", h, SCALE))), Lookup(d, NameOf(Key(l, norm + ".", h, ZERO))))
  }

  // ---- each step's entries -------------------------------------------------------------------------------------

  lemma {:induction false} QdqHas<T>(q: Quant<T>, layer: nat, base: string, n: nat, h: nat)
    requires h < n
    ensures Entry(Key(layer, base, h, FAKE_SCALE), q.scale) in QdqEntries(q, layer, base, n)
    ensures Entry(Key(layer, base, h, FAKE_ZERO), q.zeroPoint) in QdqEntries(q, layer, base, n)
  {
    if h < n - 1 { QdqHas(q, layer, base, n - 1, h); }
  }

  /** After the preparation every head reads, for each node, what the whole layer would have read. */
  lemma NodeCopied<T>(d: Dict<T>, e: Dict<T>, dim: nat, ps: seq<Placed>, i: nat, l: nat, node: string, count: nat, h: nat)
    requires StepsFit(d, dim, ps) && Prepared(d, dim, ps) == Some(e) && i < |ps| && ps[i] == Placed(l, QdqStep(node, count))
    requires HasNode(d, l, node) && h < count
    ensures HasHeadNode(e, l, node, h) && HeadNodeAt(e, l, node, h) == NodeAt(d, l, node)
  {
    hide Prepared, PlainName, NameOf, QdqEntries;
    PreparedHolds(d, dim, ps, i);
    QdqHas(NodeAt(d, l, node), l, node + "_h", count, h);
  }

  lemma FilterCut<T>(d: Dict<T>, e: Dict<T>, dim: nat, ps: seq<Placed>, i: nat, j: nat, k: nat, l: nat, proj: string, count: nat, h: nat)
    requires StepsFit(d, dim, ps) && Prepared(d, dim, ps) == Some(e) && i < |ps| && j < |ps| && k < |ps|
    requires ps[i] == Placed(l, WeightStep(proj, count))
    requires ps[j] == Placed(l, ScaleStep(proj, count, SCALE1)) && ps[k] == Placed(l, ScaleStep(proj, count, SCALE2))
    requires HasFilter(d, l, proj) && h < count
    ensures FilterAt(d, l, proj).weight.WF() && FilterAt(d, l, proj).weight.d3 == Times(count, dim)
    ensures HasHeadFilter(e, l, proj, h) && HeadFilterAt(e, l, proj, h) == HeadFilter(FilterAt(d, l, proj), h, count, dim)
  {
    hide Prepared, PlainName, NameOf, HeadWeight;
    PreparedHolds(d, dim, ps, i);
    PreparedHolds(d, dim, ps, j);
    PreparedHolds(d, dim, ps, k);
    var f, base := FilterAt(d, l, proj), proj + ".";
    assert Cuttable(d, dim, ps[i]);
    var ws := WeightEntries(f.weight, l, base, count, dim, count);
    assert Entries(d, dim, ps[i]) == ws && ws[h] in ws;
    var s1 := ScaleEntries(f.scale1, l, base, SCALE1, count, count);
    assert Entries(d, dim, ps[j]) == s1 && s1[h] in s1;
    var s2 := ScaleEntries(f.scale2, l, base, SCALE2, count, count);
    assert Entries(d, dim, ps[k]) == s2 && s2[h] in s2;
    WeightIs(f, h, count, dim);
  }

  lemma WeightIs<T>(f: Filter<T>, h: nat, count: nat, dim: nat)
    requires f.weight.WF() && f.weight.d3 == Times(count, dim) && h < count
    ensures HeadFilter(f, h, count, dim).weight == HeadWeight(f.weight, h, count, dim)
  {
  }

  // ---- norms ---------------------------------------------------------------------------------------------------

  /**
    No per-head norm scale or zero point is in the file beforehand.  The preparation writes one only where the
    layer has one, so one that was there already would be read by a head whose layer has none.
   */
  ghost predicate NoHeadScales<T>(d: Dict<T>) {
    forall k: Key :: Proper(k) && (k.suffix == SCALE || k.suffix == ZERO) ==> NameOf(k) !in d
  }

  lemma {:induction false} NormHas<T>(w: NormWeight<T>, layer: nat, base: string, n: nat, h: nat)
    requires h < n
    ensures var es := NormEntries(w, layer, base, n);
            && Entry(Key(layer, base, h, WEIGHT), w.weight) in es
            && (w.scale.Some? ==> Entry(Key(layer, base, h, SCALE), w.scale.value) in es)
            && (w.zeroPoint.Some? ==> Entry(Key(layer, base, h, ZERO), w.zeroPoint.value) in es)
  {
    if h < n - 1 { NormHas(w, layer, base, n - 1, h); }
  }

  lemma {:induction false} NormHasOnly<T>(w: NormWeight<T>, layer: nat, base: string, n: nat, x: Entry<T>)
    requires x in NormEntries(w, layer, base, n)
    ensures x.key.suffix == WEIGHT || (x.key.suffix == SCALE && w.scale.Some?) || (x.key.suffix == ZERO && w.zeroPoint.Some?)
  {
    if x in NormEntries(w, layer, base, n - 1) { NormHasOnly(w, layer, base, n - 1, x); }
  }

  lemma NormSuffixes()
    ensures WEIGHT != SCALE && WEIGHT != ZERO && SCALE != ZERO
  {
    assert WEIGHT[1] == 'w' && SCALE[1] == 's' && ZERO[1] == 'z';
  }

  /** A norm's optional parameter that the layer does not have, its heads do not have either. */
  lemma NotMade<T>(d: Dict<T>, e: Dict<T>, dim: nat, ps: seq<Placed>, i: nat, l: nat, norm: string, count: nat, h: nat, suffix: string)
    requires StepsFit(d, dim, ps) && AllApart(ps) && NoHeadScales(d) && Prepared(d, dim, ps) == Some(e)
    requires i < |ps| && ps[i] == Placed(l, NormStep(norm, count)) && (suffix == SCALE || suffix == ZERO)
    requires PlainName(l, norm, WEIGHT) in d && PlainName(l, norm, suffix) !in d
    ensures NameOf(Key(l, norm + ".", h, suffix)) !in e
  {
    hide Prepared, PlainName, NameOf, NormEntries, Aborts, Cuttable, Plan, StepsApart;
    var k := Key(l, norm + ".", h, suffix);
    NormSuffixes();
    PreparedIsPlan(d, d, dim, ps);
    PushAllHolds(d, Plan(d, dim, ps));
    if NameOf(k) in e {
      var plan := Plan(d, dim, ps);
      var at := PlanFrom(d, dim, ps);
      var j :| 0 <= j < |plan| && NameOf(k) == NameOf(plan[j].key);
      PlanProper(d, dim, ps, at, j);
      NamesApart(k, plan[j].key);
      OwnStep(d, dim, ps, i, at[j], plan[j]);
      NormHasOnly(NormAt(d, l, norm), l, norm + ".", count, plan[j]);
    }
  }

  lemma PlanProper<T>(d: Dict<T>, dim: nat, ps: seq<Placed>, at: seq<nat>, j: nat)
    requires StepsFit(d, dim, ps) && NoneAborts(d, ps) && j < |Plan(d, dim, ps)| == |at|
    requires at[j] < |ps| && Plan(d, dim, ps)[j] in Entries(d, dim, ps[at[j]])
    ensures Proper(Plan(d, dim, ps)[j].key)
  {
    hide Entries, Plan, Proper, Aborts, Cuttable;
    EntriesFrom(d, dim, ps[at[j]]);
    FromProper(Entries(d, dim, ps[at[j]]), ps[at[j]], ps[at[j]].step.count);
  }

  /** A parameter of a step's layer, node and suffix is made by that step. */
  lemma OwnStep<T>(d: Dict<T>, dim: nat, ps: seq<Placed>, i: nat, j: nat, x: Entry<T>)
    requires StepsFit(d, dim, ps) && NoneAborts(d, ps) && AllApart(ps) && i < |ps| && j < |ps| && x in Entries(d, dim, ps[j])
    requires x.key.layer == ps[i].layer && x.key.base == BaseOf(ps[i].step) && SuffixOf(ps[i].step, x.key.suffix)
    ensures i == j
  {
    hide Entries, Aborts, Cuttable;
    EntriesFrom(d, dim, ps[j]);
  }

  lemma NormCopied<T>(d: Dict<T>, e: Dict<T>, dim: nat, ps: seq<Placed>, i: nat, l: nat, norm: string, count: nat, h: nat)
    requires StepsFit(d, dim, ps) && AllApart(ps) && NoHeadScales(d) && Prepared(d, dim, ps) == Some(e)
    requires i < |ps| && ps[i] == Placed(l, NormStep(norm, count)) && h < count && PlainName(l, norm, WEIGHT) in d
    ensures NameOf(Key(l, norm + ".", h, WEIGHT)) in e && HeadNormAt(e, l, norm, h) == NormAt(d, l, norm)
  {
    hide Prepared, PlainName, NameOf, NormEntries, NoHeadScales, AllApart;
    PreparedHolds(d, dim, ps, i);
    NormHas(NormAt(d, l, norm), l, norm + ".", count, h);
    if PlainName(l, norm, SCALE) !in d { NotMade(d, e, dim, ps, i, l, norm, count, h, SCALE); }
    if PlainName(l, norm, ZERO) !in d { NotMade(d, e, dim, ps, i, l, norm, count, h, ZERO); }
  }

  // ---- the parameters of the two forms -----------------------------------------------------------------------

  function PostOf<T>(m: Model, norm: Option<NormWeight<T>>, q: seq<Quant<T>>): Post<T>
    requires |q| >= 2 && (m.Qwen3? ==> norm.Some?)
  {
    if m.Llama? then Plain(q[0]) else Norm(q[0], norm.value, q[1])
  }

  function RopeAt<T>(m: Model, q: seq<Quant<T>>): Rope<T>
    requires |q| >= 6
  {
    var r := if m.Llama? then 1 else 2;
    Rope(q[r], q[r + 1], q[r + 2], q[r + 3])
  }

  /** The query side from its projection, its norm if it has one, and the quantization of its nodes. */
  function QueryFrom<T>(m: Model, f: Filter<T>, norm: Option<NormWeight<T>>, q: seq<Quant<T>>): QueryParams<T>
    requires |q| == |QueryNodes(m)| && (m.Qwen3? ==> norm.Some?)
  {
    var r := if m.Llama? then 5 else 6;
    QueryParams(f, PostOf(m, norm, q), RopeAt(m, q),
                Softmax(q[r], q[r + 1], q[r + 2], q[r + 3], q[r + 4], q[r + 5], q[r + 6], q[r + 7], q[r + 8]))
  }

  function KvFrom<T>(m: Model, k: Filter<T>, norm: Option<NormWeight<T>>, v: Filter<T>, q: seq<Quant<T>>): KvParams<T>
    requires |q| == |KvNodes(m)| && (m.Qwen3? ==> norm.Some?)
  {
    var r := if m.Llama? then 5 else 6;
    KvParams(k, PostOf(m, norm, q), RopeAt(m, q), q[r].scale, v, q[r + 1], q[r + 2].scale)
  }

  ghost predicate HasNodes<T>(d: Dict<T>, l: nat, nodes: seq<string>) { forall i :: 0 <= i < |nodes| ==> HasNode(d, l, nodes[i]) }

  ghost predicate HasHeadNodes<T>(d: Dict<T>, l: nat, nodes: seq<string>, h: nat) {
    forall i :: 0 <= i < |nodes| ==> HasHeadNode(d, l, nodes[i], h)
  }

  function NodesAt<T>(d: Dict<T>, l: nat, nodes: seq<string>): seq<Quant<T>>
    requires HasNodes(d, l, nodes)
  {
    seq(|nodes|, i requires 0 <= i < |nodes| => NodeAt(d, l, nodes[i]))
  }

  function HeadNodesAt<T>(d: Dict<T>, l: nat, nodes: seq<string>, h: nat): seq<Quant<T>>
    requires HasHeadNodes(d, l, nodes, h)
  {
    seq(|nodes|, i requires 0 <= i < |nodes| => HeadNodeAt(d, l, nodes[i], h))
  }

  ghost predicate HasNorm<T>(d: Dict<T>, m: Model, l: nat, norm: string) { m.Qwen3? ==> PlainName(l, norm, WEIGHT) in d }

  ghost predicate HasHeadNorm<T>(d: Dict<T>, m: Model, l: nat, norm: string, h: nat) {
    m.Qwen3? ==> NameOf(Key(l, norm + ".", h, WEIGHT)) in d
  }

  function NormOf<T>(d: Dict<T>, m: Model, l: nat, norm: string): Option<NormWeight<T>>
    requires HasNorm(d, m, l, norm)
  {
    if m.Qwen3? then Some(NormAt(d, l, norm)) else None
  }

  function HeadNormOf<T>(d: Dict<T>, m: Model, l: nat, norm: string, h: nat): Option<NormWeight<T>>
    requires HasHeadNorm(d, m, l, norm, h)
  {
    if m.Qwen3? then Some(HeadNormAt(d, l, norm, h)) else None
  }

  /** The multi-head module finds every parameter it pulls. */
  ghost predicate Ready<T>(d: Dict<T>, m: Model, l: nat) {
    && HasFilter(d, l, "q_proj") && HasFilter(d, l, "k_proj") && HasFilter(d, l, "v_proj")
    && HasNodes(d, l, QueryNodes(m)) && HasNodes(d, l, KvNodes(m)) && HasNorm(d, m, l, "q_norm") && HasNorm(d, m, l, "k_norm")
  }

  function QueryAt<T>(d: Dict<T>, m: Model, l: nat): QueryParams<T>
    requires Ready(d, m, l)
  {
    QueryFrom(m, FilterAt(d, l, "q_proj"), NormOf(d, m, l, "q_norm"), NodesAt(d, l, QueryNodes(m)))
  }

  function KvAt<T>(d: Dict<T>, m: Model, l: nat): KvParams<T>
    requires Ready(d, m, l)
  {
    KvFrom(m, FilterAt(d, l, "k_proj"), NormOf(d, m, l, "k_norm"), FilterAt(d, l, "v_proj"), NodesAt(d, l, KvNodes(m)))
  }

  /** The per-head module finds every parameter of query head `h`. */
  ghost predicate QueryHeadReady<T>(d: Dict<T>, m: Model, l: nat, h: nat) {
    HasHeadFilter(d, l, "q_proj", h) && HasHeadNodes(d, l, QueryNodes(m), h) && HasHeadNorm(d, m, l, "q_norm", h)
  }

  ghost predicate KvHeadReady<T>(d: Dict<T>, m: Model, l: nat, h: nat) {
    && HasHeadFilter(d, l, "k_proj", h) && HasHeadFilter(d, l, "v_proj", h) && HasHeadNodes(d, l, KvNodes(m), h) && HasHeadNorm(d, m, l, "k_norm", h)
  }

  function HeadQueryAt<T>(d: Dict<T>, m: Model, l: nat, h: nat): QueryParams<T>
    requires QueryHeadReady(d, m, l, h)
  {
    QueryFrom(m, HeadFilterAt(d, l, "q_proj", h), HeadNormOf(d, m, l, "q_norm", h), HeadNodesAt(d, l, QueryNodes(m), h))
  }

  function HeadKvAt<T>(d: Dict<T>, m: Model, l: nat, h: nat): KvParams<T>
    requires KvHeadReady(d, m, l, h)
  {
    KvFrom(m, HeadFilterAt(d, l, "k_proj", h), HeadNormOf(d, m, l, "k_norm", h), HeadFilterAt(d, l, "v_proj", h), HeadNodesAt(d, l, KvNodes(m), h))
  }

  // ---- what the preparation leaves for each head ---------------------------------------------------------------

  /** A run of the preparation over all layers; only Qwen3 has norms. */
  ghost predicate PreparedFor<T>(d: Dict<T>, e: Dict<T>, m: Model, c: Config, layers: nat) {
    var ps := Place(LayerSteps(m, c), layers);
    c.Valid() && (m.Qwen3? ==> NoHeadScales(d)) && StepsFit(d, c.headDim, ps) && Prepared(d, c.headDim, ps) == Some(e)
  }

  /** The steps of a layer, by position. */
  lemma StepPositions(m: Model, c: Config)
    ensures var s := LayerSteps(m, c);
            && |s| >= 9 && (m.Qwen3? ==> |s| >= 11)
            && s[0] == WeightStep("q_proj", c.heads) && s[1] == ScaleStep("q_proj", c.heads, SCALE1) && s[2] == ScaleStep("q_proj", c.heads, SCALE2)
            && s[3] == WeightStep("k_proj", c.kvHeads) && s[4] == ScaleStep("k_proj", c.kvHeads, SCALE1) && s[5] == ScaleStep("k_proj", c.kvHeads, SCALE2)
            && s[6] == WeightStep("v_proj", c.kvHeads) && s[7] == ScaleStep("v_proj", c.kvHeads, SCALE1) && s[8] == ScaleStep("v_proj", c.kvHeads, SCALE2)
            && (m.Qwen3? ==> s[9] == NormStep("q_norm", c.heads) && s[10] == NormStep("k_norm", c.kvHeads))
  {
    hide Nodes;
  }

  lemma NodePosition(m: Model, c: Config, i: nat)
    requires i < |Nodes(m)|
    ensures var s, k := LayerSteps(m, c), 9 + |NormSteps(m, c)| + i;
            k < |s| && s[k] == QdqStep(Nodes(m)[i], CopiesOf(m, c, i))
  {
    hide Nodes;
  }

  lemma CutFor<T>(d: Dict<T>, e: Dict<T>, m: Model, c: Config, layers: nat, l: nat, k: nat, proj: string, count: nat, h: nat)
    requires PreparedFor(d, e, m, c, layers) && l < layers && HasFilter(d, l, proj) && h < count
    requires k + 2 < |LayerSteps(m, c)|
    requires LayerSteps(m, c)[k] == WeightStep(proj, count) && LayerSteps(m, c)[k + 1] == ScaleStep(proj, count, SCALE1)
    requires LayerSteps(m, c)[k + 2] == ScaleStep(proj, count, SCALE2)
    ensures FilterAt(d, l, proj).weight.WF() && FilterAt(d, l, proj).weight.d3 == Times(count, c.headDim)
    ensures HasHeadFilter(e, l, proj, h) && HeadFilterAt(e, l, proj, h) == HeadFilter(FilterAt(d, l, proj), h, count, c.headDim)
  {
    hide LayerSteps, Prepared, StepsFit, FilterAt, HeadFilterAt, HeadFilter, HasFilter, HasHeadFilter, NoHeadScales;
    var ps := Place(LayerSteps(m, c), layers);
    var i := PlacedAt(LayerSteps(m, c), layers, l, k);
    var i1 := PlacedAt(LayerSteps(m, c), layers, l, k + 1);
    var i2 := PlacedAt(LayerSteps(m, c), layers, l, k + 2);
    FilterCut(d, e, c.headDim, ps, i, i1, i2, l, proj, count, h);
  }

  lemma NodeFor<T>(d: Dict<T>, e: Dict<T>, m: Model, c: Config, layers: nat, l: nat, i: nat, h: nat)
    requires PreparedFor(d, e, m, c, layers) && l < layers && i < |Nodes(m)| && HasNode(d, l, Nodes(m)[i]) && h < CopiesOf(m, c, i)
    ensures HasHeadNode(e, l, Nodes(m)[i], h) && HeadNodeAt(e, l, Nodes(m)[i], h) == NodeAt(d, l, Nodes(m)[i])
  {
    hide LayerSteps, Prepared, StepsFit, NodeAt, HeadNodeAt, HasNode, HasHeadNode, NoHeadScales, Nodes, CopiesOf;
    NodePosition(m, c, i);
    var j := PlacedAt(LayerSteps(m, c), layers, l, 9 + |NormSteps(m, c)| + i);
    NodeCopied(d, e, c.headDim, Place(LayerSteps(m, c), layers), j, l, Nodes(m)[i], CopiesOf(m, c, i), h);
  }

  lemma NormFor<T>(d: Dict<T>, e: Dict<T>, m: Model, c: Config, layers: nat, l: nat, k: nat, norm: string, count: nat, h: nat)
    requires PreparedFor(d, e, m, c, layers) && l < layers && m.Qwen3? && HasNorm(d, m, l, norm) && h < count
    requires k < |LayerSteps(m, c)| && LayerSteps(m, c)[k] == NormStep(norm, count)
    ensures HasHeadNorm(e, m, l, norm, h) && HeadNormOf(e, m, l, norm, h) == NormOf(d, m, l, norm)
  {
    hide LayerSteps, Prepared, StepsFit, NoHeadScales, NormAt, HeadNormAt, PlainName, NameOf;
    LayerStepsApart(m, c);
    PlaceApart(LayerSteps(m, c), layers);
    var i := PlacedAt(LayerSteps(m, c), layers, l, k);
    NormCopied(d, e, c.headDim, Place(LayerSteps(m, c), layers), i, l, norm, count, h);
  }

  lemma NodesFor<T>(d: Dict<T>, e: Dict<T>, m: Model, c: Config, layers: nat, l: nat, nodes: seq<string>, at: seq<nat>, count: nat, h: nat)
    requires PreparedFor(d, e, m, c, layers) && l < layers && HasNodes(d, l, nodes) && h < count && |at| == |nodes|
    requires forall i :: 0 <= i < |nodes| ==> at[i] < |Nodes(m)| && Nodes(m)[at[i]] == nodes[i] && CopiesOf(m, c, at[i]) == count
    ensures HasHeadNodes(e, l, nodes, h) && HeadNodesAt(e, l, nodes, h) == NodesAt(d, l, nodes)
  {
    hide PreparedFor, HasNode, HasHeadNode, NodeAt, HeadNodeAt, Nodes, CopiesOf;
    forall i | 0 <= i < |nodes| ensures HasHeadNode(e, l, nodes[i], h) && HeadNodeAt(e, l, nodes[i], h) == NodeAt(d, l, nodes[i]) {
      NodeFor(d, e, m, c, layers, l, at[i], h);
    }
  }

  /** Where the query side's nodes, and the key and value side's, are in the list of all nodes. */
  lemma QueryPositions(m: Model, c: Config) returns (at: seq<nat>)
    ensures |at| == |QueryNodes(m)|
    ensures forall i :: 0 <= i < |at| ==> at[i] < |Nodes(m)| && Nodes(m)[at[i]] == QueryNodes(m)[i] && CopiesOf(m, c, at[i]) == c.heads
  {
    var s, k := |SideNodes(m, "q")|, |KvNodes(m)|;
    hide SideNodes, KvNodes;
    at := seq(|QueryNodes(m)|, i => if i < s then i else i + k);
  }

  lemma KvPositions(m: Model, c: Config) returns (at: seq<nat>)
    ensures |at| == |KvNodes(m)|
    ensures forall i :: 0 <= i < |at| ==> at[i] < |Nodes(m)| && Nodes(m)[at[i]] == KvNodes(m)[i] && CopiesOf(m, c, at[i]) == c.kvHeads
  {
    var s := |SideNodes(m, "q")|;
    hide SideNodes, KvNodes;
    at := seq(|KvNodes(m)|, i => i + s);
  }

  /** After the preparation, query head `h` finds all it pulls, and finds its part of what the layer would have pulled. */
  lemma QueryHeadSplit<T>(d: Dict<T>, e: Dict<T>, m: Model, c: Config, layers: nat, l: nat, h: nat)
    requires PreparedFor(d, e, m, c, layers) && l < layers && Ready(d, m, l) && h < c.heads
    ensures QueryAt(d, m, l).proj.weight.WF() && QueryAt(d, m, l).proj.weight.d3 == Times(c.heads, c.headDim)
    ensures QueryHeadReady(e, m, l, h) && HeadQueryAt(e, m, l, h) == HeadQuery(c, QueryAt(d, m, l), h)
  {
    hide PreparedFor, HasFilter, HasHeadFilter, FilterAt, HeadFilterAt, HeadFilter, NodesAt, HeadNodesAt, HasNodes, HasHeadNodes, QueryNodes, HasNorm, HasHeadNorm, NormOf, HeadNormOf, LayerSteps, PostOf, RopeAt;
    StepPositions(m, c);
    CutFor(d, e, m, c, layers, l, 0, "q_proj", c.heads, h);
    var at := QueryPositions(m, c);
    NodesFor(d, e, m, c, layers, l, QueryNodes(m), at, c.heads, h);
    if m.Qwen3? { NormFor(d, e, m, c, layers, l, 9, "q_norm", c.heads, h); } else { NoNorm(d, e, l, "q_norm", h); }
  }

  lemma NoNorm<T>(d: Dict<T>, e: Dict<T>, l: nat, norm: string, h: nat)
    ensures HasNorm(d, Llama, l, norm) && HasHeadNorm(e, Llama, l, norm, h) && NormOf(d, Llama, l, norm) == HeadNormOf(e, Llama, l, norm, h)
  {
  }

  lemma KvHeadSplit<T>(d: Dict<T>, e: Dict<T>, m: Model, c: Config, layers: nat, l: nat, h: nat)
    requires PreparedFor(d, e, m, c, layers) && l < layers && Ready(d, m, l) && h < c.kvHeads
    ensures KvAt(d, m, l).kProj.weight.WF() && KvAt(d, m, l).kProj.weight.d3 == Times(c.kvHeads, c.headDim)
    ensures KvAt(d, m, l).vProj.weight.WF() && KvAt(d, m, l).vProj.weight.d3 == Times(c.kvHeads, c.headDim)
    ensures KvHeadReady(e, m, l, h) && HeadKvAt(e, m, l, h) == HeadKv(c, KvAt(d, m, l), h)
  {
    hide PreparedFor, HasFilter, HasHeadFilter, FilterAt, HeadFilterAt, HeadFilter, NodesAt, HeadNodesAt, HasNodes, HasHeadNodes, KvNodes, HasNorm, HasHeadNorm, NormOf, HeadNormOf, LayerSteps, PostOf, RopeAt;
    StepPositions(m, c);
    CutFor(d, e, m, c, layers, l, 3, "k_proj", c.kvHeads, h);
    CutFor(d, e, m, c, layers, l, 6, "v_proj", c.kvHeads, h);
    var at := KvPositions(m, c);
    NodesFor(d, e, m, c, layers, l, KvNodes(m), at, c.kvHeads, h);
    if m.Qwen3? { NormFor(d, e, m, c, layers, l, 10, "k_norm", c.kvHeads, h); } else { NoNorm(d, e, l, "k_norm", h); }
  }

  // ---- the theorem ---------------------------------------------------------------------------------------------

  ghost predicate CommonReady<T>(d: Dict<T>, l: nat) {
    HasFilter(d, l, "o_proj") && HasNode(d, l, "q_proj_input_qdq") && "constant_zero.scale" in d && "constant_zero.zero_point" in d
  }

  function CommonAt<T>(d: Dict<T>, l: nat): Common<T>
    requires CommonReady(d, l)
  {
    Common(NodeAt(d, l, "q_proj_input_qdq"), FilterAt(d, l, "o_proj"), Quant(d["constant_zero.scale"], d["constant_zero.zero_point"]))
  }

  /** What the heads do not share with the preparation is untouched by it. */
  lemma CommonKept<T>(d: Dict<T>, e: Dict<T>, l: nat)
    requires CommonReady(d, l) && forall n :: n in d ==> n in e && e[n] == d[n]
    ensures CommonReady(e, l) && CommonAt(e, l) == CommonAt(d, l)
  {
    hide PlainName;
  }

  lemma PreparedKeeps<T>(d: Dict<T>, e: Dict<T>, m: Model, c: Config, layers: nat)
    requires PreparedFor(d, e, m, c, layers)
    ensures forall n :: n in d ==> n in e && e[n] == d[n]
  {
    hide Prepared, Plan, LayerSteps;
    var ps := Place(LayerSteps(m, c), layers);
    PreparedIsPlan(d, d, c.headDim, ps);
    PushAllHolds(d, Plan(d, c.headDim, ps));
  }

  /** The per-head parameters of a prepared file are the file's parameters split by head. */
  lemma PreparedSplits<T>(d: Dict<T>, e: Dict<T>, m: Model, c: Config, layers: nat, l: nat, qs: seq<QueryParams<T>>, kvs: seq<KvParams<T>>)
    requires PreparedFor(d, e, m, c, layers) && l < layers && Ready(d, m, l)
    requires |qs| == c.heads && forall h :: 0 <= h < |qs| ==> QueryHeadReady(e, m, l, h) ==> qs[h] == HeadQueryAt(e, m, l, h)
    requires |kvs| == c.kvHeads && forall h :: 0 <= h < |kvs| ==> KvHeadReady(e, m, l, h) ==> kvs[h] == HeadKvAt(e, m, l, h)
    requires FilterOk(QueryAt(d, m, l).proj, c.hidden, Times(c.heads, c.headDim))
    requires FilterOk(KvAt(d, m, l).kProj, c.hidden, Times(c.kvHeads, c.headDim)) && FilterOk(KvAt(d, m, l).vProj, c.hidden, Times(c.kvHeads, c.headDim))
    ensures forall h: nat :: h < c.heads ==> QueryHeadReady(e, m, l, h)
    ensures forall h: nat :: h < c.kvHeads ==> KvHeadReady(e, m, l, h)
    ensures SplitOf(c, QueryAt(d, m, l), KvAt(d, m, l), qs, kvs)
  {
    hide PreparedFor, Ready, QueryHeadReady, KvHeadReady, QueryAt, KvAt, HeadQueryAt, HeadKvAt, HeadQuery, HeadKv;
    forall h: nat | h < c.heads ensures QueryHeadReady(e, m, l, h) && qs[h] == HeadQuery(c, QueryAt(d, m, l), h) {
      QueryHeadSplit(d, e, m, c, layers, l, h);
    }
    forall h: nat | h < c.kvHeads ensures KvHeadReady(e, m, l, h) && kvs[h] == HeadKv(c, KvAt(d, m, l), h) {
      KvHeadSplit(d, e, m, c, layers, l, h);
    }
  }

  /**
    Llama: preparing the file and running head by head returns what the multi-head module returns
    over the file before, for every layer, input and cache.
   */
  lemma LlamaPreparedIsMha<T>(d: Dict<T>, e: Dict<T>, c: Config, layers: nat, l: nat, qs: seq<QueryParams<T>>, kvs: seq<KvParams<T>>,
                              a: Arith<T>, inp: Inputs<T>)
    requires PreparedFor(d, e, Llama, c, layers) && l < layers && Ready(d, Llama, l) && CommonReady(d, l)
    requires |qs| == c.heads && forall h :: 0 <= h < |qs| ==> QueryHeadReady(e, Llama, l, h) ==> qs[h] == HeadQueryAt(e, Llama, l, h)
    requires |kvs| == c.kvHeads && forall h :: 0 <= h < |kvs| ==> KvHeadReady(e, Llama, l, h) ==> kvs[h] == HeadKvAt(e, Llama, l, h)
    requires ParamsOk(c, CommonAt(d, l), QueryAt(d, Llama, l), KvAt(d, Llama, l)) && InputsOk(c, inp)
    ensures CommonReady(e, l) && CommonAt(e, l) == CommonAt(d, l) && HeadParamsOk(c, CommonAt(e, l), qs, kvs)
    ensures ShaOutputs(a, c, CommonAt(e, l), qs, kvs, false, inp) == MhaForward(a, c, CommonAt(d, l), QueryAt(d, Llama, l), KvAt(d, Llama, l), inp)
  {
    hide PreparedFor, Ready, QueryHeadReady, KvHeadReady, QueryAt, KvAt, HeadQueryAt, HeadKvAt, CommonReady, CommonAt, ShaOutputs, MhaForward, SplitOf, HeadParamsOk;
    PreparedKeeps(d, e, Llama, c, layers);
    CommonKept(d, e, l);
    PreparedSplits(d, e, Llama, c, layers, l, qs, kvs);
    LlamaShaIsMha(a, c, CommonAt(d, l), QueryAt(d, Llama, l), KvAt(d, Llama, l), qs, kvs, inp);
  }

  /** Qwen3: the same exactly when the direct 8-bit quantization agrees with the one by way of a float on this pass. */
  lemma Qwen3PreparedIsMha<T>(d: Dict<T>, e: Dict<T>, c: Config, layers: nat, l: nat, qs: seq<QueryParams<T>>, kvs: seq<KvParams<T>>,
                              a: Arith<T>, inp: Inputs<T>)
    requires PreparedFor(d, e, Qwen3, c, layers) && l < layers && Ready(d, Qwen3, l) && CommonReady(d, l)
    requires |qs| == c.heads && forall h :: 0 <= h < |qs| ==> QueryHeadReady(e, Qwen3, l, h) ==> qs[h] == HeadQueryAt(e, Qwen3, l, h)
    requires |kvs| == c.kvHeads && forall h :: 0 <= h < |kvs| ==> KvHeadReady(e, Qwen3, l, h) ==> kvs[h] == HeadKvAt(e, Qwen3, l, h)
    requires ParamsOk(c, CommonAt(d, l), QueryAt(d, Qwen3, l), KvAt(d, Qwen3, l)) && InputsOk(c, inp)
    ensures CommonReady(e, l) && CommonAt(e, l) == CommonAt(d, l) && HeadParamsOk(c, CommonAt(e, l), qs, kvs)
    ensures var kv, x := KvAt(d, Qwen3, l), Qdq(a, CommonAt(d, l).input, inp.hidden);
            ShaOutputs(a, c, CommonAt(e, l), qs, kvs, true, inp) == MhaForward(a, c, CommonAt(d, l), QueryAt(d, Qwen3, l), kv, inp) <==>
              CastsAgree(a, kv.kInt8, MhaRotatedKeys(a, c, kv, x, inp.cos, inp.sin)) && CastsAgree(a, kv.vInt8, MhaWideValues(a, c, kv, x))
  {
    hide PreparedFor, Ready, QueryHeadReady, KvHeadReady, QueryAt, KvAt, HeadQueryAt, HeadKvAt, CommonReady, CommonAt, ShaOutputs, MhaForward, SplitOf, HeadParamsOk, CastsAgree, MhaRotatedKeys, MhaWideValues, Qdq, FilterOk;
    PreparedKeeps(d, e, Qwen3, c, layers);
    CommonKept(d, e, l);
    PreparedSplits(d, e, Qwen3, c, layers, l, qs, kvs);
    Qwen3ShaIsMha(a, c, CommonAt(d, l), QueryAt(d, Qwen3, l), KvAt(d, Qwen3, l), qs, kvs, inp);
  }

  /** Qwen3: where the two quantizations to 8 bits agree on every scalar for the file's scales, the same for every input. */
  lemma Qwen3PreparedAlwaysMha<T(!new)>(d: Dict<T>, e: Dict<T>, c: Config, layers: nat, l: nat, qs: seq<QueryParams<T>>, kvs: seq<KvParams<T>>,
                                        a: Arith<T>, inp: Inputs<T>)
    requires PreparedFor(d, e, Qwen3, c, layers) && l < layers && Ready(d, Qwen3, l) && CommonReady(d, l)
    requires |qs| == c.heads && forall h :: 0 <= h < |qs| ==> QueryHeadReady(e, Qwen3, l, h) ==> qs[h] == HeadQueryAt(e, Qwen3, l, h)
    requires |kvs| == c.kvHeads && forall h :: 0 <= h < |kvs| ==> KvHeadReady(e, Qwen3, l, h) ==> kvs[h] == HeadKvAt(e, Qwen3, l, h)
    requires ParamsOk(c, CommonAt(d, l), QueryAt(d, Qwen3, l), KvAt(d, Qwen3, l)) && InputsOk(c, inp)
    requires CastsAlwaysAgree(a, KvAt(d, Qwen3, l).kInt8) && CastsAlwaysAgree(a, KvAt(d, Qwen3, l).vInt8)
    ensures CommonReady(e, l) && CommonAt(e, l) == CommonAt(d, l) && HeadParamsOk(c, CommonAt(e, l), qs, kvs)
    ensures ShaOutputs(a, c, CommonAt(e, l), qs, kvs, true, inp) == MhaForward(a, c, CommonAt(d, l), QueryAt(d, Qwen3, l), KvAt(d, Qwen3, l), inp)
  {
    hide PreparedFor, Ready, QueryHeadReady, KvHeadReady, QueryAt, KvAt, HeadQueryAt, HeadKvAt, CommonReady, CommonAt, ShaOutputs, MhaForward, SplitOf, HeadParamsOk, CastsAlwaysAgree, FilterOk;
    PreparedKeeps(d, e, Qwen3, c, layers);
    CommonKept(d, e, l);
    PreparedSplits(d, e, Qwen3, c, layers, l, qs, kvs);
    Qwen3AlwaysMha(a, c, CommonAt(d, l), QueryAt(d, Qwen3, l), KvAt(d, Qwen3, l), qs, kvs, inp);
  }

  lemma LayerStepsOk(m: Model, c: Config)
    requires c.Valid()
    ensures forall s :: s in LayerSteps(m, c) ==> StepOk(s)
  {
    NodesPlain(m);
    assert IsPlain("q_proj") && IsPlain("k_proj") && IsPlain("v_proj") && IsPlain("q_norm") && IsPlain("k_norm");
    hide Nodes, IsPlain;
    assert forall s :: s in CutSteps(c) ==> StepOk(s);
    assert forall s :: s in NormSteps(m, c) ==> StepOk(s);
    assert forall s :: s in QdqSteps(m, c) ==> StepOk(s);
  }

  /** All the preparation asks of a file is that the weights it cuts have a whole number of heads. */
  lemma ModelStepsFit<T>(d: Dict<T>, m: Model, c: Config, layers: nat)
    requires c.Valid()
    requires forall p :: p in Place(LayerSteps(m, c), layers) ==> Cuttable(d, c.headDim, p)
    ensures StepsFit(d, c.headDim, Place(LayerSteps(m, c), layers))
  {
    LayerStepsOk(m, c);
    LayerStepsApart(m, c);
    hide LayerSteps, Cuttable, AllApart, NoClash;
    PlaceApart(LayerSteps(m, c), layers);
  }

  /**
    The preparation of a model's file goes through exactly when every scale to be copied has its
    zero point and no per-head name is taken.
   */
  lemma ModelPreparationTotal<T>(d: Dict<T>, m: Model, c: Config, layers: nat)
    requires c.Valid() && StepsFit(d, c.headDim, Place(LayerSteps(m, c), layers))
    ensures var ps := Place(LayerSteps(m, c), layers);
            Prepared(d, c.headDim, ps).Some? <==> NoneAborts(d, ps) && NoneEntered(d, Plan(d, c.headDim, ps))
  {
    hide LayerSteps, StepsFit, NoneAborts, NoneEntered, Prepared, Plan, AllApart;
    LayerStepsApart(m, c);
    PlaceApart(LayerSteps(m, c), layers);
    PreparationTotal(d, c.headDim, Place(LayerSteps(m, c), layers));
  }
}
