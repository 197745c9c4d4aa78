/** The parameters of a hybrid text model: their names, and which of them the mobile recipe must quantize. */
module RecipeNames {
  import opened ShaNames

  datatype Part =
    | InputNorm | PostNorm | Gate | Up | Down
    | InQkv | InZ | InA | InB | Conv | ALog | DtBias | LinearNorm | OutProj
    | QProj | KProj | VProj | OProj | QNorm | KNorm

  datatype Name = Embedding | FinalNorm | Of(layer: nat, part: Part)

  const MODEL := "model.language_model."
  const EMBEDDING := MODEL + "embed_tokens.weight"
  const FINAL_NORM := MODEL + "norm.weight"
  const LM_HEAD := "lm_head_out.weight"

  function PartName(p: Part): string {
    match p
    case InputNorm => "input_layernorm.weight"
    case PostNorm => "post_attention_layernorm.weight"
    case Gate => "mlp.gate_proj.weight"
    case Up => "mlp.up_proj.weight"
    case Down => "mlp.down_proj.weight"
    case InQkv => "linear_attn.in_proj_qkv.weight"
    case InZ => "linear_attn.in_proj_z.weight"
    case InA => "linear_attn.in_proj_a.weight"
    case InB => "linear_attn.in_proj_b.weight"
    case Conv => "linear_attn.conv1d.weight"
    case ALog => "linear_attn.A_log"
    case DtBias => "linear_attn.dt_bias"
    case LinearNorm => "linear_attn.norm.weight"
    case OutProj => "linear_attn.out_proj.weight"
    case QProj => "self_attn.q_proj.weight"
    case KProj => "self_attn.k_proj.weight"
    case VProj => "self_attn.v_proj.weight"
    case OProj => "self_attn.o_proj.weight"
    case QNorm => "self_attn.q_norm.weight"
    case KNorm => "self_attn.k_norm.weight"
  }

  function LayerText(layer: nat): string { MODEL + "layers." + Decimal(layer) + "." }

  function Text(n: Name): string {
    match n
    case Embedding => EMBEDDING
    case FinalNorm => FINAL_NORM
    case Of(layer, part) => LayerText(layer) + PartName(part)
  }

  /** The part a part's name belongs to, told from its length and a few of its letters. */
  function PartOf(s: string): Part {
    if |s| == 22 then InputNorm else if |s| == 31 then PostNorm else if |s| == 18 then Up
    else if |s| == 20 then (if s[4] == 'g' then Gate else Down)
    else if |s| == 30 then InQkv else if |s| == 25 then Conv else if |s| == 17 then ALog
    else if |s| == 19 then DtBias else if |s| == 27 then OutProj
    else if |s| == 28 then (if s[20] == 'z' then InZ else if s[20] == 'a' then InA else InB)
    else if |s| != 23 || s[0] == 'l' then LinearNorm
    else if s[12] == 'n' then (if s[10] == 'q' then QNorm else KNorm)
    else if s[10] == 'q' then QProj else if s[10] == 'k' then KProj else if s[10] == 'v' then VProj else OProj
  }

  predicate InAttention(p: Part) { p.QProj? || p.KProj? || p.VProj? || p.OProj? || p.QNorm? || p.KNorm? }

  lemma PartOfAttention(p: Part)
    requires InAttention(p)
    ensures PartOf(PartName(p)) == p
  {
  }

  lemma PartOfOther(p: Part)
    requires !InAttention(p)
    ensures PartOf(PartName(p)) == p
  {
  }

  lemma PartOfPartName(p: Part)
    ensures PartOf(PartName(p)) == p
  {
    hide PartOf, PartName;
    if InAttention(p) { PartOfAttention(p); } else { PartOfOther(p); }
  }

  lemma PartsApart(p: Part, q: Part)
    requires PartName(p) == PartName(q)
    ensures p == q
  {
    PartOfPartName(p);
    PartOfPartName(q);
  }

  lemma TextsApart(m: Name, n: Name)
    requires Text(m) == Text(n)
    ensures m == n
  {
    hide PartName, Decimal, PartOf;
    var k := |MODEL|;
    match m
    case Embedding => assert Text(m)[k] == 'e'; assert Text(n)[k] == 'e';
    case FinalNorm => assert Text(m)[k] == 'n'; assert Text(n)[k] == 'n';
    case Of(i, p) =>
      assert Text(m)[k] == 'l';
      assert Text(n)[k] == 'l';
      match n
      case Of(j, q) =>
        LayersApart(i, PartName(p), j, PartName(q));
        PartsApart(p, q);
  }

  lemma LayersApart(i: nat, s: string, j: nat, t: string)
    requires LayerText(i) + s == LayerText(j) + t
    ensures i == j && s == t
  {
    hide Decimal;
    var head := MODEL + "layers.";
    assert LayerText(i) + s == head + (Decimal(i) + ("." + s));
    assert LayerText(j) + t == head + (Decimal(j) + ("." + t));
    CancelLeft(head, Decimal(i) + ("." + s), Decimal(j) + ("." + t));
    SplitDigitsLeft(Decimal(i), "." + s, Decimal(j), "." + t);
    DecimalInjective(i, j);
    CancelLeft(".", s, t);
  }

  /** No parameter of the model has the name given to the packed copy of the embedding. */
  lemma HeadIsNew(n: Name)
    ensures Text(n) != LM_HEAD
  {
    hide PartName, Decimal;
    assert Text(n)[0] == 'm';
  }

  // ---- which parameters are linear layers ----------------------------------------------------------------

  /** Some text without a newline, then `tail`. */
  predicate AnyThen(s: string, tail: string) {
    |tail| <= |s| && s[|s| - |tail|..] == tail && '\n' !in s[..|s| - |tail|]
  }

  const KAI_LINEARS: seq<string> := [
    "." + "mlp.gate_proj.weight", "." + "mlp.up_proj.weight", "." + "mlp.down_proj.weight",
    "." + "self_attn.q_proj.weight", "." + "self_attn.k_proj.weight", "." + "self_attn.v_proj.weight", "." + "self_attn.o_proj.weight",
    "." + "linear_attn.in_proj_qkv.weight", "." + "linear_attn.in_proj_z.weight", "." + "linear_attn.in_proj_a.weight",
    "." + "linear_attn.in_proj_b.weight", "." + "linear_attn.out_proj.weight"
  ]

  /** The pattern for the weights that must be quantized, matched against the whole of a name. */
  predicate MatchesKaiLinear(s: string) {
    s == EMBEDDING || exists i :: 0 <= i < |KAI_LINEARS| && AnyThen(s, KAI_LINEARS[i])
  }

  predicate IsLinear(n: Name) {
    match n
    case Embedding => true
    case FinalNorm => false
    case Of(_, p) =>
      || p.Gate? || p.Up? || p.Down? || p.QProj? || p.KProj? || p.VProj? || p.OProj?
      || p.InQkv? || p.InZ? || p.InA? || p.InB? || p.OutProj?
  }

  lemma PatternIsLinear(n: Name)
    ensures MatchesKaiLinear(Text(n)) <==> IsLinear(n)
  {
    var s := Text(n);
    match n
    case Embedding =>
    case FinalNorm => NotLinear(s);
    case Of(layer, p) =>
      if IsLinear(n) { LinearMatches(layer, p); } else { OtherEnds(layer, p); NotLinear(s); }
  }

  lemma NotLinear(s: string)
    requires |s| >= 8 && s != EMBEDDING && s[|s| - 8] !in "jvzab"
    ensures !MatchesKaiLinear(s)
  {
    hide AnyThen;
    forall i | 0 <= i < |KAI_LINEARS| ensures !AnyThen(s, KAI_LINEARS[i]) {
      TailLetter(i);
      AnyThenAt(s, KAI_LINEARS[i]);
    }
  }

  lemma TailLetter(i: nat)
    requires i < |KAI_LINEARS|
    ensures var t := KAI_LINEARS[i]; |t| >= 8 && t[|t| - 8] in "jvzab"
  {
  }

  lemma AnyThenAt(s: string, tail: string)
    requires |tail| >= 8
    ensures AnyThen(s, tail) ==> |s| >= 8 && s[|s| - 8] == tail[|tail| - 8]
  {
    if AnyThen(s, tail) { assert s[|s| - |tail|..][|tail| - 8] == s[|s| - 8]; }
  }

  lemma OtherEnds(layer: nat, p: Part)
    requires !IsLinear(Of(layer, p))
    ensures var s := Text(Of(layer, p)); |s| >= 8 && s != EMBEDDING && s[|s| - 8] !in "jvzab"
  {
    hide Decimal;
    var s, t := Text(Of(layer, p)), PartName(p);
    assert s[|MODEL|] == 'l' && EMBEDDING[|MODEL|] == 'e';
    assert s[|s| - 8] == t[|t| - 8];
  }

  lemma DotTail(layer: nat, t: string)
    ensures AnyThen(LayerText(layer) + t, "." + t)
  {
    hide Decimal;
    var head := MODEL + "layers." + Decimal(layer);
    assert '\n' !in MODEL + "layers." && '\n' !in Decimal(layer);
    assert LayerText(layer) + t == head + ("." + t);
  }

  function TailIndex(p: Part): (i: nat)
    ensures i < |KAI_LINEARS|
  {
    match p
    case Gate => 0 case Up => 1 case Down => 2
    case QProj => 3 case KProj => 4 case VProj => 5 case OProj => 6
    case InQkv => 7 case InZ => 8 case InA => 9 case InB => 10
    case _ => 11
  }

  lemma TailIs(p: Part)
    requires IsLinear(Of(0, p))
    ensures KAI_LINEARS[TailIndex(p)] == "." + PartName(p)
  {
  }

  lemma LinearMatches(layer: nat, p: Part)
    requires IsLinear(Of(layer, p))
    ensures MatchesKaiLinear(Text(Of(layer, p)))
  {
    hide Decimal, AnyThen, LayerText, PartName, TailIndex;
    DotTail(layer, PartName(p));
    TailIs(p);
  }
}
