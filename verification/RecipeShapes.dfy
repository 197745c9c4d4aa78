/** The supported text models, and the shape of every parameter such a model has. */
module RecipeShapes {
  import opened RecipeNames

  datatype Option<T> = None | Some(value: T)

  /** A text configuration; `common` says whether the fields that all variants share have their values. */
  datatype TextConfig = TextConfig(
    hidden: int, intermediate: int, headDim: int, heads: int, kvHeads: int,
    keyHeads: int, valueHeads: int, keyHeadDim: int, valueHeadDim: int, convKernel: int,
    vocab: int, gate: bool, layers: nat, interval: nat, common: bool, layerTypes: seq<string>)

  datatype Size = Small | Large

  const FULL := "full_attention"
  const LINEAR_TYPE := "linear_attention"

  function LayerTypes(layers: nat, interval: nat): seq<string>
    requires interval > 0
  {
    seq(layers, i requires 0 <= i < layers => if (i + 1) % interval == 0 then FULL else LINEAR_TYPE)
  }

  function Contract(size: Size): TextConfig {
    match size
    case Small => TextConfig(1024, 3584, 256, 8, 2, 16, 16, 128, 128, 4, 248320, true, 24, 4, true, LayerTypes(24, 4))
    case Large => TextConfig(2560, 9216, 256, 16, 4, 16, 32, 128, 128, 4, 248320, true, 32, 4, true, LayerTypes(32, 4))
  }

  /** The variant a configuration is of, when it is of exactly one. */
  function ResolveModelSize(c: TextConfig): Option<Size> {
    if c == Contract(Small) && c != Contract(Large) then Some(Small)
    else if c == Contract(Large) && c != Contract(Small) then Some(Large)
    else None
  }

  function KeyDim(c: TextConfig): int { c.keyHeads * c.keyHeadDim }
  function ValueDim(c: TextConfig): int { c.valueHeads * c.valueHeadDim }
  function ConvDim(c: TextConfig): int { KeyDim(c) * 2 + ValueDim(c) }
  function QSize(c: TextConfig): int { c.heads * c.headDim }
  function KvSize(c: TextConfig): int { c.kvHeads * c.headDim }

  function ShapeOf(c: TextConfig, n: Name): seq<int> {
    match n
    case Embedding => [c.vocab, c.hidden]
    case FinalNorm => [c.hidden]
    case Of(_, p) =>
      match p
      case InputNorm => [c.hidden]
      case PostNorm => [c.hidden]
      case Gate => [c.intermediate, c.hidden]
      case Up => [c.intermediate, c.hidden]
      case Down => [c.hidden, c.intermediate]
      case InQkv => [ConvDim(c), c.hidden]
      case InZ => [ValueDim(c), c.hidden]
      case InA => [c.valueHeads, c.hidden]
      case InB => [c.valueHeads, c.hidden]
      case Conv => [ConvDim(c), 1, c.convKernel]
      case ALog => [c.valueHeads]
      case DtBias => [c.valueHeads]
      case LinearNorm => [c.valueHeadDim]
      case OutProj => [c.hidden, ValueDim(c)]
      case QProj => [QSize(c) * (if c.gate then 2 else 1), c.hidden]
      case KProj => [KvSize(c), c.hidden]
      case VProj => [KvSize(c), c.hidden]
      case OProj => [c.hidden, QSize(c)]
      case QNorm => [c.headDim]
      case KNorm => [c.headDim]
  }

  const COMMON_PARTS := [InputNorm, PostNorm, Gate, Up, Down]
  const LINEAR_PARTS := [InQkv, InZ, InA, InB, Conv, ALog, DtBias, LinearNorm, OutProj]
  const FULL_PARTS := [QProj, KProj, VProj, OProj, QNorm, KNorm]

  predicate Supported(layerType: string) { layerType == LINEAR_TYPE || layerType == FULL }

  function PartsOf(layerType: string): seq<Part> {
    COMMON_PARTS + if layerType == LINEAR_TYPE then LINEAR_PARTS else FULL_PARTS
  }

  /** A parameter that the model has. */
  predicate Present(c: TextConfig, n: Name) {
    n.Of? ==> n.layer < |c.layerTypes| && n.part in PartsOf(c.layerTypes[n.layer])
  }

  /** Every present parameter under its own name, with its shape, and nothing else. */
  ghost predicate IsShapes(c: TextConfig, shapes: map<string, seq<int>>) {
    && (forall n :: Present(c, n) ==> Text(n) in shapes && shapes[Text(n)] == ShapeOf(c, n))
    && (forall k :: k in shapes ==> exists n :: Present(c, n) && Text(n) == k)
  }

  lemma OneTable(c: TextConfig, s: map<string, seq<int>>, t: map<string, seq<int>>)
    requires IsShapes(c, s) && IsShapes(c, t)
    ensures s == t
  {
    forall k | k in s ensures k in t && t[k] == s[k] { var n :| Present(c, n) && Text(n) == k; }
    forall k | k in t ensures k in s { var n :| Present(c, n) && Text(n) == k; }
  }

  /** What a table holds after some of the parameters have been written. */
  ghost predicate Holds(c: TextConfig, done: set<Name>, shapes: map<string, seq<int>>, order: seq<string>) {
    && (forall n :: n in done ==> Text(n) in shapes && shapes[Text(n)] == ShapeOf(c, n))
    && (forall k :: k in shapes ==> exists n :: n in done && Text(n) == k)
    && (forall k :: k in order <==> k in shapes)
  }

  lemma HoldsOneMore(c: TextConfig, done: set<Name>, shapes: map<string, seq<int>>, order: seq<string>, n: Name)
    requires Holds(c, done, shapes, order)
    ensures Holds(c, done + {n}, shapes[Text(n) := ShapeOf(c, n)], order + [Text(n)])
  {
    hide ShapeOf, Text;
    var more := shapes[Text(n) := ShapeOf(c, n)];
    forall m | m in done + {n} ensures Text(m) in more && more[Text(m)] == ShapeOf(c, m) {
      if Text(m) == Text(n) { TextsApart(m, n); }
    }
    forall k | k in more ensures exists m :: m in done + {n} && Text(m) == k {
      if k == Text(n) { assert n in done + {n}; } else { var m :| m in done && Text(m) == k; assert m in done + {n}; }
    }
  }

  ghost function LayerNames(layer: nat, parts: seq<Part>): set<Name> { set p | p in parts :: Of(layer, p) }

  /** The names outside the layers and those of the first `k` layers. */
  ghost function NamesBefore(c: TextConfig, k: nat): (names: set<Name>)
    requires k <= |c.layerTypes|
    ensures forall n :: n in names <==> Present(c, n) && (n.Of? ==> n.layer < k)
  {
    if k == 0 then {Embedding} + {FinalNorm}
    else NamesBefore(c, k - 1) + LayerNames(k - 1, PartsOf(c.layerTypes[k - 1]))
  }

  lemma Start(c: TextConfig)
    ensures Holds(c, {Embedding} + {FinalNorm}, map[Text(Embedding) := ShapeOf(c, Embedding)][Text(FinalNorm) := ShapeOf(c, FinalNorm)],
                  [Text(Embedding)] + [Text(FinalNorm)])
  {
    hide ShapeOf, Text;
    assert Holds(c, {Embedding}, map[Text(Embedding) := ShapeOf(c, Embedding)], [Text(Embedding)]) by {
      assert Embedding in {Embedding};
    }
    HoldsOneMore(c, {Embedding}, map[Text(Embedding) := ShapeOf(c, Embedding)], [Text(Embedding)], FinalNorm);
  }

  lemma HoldsAll(c: TextConfig, shapes: map<string, seq<int>>, order: seq<string>)
    requires Holds(c, NamesBefore(c, |c.layerTypes|), shapes, order)
    ensures IsShapes(c, shapes) && forall k :: k in order <==> k in shapes
  {
    hide ShapeOf, Text;
    forall k | k in shapes ensures exists n :: Present(c, n) && Text(n) == k {
      var n :| n in NamesBefore(c, |c.layerTypes|) && Text(n) == k;
    }
  }

  /** Enter the parameters of one layer. */
  method EnterLayer(c: TextConfig, layer: nat, before: map<string, seq<int>>, orderBefore: seq<string>, ghost done: set<Name>)
      returns (shapes: map<string, seq<int>>, order: seq<string>)
    requires layer < |c.layerTypes| && Holds(c, done, before, orderBefore)
    ensures Holds(c, done + LayerNames(layer, PartsOf(c.layerTypes[layer])), shapes, order)
  {
    hide Holds, ShapeOf, Text, PartsOf;
    shapes, order := before, orderBefore;
    var parts := PartsOf(c.layerTypes[layer]);
    assert done == done + LayerNames(layer, parts[..0]);
    for j := 0 to |parts|
      invariant Holds(c, done + LayerNames(layer, parts[..j]), shapes, order)
    {
      var n := Of(layer, parts[j]);
      HoldsOneMore(c, done + LayerNames(layer, parts[..j]), shapes, order, n);
      shapes := shapes[Text(n) := ShapeOf(c, n)];
      order := order + [Text(n)];
      assert parts[..j + 1] == parts[..j] + [parts[j]];
      assert done + LayerNames(layer, parts[..j]) + {n} == done + LayerNames(layer, parts[..j + 1]);
    }
    assert parts[..|parts|] == parts;
  }

  /** The shapes by name, and the names in the order in which they were entered; nothing for an unknown layer type. */
  method ExpectedTextShapes(c: TextConfig) returns (r: Option<map<string, seq<int>>>, order: seq<string>)
    ensures r.Some? <==> forall i :: 0 <= i < |c.layerTypes| ==> Supported(c.layerTypes[i])
    ensures r.Some? ==> IsShapes(c, r.value) && forall k :: k in order <==> k in r.value
  {
    hide Holds, ShapeOf, Text, PartsOf, LayerNames;
    var shapes := map[Text(Embedding) := ShapeOf(c, Embedding)][Text(FinalNorm) := ShapeOf(c, FinalNorm)];
    order := [Text(Embedding)] + [Text(FinalNorm)];
    Start(c);
    for i := 0 to |c.layerTypes|
      invariant forall j :: 0 <= j < i ==> Supported(c.layerTypes[j])
      invariant Holds(c, NamesBefore(c, i), shapes, order)
    {
      if !Supported(c.layerTypes[i]) { return None, order; }
      shapes, order := EnterLayer(c, i, shapes, order, NamesBefore(c, i));
    }
    HoldsAll(c, shapes, order);
    r := Some(shapes);
  }
}
