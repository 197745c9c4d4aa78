/**
  The two supported models in numbers: every parameter with its shape and its descriptor, how many there are,
  and what the size of a packed weight is made of.
 */
module RecipeTables {
  import opened ShaNames
  import opened RecipeNames
  import opened RecipeShapes
  import opened Recipe
  import opened RecipeDescriptors

  // ---- the size of a packed weight ---------------------------------------------------------------------------

  /** For every 32 inputs, sixteen bytes of 4-bit weights and a scale of two bytes. */
  function BlocksBytes(inputs: nat): nat { if inputs < 32 then 0 else 16 + 2 + BlocksBytes(inputs - 32) }

  /** So many rows, each with its blocks and two words of four bytes. */
  function RowsBytes(rows: nat, inputs: nat): nat {
    if rows == 0 then 0 else BlocksBytes(inputs) + 4 + 4 + RowsBytes(rows - 1, inputs)
  }

  /** Rows are packed in groups of eight; the last group is filled up. */
  function GroupsBytes(rows: nat, inputs: nat): nat {
    if rows == 0 then 0 else RowsBytes(8, inputs) + GroupsBytes(if rows <= 8 then 0 else rows - 8, inputs)
  }

  lemma {:induction false} BlocksAre(inputs: nat)
    requires inputs % 32 == 0
    ensures BlocksBytes(inputs) == inputs / 32 * 18
  {
    if inputs > 0 { BlocksAre(inputs - 32); }
  }

  lemma {:induction false} RowsAre(rows: nat, inputs: nat)
    ensures RowsBytes(rows, inputs) == rows * (BlocksBytes(inputs) + 8)
  {
    if rows > 0 { RowsAre(rows - 1, inputs); }
  }

  lemma {:induction false} GroupsAre(rows: nat, inputs: nat)
    ensures GroupsBytes(rows, inputs) == (rows + 7) / 8 * RowsBytes(8, inputs)
  {
    hide RowsBytes;
    if rows > 0 {
      var rest := if rows <= 8 then 0 else rows - 8;
      GroupsAre(rest, inputs);
      assert (rows + 7) / 8 == (rest + 7) / 8 + 1;
      OneMoreGroup((rest + 7) / 8, RowsBytes(8, inputs));
    }
  }

  lemma OneMoreGroup(a: nat, w: nat)
    ensures (a + 1) * w == w + a * w
  {
  }

  /** What can be packed, and that its size is the sum of its parts. */
  lemma PackedIsSum(rows: int, inputs: int, tile: Json)
    ensures PackedSize(rows, inputs, tile).Some?
       <==> tile == Str("qai8dxp1x8_qsi4c32p8x8_1x8x32") && rows > 0 && inputs > 0 && inputs % 32 == 0
    ensures PackedSize(rows, inputs, tile).Some? ==> PackedSize(rows, inputs, tile).value == GroupsBytes(rows, inputs)
  {
    if rows > 0 && inputs > 0 && inputs % 32 == 0 {
      BlocksAre(inputs);
      RowsAre(8, inputs);
      GroupsAre(rows, inputs);
    }
  }

  // ---- the parameters of the two models --------------------------------------------------------------------------

  /** The shape of a parameter, and the type, shape and size under which it is stored. */
  datatype Row = Row(shape: seq<int>, dtype: nat, stored: seq<int>, size: int)

  const COMMON_NAMES: seq<string> := [
    "input_layernorm.weight", "post_attention_layernorm.weight", "mlp.gate_proj.weight", "mlp.up_proj.weight",
    "mlp.down_proj.weight"]

  const LINEAR_NAMES: seq<string> := [
    "linear_attn.in_proj_qkv.weight", "linear_attn.in_proj_z.weight", "linear_attn.in_proj_a.weight",
    "linear_attn.in_proj_b.weight", "linear_attn.conv1d.weight", "linear_attn.A_log", "linear_attn.dt_bias",
    "linear_attn.norm.weight", "linear_attn.out_proj.weight"]

  const FULL_NAMES: seq<string> := [
    "self_attn.q_proj.weight", "self_attn.k_proj.weight", "self_attn.v_proj.weight", "self_attn.o_proj.weight",
    "self_attn.q_norm.weight", "self_attn.k_norm.weight"]

  const SMALL_COMMON: seq<Row> := [
    Row([1024], 0, [1024], 4096),
    Row([1024], 0, [1024], 4096),
    Row([3584, 1024], 134, [2093056], 2093056),
    Row([3584, 1024], 134, [2093056], 2093056),
    Row([1024, 3584], 134, [2072576], 2072576)]

  const SMALL_LINEAR: seq<Row> := [
    Row([6144, 1024], 134, [3588096], 3588096),
    Row([2048, 1024], 134, [1196032], 1196032),
    Row([16, 1024], 134, [9344], 9344),
    Row([16, 1024], 134, [9344], 9344),
    Row([6144, 1, 4], 0, [6144, 1, 4], 98304),
    Row([16], 0, [16], 64),
    Row([16], 0, [16], 64),
    Row([128], 0, [128], 512),
    Row([1024, 2048], 134, [1187840], 1187840)]

  const SMALL_FULL: seq<Row> := [
    Row([4096, 1024], 134, [2392064], 2392064),
    Row([512, 1024], 134, [299008], 299008),
    Row([512, 1024], 134, [299008], 299008),
    Row([1024, 2048], 134, [1187840], 1187840),
    Row([256], 0, [256], 1024),
    Row([256], 0, [256], 1024)]

  const LARGE_COMMON: seq<Row> := [
    Row([2560], 0, [2560], 10240),
    Row([2560], 0, [2560], 10240),
    Row([9216, 2560], 134, [13344768], 13344768),
    Row([9216, 2560], 134, [13344768], 13344768),
    Row([2560, 9216], 134, [13291520], 13291520)]

  const LARGE_LINEAR: seq<Row> := [
    Row([8192, 2560], 134, [11862016], 11862016),
    Row([4096, 2560], 134, [5931008], 5931008),
    Row([32, 2560], 134, [46336], 46336),
    Row([32, 2560], 134, [46336], 46336),
    Row([8192, 1, 4], 0, [8192, 1, 4], 131072),
    Row([32], 0, [32], 128),
    Row([32], 0, [32], 128),
    Row([128], 0, [128], 512),
    Row([2560, 4096], 134, [5918720], 5918720)]

  const LARGE_FULL: seq<Row> := [
    Row([8192, 2560], 134, [11862016], 11862016),
    Row([1024, 2560], 134, [1482752], 1482752),
    Row([1024, 2560], 134, [1482752], 1482752),
    Row([2560, 4096], 134, [5918720], 5918720),
    Row([256], 0, [256], 1024),
    Row([256], 0, [256], 1024)]

  function Layers(size: Size): nat { if size.Small? then 24 else 32 }

  /** The parameters of one layer, by the ends of their names: every fourth layer has full attention. */
  function NamesOf(layer: nat): (names: seq<string>)
    ensures |names| == if layer % 4 == 3 then 11 else 14
  {
    COMMON_NAMES + if layer % 4 == 3 then FULL_NAMES else LINEAR_NAMES
  }

  function LayerRows(size: Size, layer: nat): (rows: seq<Row>)
    ensures |rows| == if layer % 4 == 3 then 11 else 14
  {
    match size
    case Small => SMALL_COMMON + if layer % 4 == 3 then SMALL_FULL else SMALL_LINEAR
    case Large => LARGE_COMMON + if layer % 4 == 3 then LARGE_FULL else LARGE_LINEAR
  }

  function LayerPath(layer: nat): string { "model.language_model.layers." + Decimal(layer) + "." }

  predicate IsRow(shapes: map<string, seq<int>>, table: map<string, Descriptor>, name: string, r: Row) {
    && name in shapes && shapes[name] == r.shape
    && name in table && table[name] == Descriptor(r.dtype, r.stored, r.size)
  }

  /** The parameters outside the layers, and the packed head that the model itself does not have. */
  ghost predicate EndsAre(size: Size, shapes: map<string, seq<int>>, table: map<string, Descriptor>) {
    && IsRow(shapes, table, "model.language_model.norm.weight",
             if size.Small? then Row([1024], 0, [1024], 4096) else Row([2560], 0, [2560], 10240))
    && IsRow(shapes, table, "model.language_model.embed_tokens.weight",
             if size.Small? then Row([248320, 1024], 0, [248320, 1024], 1017118720)
             else Row([248320, 2560], 0, [248320, 2560], 2542796800))
    && "lm_head_out.weight" !in shapes && "lm_head_out.weight" in table
    && table["lm_head_out.weight"] == if size.Small? then Descriptor(134, [145018880], 145018880) else Descriptor(134, [359567360], 359567360)
  }

  ghost predicate LayersAre(size: Size, shapes: map<string, seq<int>>, table: map<string, Descriptor>) {
    forall layer: nat, j: nat :: layer < Layers(size) && j < |LayerRows(size, layer)| ==>
      IsRow(shapes, table, LayerPath(layer) + NamesOf(layer)[j], LayerRows(size, layer)[j])
  }

  ghost predicate NothingElse(size: Size, shapes: map<string, seq<int>>, table: map<string, Descriptor>) {
    && (forall n :: n in table ==> n in shapes || n == "lm_head_out.weight")
    && (forall n :: n in shapes ==>
          || n == "model.language_model.norm.weight" || n == "model.language_model.embed_tokens.weight"
          || exists layer: nat, j: nat :: layer < Layers(size) && j < |NamesOf(layer)| && n == LayerPath(layer) + NamesOf(layer)[j])
  }

  // ---- each row ----------------------------------------------------------------------------------------------------

  /** The descriptor of a part under its own name. */
  predicate Stores(size: Size, p: Part, r: Row) {
    var shape := ShapeOf(Contract(size), Of(0, p));
    && r.shape == shape
    && (if IsLinear(Of(0, p)) then Packable(shape) && Descriptor(r.dtype, r.stored, r.size) == Packed(shape)
        else Descriptor(r.dtype, r.stored, r.size) == Float(shape))
  }

  lemma CommonNames()
    ensures |COMMON_NAMES| == |COMMON_PARTS| && forall j :: 0 <= j < |COMMON_PARTS| ==> COMMON_NAMES[j] == PartName(COMMON_PARTS[j])
  {
  }

  lemma LinearNames()
    ensures |LINEAR_NAMES| == |LINEAR_PARTS| && forall j :: 0 <= j < |LINEAR_PARTS| ==> LINEAR_NAMES[j] == PartName(LINEAR_PARTS[j])
  {
  }

  lemma FullNames()
    ensures |FULL_NAMES| == |FULL_PARTS| && forall j :: 0 <= j < |FULL_PARTS| ==> FULL_NAMES[j] == PartName(FULL_PARTS[j])
  {
  }

  lemma SmallCommon()
    ensures |SMALL_COMMON| == |COMMON_PARTS| && forall j :: 0 <= j < |COMMON_PARTS| ==> Stores(Small, COMMON_PARTS[j], SMALL_COMMON[j])
  {
    hide LayerTypes;
    assert Stores(Small, InputNorm, SMALL_COMMON[0]);
    assert Stores(Small, PostNorm, SMALL_COMMON[1]);
    assert Stores(Small, Gate, SMALL_COMMON[2]);
    assert Stores(Small, Up, SMALL_COMMON[3]);
    assert Stores(Small, Down, SMALL_COMMON[4]);
  }

  lemma SmallRecurrent()
    ensures |SMALL_LINEAR| == 9 && Stores(Small, Conv, SMALL_LINEAR[4]) && Stores(Small, ALog, SMALL_LINEAR[5])
    ensures Stores(Small, DtBias, SMALL_LINEAR[6]) && Stores(Small, LinearNorm, SMALL_LINEAR[7])
  {
    hide LayerTypes;
    assert Stores(Small, Conv, SMALL_LINEAR[4]);
    assert Stores(Small, ALog, SMALL_LINEAR[5]);
    assert Stores(Small, DtBias, SMALL_LINEAR[6]);
    assert Stores(Small, LinearNorm, SMALL_LINEAR[7]);
  }

  lemma SmallProjections()
    ensures |SMALL_LINEAR| == 9 && Stores(Small, InQkv, SMALL_LINEAR[0]) && Stores(Small, InZ, SMALL_LINEAR[1])
    ensures Stores(Small, InA, SMALL_LINEAR[2]) && Stores(Small, InB, SMALL_LINEAR[3]) && Stores(Small, OutProj, SMALL_LINEAR[8])
  {
    hide LayerTypes;
    assert Stores(Small, InQkv, SMALL_LINEAR[0]);
    assert Stores(Small, InZ, SMALL_LINEAR[1]);
    assert Stores(Small, InA, SMALL_LINEAR[2]);
    assert Stores(Small, InB, SMALL_LINEAR[3]);
    assert Stores(Small, OutProj, SMALL_LINEAR[8]);
  }

  lemma SmallLinear()
    ensures |SMALL_LINEAR| == |LINEAR_PARTS| && forall j :: 0 <= j < |LINEAR_PARTS| ==> Stores(Small, LINEAR_PARTS[j], SMALL_LINEAR[j])
  {
    hide Stores;
    SmallProjections();
    SmallRecurrent();
  }

  lemma SmallFull()
    ensures |SMALL_FULL| == |FULL_PARTS| && forall j :: 0 <= j < |FULL_PARTS| ==> Stores(Small, FULL_PARTS[j], SMALL_FULL[j])
  {
    hide LayerTypes;
    assert Stores(Small, QProj, SMALL_FULL[0]);
    assert Stores(Small, KProj, SMALL_FULL[1]);
    assert Stores(Small, VProj, SMALL_FULL[2]);
    assert Stores(Small, OProj, SMALL_FULL[3]);
    assert Stores(Small, QNorm, SMALL_FULL[4]);
    assert Stores(Small, KNorm, SMALL_FULL[5]);
  }

  lemma LargeCommon()
    ensures |LARGE_COMMON| == |COMMON_PARTS| && forall j :: 0 <= j < |COMMON_PARTS| ==> Stores(Large, COMMON_PARTS[j], LARGE_COMMON[j])
  {
    hide LayerTypes;
    assert Stores(Large, InputNorm, LARGE_COMMON[0]);
    assert Stores(Large, PostNorm, LARGE_COMMON[1]);
    assert Stores(Large, Gate, LARGE_COMMON[2]);
    assert Stores(Large, Up, LARGE_COMMON[3]);
    assert Stores(Large, Down, LARGE_COMMON[4]);
  }

  lemma LargeRecurrent()
    ensures |LARGE_LINEAR| == 9 && Stores(Large, Conv, LARGE_LINEAR[4]) && Stores(Large, ALog, LARGE_LINEAR[5])
    ensures Stores(Large, DtBias, LARGE_LINEAR[6]) && Stores(Large, LinearNorm, LARGE_LINEAR[7])
  {
    hide LayerTypes;
    assert Stores(Large, Conv, LARGE_LINEAR[4]);
    assert Stores(Large, ALog, LARGE_LINEAR[5]);
    assert Stores(Large, DtBias, LARGE_LINEAR[6]);
    assert Stores(Large, LinearNorm, LARGE_LINEAR[7]);
  }

  lemma LargeProjections()
    ensures |LARGE_LINEAR| == 9 && Stores(Large, InQkv, LARGE_LINEAR[0]) && Stores(Large, InZ, LARGE_LINEAR[1])
    ensures Stores(Large, InA, LARGE_LINEAR[2]) && Stores(Large, InB, LARGE_LINEAR[3]) && Stores(Large, OutProj, LARGE_LINEAR[8])
  {
    hide LayerTypes;
    assert Stores(Large, InQkv, LARGE_LINEAR[0]);
    assert Stores(Large, InZ, LARGE_LINEAR[1]);
    assert Stores(Large, InA, LARGE_LINEAR[2]);
    assert Stores(Large, InB, LARGE_LINEAR[3]);
    assert Stores(Large, OutProj, LARGE_LINEAR[8]);
  }

  lemma LargeLinear()
    ensures |LARGE_LINEAR| == |LINEAR_PARTS| && forall j :: 0 <= j < |LINEAR_PARTS| ==> Stores(Large, LINEAR_PARTS[j], LARGE_LINEAR[j])
  {
    hide Stores;
    LargeProjections();
    LargeRecurrent();
  }

  lemma LargeFull()
    ensures |LARGE_FULL| == |FULL_PARTS| && forall j :: 0 <= j < |FULL_PARTS| ==> Stores(Large, FULL_PARTS[j], LARGE_FULL[j])
  {
    hide LayerTypes;
    assert Stores(Large, QProj, LARGE_FULL[0]);
    assert Stores(Large, KProj, LARGE_FULL[1]);
    assert Stores(Large, VProj, LARGE_FULL[2]);
    assert Stores(Large, OProj, LARGE_FULL[3]);
    assert Stores(Large, QNorm, LARGE_FULL[4]);
    assert Stores(Large, KNorm, LARGE_FULL[5]);
  }


  // ---- the whole table -------------------------------------------------------------------------------------------

  lemma RowOfPart(size: Size, layer: nat, j: nat)
    requires layer < Layers(size) && j < |NamesOf(layer)|
    ensures var c := Contract(size);
            && layer < |c.layerTypes| && |PartsOf(c.layerTypes[layer])| == |NamesOf(layer)|
            && var p := PartsOf(c.layerTypes[layer])[j];
            NamesOf(layer)[j] == PartName(p) && Stores(size, p, LayerRows(size, layer)[j])
  {
    hide Stores, PartName;
    CommonNames();
    LinearNames();
    FullNames();
    match size
    case Small =>
      SmallCommon();
      SmallLinear();
      SmallFull();
    case Large =>
      LargeCommon();
      LargeLinear();
      LargeFull();
  }

  lemma PathIs(layer: nat, p: Part)
    ensures Text(Of(layer, p)) == LayerPath(layer) + PartName(p)
  {
    hide Decimal, PartName;
    assert MODEL + "layers." == "model.language_model.layers.";
  }

  /** A table that is right has every parameter of the model, packed when it is a linear layer. */
  lemma EntryIs(c: TextConfig, shapes: map<string, seq<int>>, table: map<string, Descriptor>, n: Name)
    requires IsShapes(c, shapes) && RightTable(shapes, table) && Present(c, n)
    ensures Text(n) in shapes && shapes[Text(n)] == ShapeOf(c, n) && Text(n) in table
    ensures IsLinear(n) && n != Embedding ==> Packable(ShapeOf(c, n)) && table[Text(n)] == Packed(ShapeOf(c, n))
    ensures !IsLinear(n) || n == Embedding ==> table[Text(n)] == Float(ShapeOf(c, n))
  {
    hide Text, Packable, Packed, Float, MatchesKaiLinear, ShapeOf, IsLinear;
    PatternIsLinear(n);
    EmbeddingText();
    if Text(n) == EMBEDDING { TextsApart(n, Embedding); }
  }

  lemma RowPresent(size: Size, shapes: map<string, seq<int>>, table: map<string, Descriptor>, layer: nat, j: nat)
    requires IsShapes(Contract(size), shapes) && RightTable(shapes, table)
    requires layer < Layers(size) && j < |NamesOf(layer)|
    ensures IsRow(shapes, table, LayerPath(layer) + NamesOf(layer)[j], LayerRows(size, layer)[j])
  {
    hide IsShapes, RightTable, PartName, Text, LayerPath, Packed, Float, NamesOf, LayerRows, Packable, Contract, PartsOf;
    RowOfPart(size, layer, j);
    var p := PartsOf(Contract(size).layerTypes[layer])[j];
    PathIs(layer, p);
    EntryIs(Contract(size), shapes, table, Of(layer, p));
    AnyLayer(Contract(size), layer, p);
  }

  lemma AnyLayer(c: TextConfig, layer: nat, p: Part)
    ensures ShapeOf(c, Of(layer, p)) == ShapeOf(c, Of(0, p)) && IsLinear(Of(layer, p)) == IsLinear(Of(0, p))
  {
  }

  lemma EmbeddingWritten()
    ensures Text(Embedding) == EMBEDDING == "model.language_model.embed_tokens.weight"
  {
  }

  lemma NormWritten()
    ensures Text(FinalNorm) == "model.language_model.norm.weight"
  {
  }

  lemma EndNumbers(size: Size)
    ensures var norm, embedding := ShapeOf(Contract(size), FinalNorm), ShapeOf(Contract(size), Embedding);
            && Packable(embedding) && IsLinear(Embedding) && !IsLinear(FinalNorm)
            && (size.Small? ==>
                  && norm == [1024] && Float(norm) == Descriptor(0, [1024], 4096)
                  && embedding == [248320, 1024] && Float(embedding) == Descriptor(0, [248320, 1024], 1017118720)
                  && Packed(embedding) == Descriptor(134, [145018880], 145018880))
            && (size.Large? ==>
                  && norm == [2560] && Float(norm) == Descriptor(0, [2560], 10240)
                  && embedding == [248320, 2560] && Float(embedding) == Descriptor(0, [248320, 2560], 2542796800)
                  && Packed(embedding) == Descriptor(134, [359567360], 359567360))
  {
    hide LayerTypes;
  }

  lemma EndsPresent(size: Size, shapes: map<string, seq<int>>, table: map<string, Descriptor>)
    requires IsShapes(Contract(size), shapes) && RightTable(shapes, table)
    ensures EndsAre(size, shapes, table)
  {
    hide IsShapes, RightTable, Contract, Text, Packed, Float, Packable, ShapeOf, IsLinear;
    EmbeddingWritten();
    NormWritten();
    EndNumbers(size);
    EntryIs(Contract(size), shapes, table, FinalNorm);
    EntryIs(Contract(size), shapes, table, Embedding);
    HeadAndEmbedding(Contract(size), shapes);
    HeadEntry(shapes, table);
  }

  lemma HeadEntry(shapes: map<string, seq<int>>, table: map<string, Descriptor>)
    requires RightTable(shapes, table)
    ensures EMBEDDING in shapes && LM_HEAD in table && Packable(shapes[EMBEDDING]) && table[LM_HEAD] == Packed(shapes[EMBEDDING])
  {
    hide Packable, Packed, MatchesKaiLinear;
  }

  lemma NothingMore(size: Size, shapes: map<string, seq<int>>, table: map<string, Descriptor>)
    requires IsShapes(Contract(size), shapes) && RightTable(shapes, table)
    ensures NothingElse(size, shapes, table)
  {
    hide RightTable, Text, PartName, LayerPath, NamesOf, Contract, PartsOf;
    forall k | k in shapes
      ensures k == "model.language_model.norm.weight" || k == "model.language_model.embed_tokens.weight"
           || exists layer: nat, j: nat :: layer < Layers(size) && j < |NamesOf(layer)| && k == LayerPath(layer) + NamesOf(layer)[j]
    {
      var n :| Present(Contract(size), n) && Text(n) == k;
      NameIs(size, n);
    }
    TableKeys(shapes, table);
  }

  lemma TableKeys(shapes: map<string, seq<int>>, table: map<string, Descriptor>)
    requires RightTable(shapes, table)
    ensures table.Keys == shapes.Keys + {"lm_head_out.weight"} && |table| == |shapes| + 1
  {
    hide Packable, Packed, MatchesKaiLinear;
  }

  lemma NameIs(size: Size, n: Name)
    requires Present(Contract(size), n)
    ensures Text(n) == "model.language_model.norm.weight" || Text(n) == "model.language_model.embed_tokens.weight"
         || exists layer: nat, j: nat :: layer < Layers(size) && j < |NamesOf(layer)| && Text(n) == LayerPath(layer) + NamesOf(layer)[j]
  {
    hide PartName, LayerPath, NamesOf, PartsOf, Decimal, Text, Contract, Stores, Layers;
    match n
    case Embedding => EmbeddingWritten();
    case FinalNorm => NormWritten();
    case Of(layer, p) =>
      var parts := PartsOf(Contract(size).layerTypes[layer]);
      var j: nat :| j < |parts| && parts[j] == p;
      Alike(size, layer);
      RowOfPart(size, layer, j);
      PathIs(layer, p);
  }

  lemma Alike(size: Size, layer: nat)
    requires layer < |Contract(size).layerTypes|
    ensures layer < Layers(size) && |PartsOf(Contract(size).layerTypes[layer])| == |NamesOf(layer)|
  {
  }

  /** The table derived for a supported model, parameter by parameter. */
  lemma TableIsLiteral(c: TextConfig, shapes: map<string, seq<int>>, table: map<string, Descriptor>)
    requires ResolveModelSize(c).Some? && IsShapes(c, shapes) && RightTable(shapes, table)
    ensures var size := ResolveModelSize(c).value;
            EndsAre(size, shapes, table) && LayersAre(size, shapes, table) && NothingElse(size, shapes, table)
  {
    hide IsShapes, RightTable, EndsAre, NothingElse, IsRow, LayerTypes, Contract;
    var size := ResolveModelSize(c).value;
    EndsPresent(size, shapes, table);
    NothingMore(size, shapes, table);
    forall layer: nat, j: nat | layer < Layers(size) && j < |LayerRows(size, layer)|
      ensures IsRow(shapes, table, LayerPath(layer) + NamesOf(layer)[j], LayerRows(size, layer)[j])
    {
      RowPresent(size, shapes, table, layer, j);
    }
  }

  // ---- how many ----------------------------------------------------------------------------------------------------

  lemma {:induction false} NamesSize(layer: nat, parts: seq<Part>)
    requires forall i, j :: 0 <= i < j < |parts| ==> parts[i] != parts[j]
    ensures |LayerNames(layer, parts)| == |parts|
  {
    if parts != [] {
      var rest := parts[1..];
      NamesSize(layer, rest);
      assert LayerNames(layer, parts) == LayerNames(layer, rest) + {Of(layer, parts[0])};
      assert Of(layer, parts[0]) !in LayerNames(layer, rest);
    }
  }

  ghost function Linear(names: set<Name>): set<Name> { set n | n in names && IsLinear(n) }

  lemma FullLayer(layer: nat)
    ensures |LayerNames(layer, PartsOf(FULL))| == 11 && |Linear(LayerNames(layer, PartsOf(FULL)))| == 7
  {
    var packed := [Gate, Up, Down, QProj, KProj, VProj, OProj];
    assert PartsOf(FULL) == COMMON_PARTS + FULL_PARTS by { assert FULL[0] != LINEAR_TYPE[0]; }
    NamesSize(layer, COMMON_PARTS + FULL_PARTS);
    NamesSize(layer, packed);
    assert Linear(LayerNames(layer, COMMON_PARTS + FULL_PARTS)) == LayerNames(layer, packed);
  }

  lemma LinearLayer(layer: nat)
    ensures |LayerNames(layer, PartsOf(LINEAR_TYPE))| == 14 && |Linear(LayerNames(layer, PartsOf(LINEAR_TYPE)))| == 8
  {
    var packed := [Gate, Up, Down, InQkv, InZ, InA, InB, OutProj];
    NamesSize(layer, COMMON_PARTS + LINEAR_PARTS);
    NamesSize(layer, packed);
    assert Linear(LayerNames(layer, COMMON_PARTS + LINEAR_PARTS)) == LayerNames(layer, packed);
  }

  lemma LinearUnion(a: set<Name>, b: set<Name>)
    requires a !! b
    ensures |a + b| == |a| + |b| && |Linear(a + b)| == |Linear(a)| + |Linear(b)|
  {
    hide IsLinear;
    assert Linear(a + b) == Linear(a) + Linear(b);
  }

  lemma CountFirst(c: TextConfig)
    ensures |NamesBefore(c, 0)| == 2 && |Linear(NamesBefore(c, 0))| == 1
  {
    assert Linear(NamesBefore(c, 0)) == {Embedding};
  }

  lemma {:induction false} CountBefore(size: Size, k: nat)
    requires k <= Layers(size)
    ensures var c := Contract(size);
            && |c.layerTypes| == Layers(size) && |NamesBefore(c, k)| == 2 + 14 * k - 3 * (k / 4)
            && |Linear(NamesBefore(c, k))| == 1 + 8 * k - k / 4
    decreases k
  {
    hide PartsOf, Supported, Present, Linear, LayerTypes, Contract, Layers, LayerNames;
    var c := Contract(size);
    TypesSize(size);
    if k == 0 {
      CountFirst(c);
    } else {
      var before, layer := NamesBefore(c, k - 1), LayerNames(k - 1, PartsOf(c.layerTypes[k - 1]));
      CountBefore(size, k - 1);
      SupportedAt(size, k - 1);
      LinearLayer(k - 1);
      FullLayer(k - 1);
      InLayer(k - 1, PartsOf(c.layerTypes[k - 1]));
      LinearUnion(before, layer);
      assert k / 4 == (k - 1) / 4 + if (k - 1) % 4 == 3 then 1 else 0;
    }
  }

  lemma TypesSize(size: Size)
    ensures |Contract(size).layerTypes| == Layers(size)
  {
  }

  lemma InLayer(layer: nat, parts: seq<Part>)
    ensures forall n :: n in LayerNames(layer, parts) ==> n.Of? && n.layer == layer
  {
  }

  lemma SupportedAt(size: Size, i: nat)
    requires i < Layers(size)
    ensures i < |Contract(size).layerTypes| && Contract(size).layerTypes[i] == if i % 4 == 3 then FULL else LINEAR_TYPE
  {
  }

  ghost function Texts(names: set<Name>): set<string> { set n | n in names :: Text(n) }

  lemma {:induction false} TextsSize(names: set<Name>)
    ensures |Texts(names)| == |names|
    decreases |names|
  {
    hide Text;
    if names != {} {
      var n :| n in names;
      var rest := names - {n};
      TextsSize(rest);
      assert Texts(names) == Texts(rest) + {Text(n)};
      if Text(n) in Texts(rest) {
        var m :| m in rest && Text(m) == Text(n);
        TextsApart(m, n);
      }
    }
  }

  lemma NamesAre(c: TextConfig, shapes: map<string, seq<int>>)
    requires IsShapes(c, shapes)
    ensures var names := NamesBefore(c, |c.layerTypes|);
            && shapes.Keys == Texts(names)
            && (set k | k in shapes && MatchesKaiLinear(k)) == Texts(Linear(names))
  {
    hide Text, MatchesKaiLinear, IsLinear, ShapeOf;
    var names := NamesBefore(c, |c.layerTypes|);
    forall k | k in shapes ensures k in Texts(names) && (MatchesKaiLinear(k) ==> k in Texts(Linear(names))) {
      var n :| Present(c, n) && Text(n) == k;
      PatternIsLinear(n);
    }
    forall n | n in names ensures Text(n) in shapes && (IsLinear(n) ==> MatchesKaiLinear(Text(n))) {
      PatternIsLinear(n);
    }
  }

  /** The number of parameters of each model, of those an accepted recipe packs, and of descriptors in its table. */
  lemma Counts(c: TextConfig, shapes: map<string, seq<int>>)
    requires ResolveModelSize(c).Some? && IsShapes(c, shapes)
    ensures var small := ResolveModelSize(c) == Some(Small);
            && |shapes| == (if small then 320 else 426)
            && |set n | n in shapes && MatchesKaiLinear(n)| == (if small then 187 else 249)
            && forall table :: RightTable(shapes, table) ==> |table| == if small then 321 else 427
  {
    hide IsShapes, MatchesKaiLinear, RightTable, Text, Linear, NamesBefore, Texts, Contract;
    var size := ResolveModelSize(c).value;
    NamesAre(c, shapes);
    CountBefore(size, Layers(size));
    var names := NamesBefore(c, |c.layerTypes|);
    TextsSize(names);
    TextsSize(Linear(names));
    assert |shapes| == |shapes.Keys|;
    forall table | RightTable(shapes, table) ensures |table| == |shapes| + 1 { TableKeys(shapes, table); }
  }

  // ---- the recipe and the runtime --------------------------------------------------------------------------------

  /** The kernel that every entry of an accepted recipe packs for is the one that the runtime is configured to use. */
  lemma HintsNameTheRuntime(engine: Engine, c: TextConfig, entries: seq<Entry>, runtime: RuntimeConfig, shapes: map<string, seq<int>>, i: nat)
    requires ConfigsAgree(c, runtime) && Accepted(engine, entries, shapes) && i < |entries|
    ensures entries[i].hints.Some?
    ensures var h := entries[i].hints.value;
            var triplet, layout, tile := Get(h, "kai_matmul_triplet"), Get(h, "kai_matmul_layout"), Get(h, "kai_matmul_tile_cfg");
            && Get(h, "quant_method") == Str("kai") && triplet.Str? && layout.Str? && tile.Str?
            && RuntimeImpl(runtime) == Str("KaiLinear_" + triplet.text + "_" + layout.text + "_" + tile.text)
            && tile.text == "qai8dxp1x8_qsi4c32p8x8_1x8x32"
  {
    hide ResolveModelSize, Apart, Covers, Matched, WritesRight, RuntimeImpl;
    assert EntryFits(engine, entries[i], shapes);
    ImplText();
  }

  lemma ImplText()
    ensures "KaiLinear_" + "f32_qai8dxp_qsi4c32p" + "_" + "mxk_nxk" + "_" + TILE == LINEAR_IMPL
  {
    assert "KaiLinear_" + "f32_qai8dxp_qsi4c32p" + "_" + "mxk_nxk" + "_" == "KaiLinear_f32_qai8dxp_qsi4c32p_mxk_nxk_";
  }
}
