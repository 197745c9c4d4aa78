/**
  The quantization recipe of a converted model.  An accepted recipe divides the linear layers among its
  patterns, and the table of descriptors derived from it always exists and has one entry more than the model.
 */
module Recipe {
  import opened RecipeNames
  import opened RecipeShapes

  /** A value in a recipe, as far as the checks tell values apart. */
  datatype Json = Null | Flag(on: bool) | Str(text: string) | Ints(items: seq<int>) | Other(truthy: bool)

  type Hints = map<string, Json>

  datatype Entry = Entry(pattern: string, hints: Option<Hints>)

  /** Regular expressions: which compile, and which names they match in full. */
  datatype Engine = Engine(compiles: string -> bool, fullmatch: (string, string) -> bool)

  datatype RuntimeConfig = RuntimeConfig(
    modelType: Json, textConfig: Option<TextConfig>, nestedImpl: Option<Json>, topImpl: Option<Json>)

  const TILE := "qai8dxp1x8_qsi4c32p8x8_1x8x32"
  const LINEAR_IMPL := "KaiLinear_f32_qai8dxp_qsi4c32p_mxk_nxk_" + TILE

  function Get(h: Hints, key: string): Json { if key in h then h[key] else Null }

  function Truthy(j: Json): bool {
    match j
    case Null => false
    case Flag(on) => on
    case Str(text) => text != ""
    case Ints(items) => items != []
    case Other(truthy) => truthy
  }

  predicate HintsMatch(h: Hints) {
    && Get(h, "quant_method") == Str("kai")
    && Get(h, "kai_matmul_triplet") == Str("f32_qai8dxp_qsi4c32p")
    && Get(h, "kai_matmul_layout") == Str("mxk_nxk")
    && Get(h, "kai_matmul_tile_cfg") == Str(TILE)
  }

  function Matched(engine: Engine, pattern: string, names: set<string>): set<string> {
    set n | n in names && engine.fullmatch(pattern, n)
  }

  /** The setting resolved for the linear layers at run time: the nested one where there is one. */
  function RuntimeImpl(runtime: RuntimeConfig): Json {
    if runtime.nestedImpl.Some? then runtime.nestedImpl.value
    else if runtime.topImpl.Some? then runtime.topImpl.value else Null
  }

  predicate ConfigsAgree(c: TextConfig, runtime: RuntimeConfig) {
    && ResolveModelSize(c).Some?
    && runtime.modelType == Str("qwen3_5")
    && runtime.textConfig.Some? && ResolveModelSize(runtime.textConfig.value) == ResolveModelSize(c)
    && RuntimeImpl(runtime) == Str(LINEAR_IMPL)
  }

  /** What an entry may do with its weights: pack a copy of the tied embedding, or replace the others. */
  predicate WritesRight(h: Hints, names: set<string>) {
    if EMBEDDING in names then names == {EMBEDDING} && Get(h, "replace") == Flag(false) && Get(h, "rename") == Str(LM_HEAD)
    else Get(h, "replace") == Flag(true) && Get(h, "rename") == Null
  }

  predicate EntryFits(engine: Engine, e: Entry, shapes: map<string, seq<int>>) {
    && e.hints.Some? && HintsMatch(e.hints.value) && engine.compiles(e.pattern)
    && var names := Matched(engine, e.pattern, shapes.Keys);
    && names != {}
    && (forall n :: n in names ==> Get(e.hints.value, "shape") == Ints(shapes[n]))
    && WritesRight(e.hints.value, names)
  }

  ghost predicate Apart(engine: Engine, entries: seq<Entry>, names: set<string>) {
    forall i, j :: 0 <= i < j < |entries| ==>
      Matched(engine, entries[i].pattern, names) !! Matched(engine, entries[j].pattern, names)
  }

  ghost predicate Covers(engine: Engine, entries: seq<Entry>, names: set<string>) {
    forall n :: n in names ==>
      (MatchesKaiLinear(n) <==> exists i :: 0 <= i < |entries| && engine.fullmatch(entries[i].pattern, n))
  }

  /** A recipe whose entries are each right, and which divides exactly the linear layers among its patterns. */
  ghost predicate Accepted(engine: Engine, entries: seq<Entry>, shapes: map<string, seq<int>>) {
    && (forall i :: 0 <= i < |entries| ==> EntryFits(engine, entries[i], shapes))
    && Apart(engine, entries, shapes.Keys)
    && Covers(engine, entries, shapes.Keys)
  }

  /** The names that some of the first `k` patterns match. */
  ghost predicate IsUnion(engine: Engine, entries: seq<Entry>, k: nat, names: set<string>, all: set<string>)
    requires k <= |entries|
  {
    forall n :: n in all <==> n in names && exists i :: 0 <= i < k && engine.fullmatch(entries[i].pattern, n)
  }

  lemma NothingYet(engine: Engine, entries: seq<Entry>, names: set<string>)
    ensures Apart(engine, entries[..0], names) && IsUnion(engine, entries, 0, names, {})
  {
  }

  lemma InUnion(engine: Engine, entries: seq<Entry>, k: nat, names: set<string>, all: set<string>, i: nat)
    requires i < k <= |entries| && IsUnion(engine, entries, k, names, all)
    ensures Matched(engine, entries[i].pattern, names) <= all
  {
  }

  lemma NoneShared(a: set<string>, b: set<string>)
    requires a * b == {}
    ensures a !! b
  {
    forall x | x in a ensures x !in b { assert x in b ==> x in a * b; }
  }

  lemma ApartMore(engine: Engine, entries: seq<Entry>, k: nat, names: set<string>, all: set<string>)
    requires k < |entries| && IsUnion(engine, entries, k, names, all) && Apart(engine, entries[..k], names)
    requires all * Matched(engine, entries[k].pattern, names) == {}
    ensures Apart(engine, entries[..k + 1], names)
  {
    hide Matched, IsUnion;
    var t := entries[..k + 1];
    forall i, j | 0 <= i < j < |t| ensures Matched(engine, t[i].pattern, names) !! Matched(engine, t[j].pattern, names) {
      if j == k {
        InUnion(engine, entries, k, names, all, i);
        NoneShared(all, Matched(engine, t[j].pattern, names));
      } else {
        assert entries[..k][i] == t[i] && entries[..k][j] == t[j];
      }
    }
  }

  lemma UnionMore(engine: Engine, entries: seq<Entry>, k: nat, names: set<string>, all: set<string>)
    requires k < |entries| && IsUnion(engine, entries, k, names, all)
    ensures IsUnion(engine, entries, k + 1, names, all + Matched(engine, entries[k].pattern, names))
  {
  }

  lemma Overlap(engine: Engine, entries: seq<Entry>, k: nat, names: set<string>, all: set<string>)
    requires k < |entries| && IsUnion(engine, entries, k, names, all)
    requires all * Matched(engine, entries[k].pattern, names) != {}
    ensures !Apart(engine, entries, names)
  {
    var n :| n in all * Matched(engine, entries[k].pattern, names);
    var i :| 0 <= i < k && engine.fullmatch(entries[i].pattern, n);
    assert n in Matched(engine, entries[i].pattern, names) * Matched(engine, entries[k].pattern, names);
  }

  lemma CoverIsUnion(engine: Engine, entries: seq<Entry>, names: set<string>, all: set<string>)
    requires IsUnion(engine, entries, |entries|, names, all)
    ensures Covers(engine, entries, names) <==> all == set n | n in names && MatchesKaiLinear(n)
  {
    hide MatchesKaiLinear;
    var expected := set n | n in names && MatchesKaiLinear(n);
    if Covers(engine, entries, names) {
      forall n ensures n in all <==> n in expected {}
    } else {
      var n :| n in names && !(MatchesKaiLinear(n) <==> exists i :: 0 <= i < |entries| && engine.fullmatch(entries[i].pattern, n));
      assert n in expected <==> n !in all;
    }
  }

  /** Check the entries one after another, keeping the weights quantized so far, and then the coverage. */
  method ValidateEntries(engine: Engine, entries: seq<Entry>, shapes: map<string, seq<int>>)
      returns (r: Option<set<string>>, counts: map<string, nat>)
    ensures r.Some? <==> Accepted(engine, entries, shapes)
    ensures r.Some? ==> r.value == set n | n in shapes && MatchesKaiLinear(n)
    ensures r.Some? ==> forall i :: 0 <= i < |entries| ==>
              entries[i].pattern in counts && counts[entries[i].pattern] == |Matched(engine, entries[i].pattern, shapes.Keys)|
  {
    hide Matched, Apart, Covers, IsUnion, EntryFits, MatchesKaiLinear;
    counts := map[];
    var names := shapes.Keys;
    var quantized: set<string> := {};
    NothingYet(engine, entries, names);
    for k := 0 to |entries|
      invariant forall i :: 0 <= i < k ==> EntryFits(engine, entries[i], shapes)
      invariant forall i :: 0 <= i < k ==>
                  entries[i].pattern in counts && counts[entries[i].pattern] == |Matched(engine, entries[i].pattern, names)|
      invariant Apart(engine, entries[..k], names)
      invariant IsUnion(engine, entries, k, names, quantized)
    {
      var matched := Matched(engine, entries[k].pattern, names);
      if !EntryFits(engine, entries[k], shapes) { return None, counts; }
      if quantized * matched != {} {
        Overlap(engine, entries, k, names, quantized);
        return None, counts;
      }
      ApartMore(engine, entries, k, names, quantized);
      UnionMore(engine, entries, k, names, quantized);
      quantized := quantized + matched;
      counts := counts[entries[k].pattern := |matched|];
    }
    assert entries[..|entries|] == entries;
    CoverIsUnion(engine, entries, names, quantized);
    var expected := set n | n in names && MatchesKaiLinear(n);
    if expected - quantized != {} || quantized - expected != {} { return None, counts; }
    assert expected == quantized;
    r := Some(quantized);
  }

  /** Accept a recipe, with the weights it quantizes and how many each pattern matches. */
  method ValidateRecipe(engine: Engine, c: TextConfig, entries: seq<Entry>, runtime: RuntimeConfig)
      returns (r: Option<set<string>>, counts: map<string, nat>)
    ensures r.Some? ==> ConfigsAgree(c, runtime)
    ensures forall shapes :: IsShapes(c, shapes) ==>
              (r.Some? <==> ConfigsAgree(c, runtime) && Accepted(engine, entries, shapes))
    ensures forall shapes :: IsShapes(c, shapes) && r.Some? ==> r.value == set n | n in shapes && MatchesKaiLinear(n)
  {
    hide IsShapes, Accepted, MatchesKaiLinear, ConfigsAgree, Supported, LayerTypes;
    counts := map[];
    if !ConfigsAgree(c, runtime) { return None, counts; }
    Scheduled(c, runtime);
    var table, _ := ExpectedTextShapes(c);
    var shapes := table.value;
    forall other | IsShapes(c, other) ensures other == shapes { OneTable(c, other, shapes); }
    r, counts := ValidateEntries(engine, entries, shapes);
  }

  lemma Scheduled(c: TextConfig, runtime: RuntimeConfig)
    requires ConfigsAgree(c, runtime)
    ensures forall i :: 0 <= i < |c.layerTypes| ==> Supported(c.layerTypes[i])
  {
  }
}
