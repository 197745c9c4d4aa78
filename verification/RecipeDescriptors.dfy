/** The descriptors a converted model must have, derived from its recipe without trusting that it was accepted. */
module RecipeDescriptors {
  import opened RecipeNames
  import opened RecipeShapes
  import opened Recipe

  const FLOAT32 := 0
  const BYTE := 134

  datatype Descriptor = Descriptor(dtype: nat, shape: seq<int>, size: int)

  function Product(s: seq<int>): int { if s == [] then 1 else s[0] * Product(s[1..]) }

  function Float(shape: seq<int>): Descriptor { Descriptor(FLOAT32, shape, Product(shape) * 4) }

  /** Bytes of a packed weight: rows in groups of eight, a scale and sixteen bytes for every 32 inputs, and two words a row. */
  function PackedSize(rows: int, inputs: int, tile: Json): Option<int> {
    if tile != Str(TILE) || rows <= 0 || inputs <= 0 || inputs % 32 != 0 then None
    else Some((rows + 7) / 8 * (8 * (inputs / 32 * 18 + 8)))
  }

  function Packed(shape: seq<int>): Descriptor
    requires Packable(shape)
  {
    var size := PackedSize(shape[0], shape[1], Str(TILE)).value;
    Descriptor(BYTE, [size], size)
  }

  predicate Packable(shape: seq<int>) { |shape| >= 2 && shape[0] > 0 && shape[1] > 0 && shape[1] % 32 == 0 }

  /** The entries whose pattern matches a name, in order. */
  function Hits(engine: Engine, entries: seq<Entry>, name: string): (hits: seq<Entry>)
    ensures |hits| <= |entries|
  {
    if entries == [] then []
    else
      var e := entries[|entries| - 1];
      Hits(engine, entries[..|entries| - 1], name) + if engine.fullmatch(e.pattern, name) then [e] else []
  }

  type Writes = seq<(string, Descriptor)>

  /** What one parameter adds to the table; nothing when it is refused. */
  function Describe(engine: Engine, entries: seq<Entry>, name: string, shape: seq<int>): Option<Writes> {
    var hits := Hits(engine, entries, name);
    if |hits| > 1 then None
    else if |hits| == 0 then Some([(name, Float(shape))])
    else if hits[0].hints.None? then None
    else
      var h := hits[0].hints.value;
      if Get(h, "shape") != Ints(shape) || |shape| < 2 then None
      else
        var size := PackedSize(shape[0], shape[1], Get(h, "kai_matmul_tile_cfg"));
        if size.None? || "replace" !in h then None
        else
          var packed := Descriptor(BYTE, [size.value], size.value);
          if Truthy(Get(h, "replace")) then Some([(name, packed)])
          else if Get(h, "rename").Str? then Some([(name, Float(shape)), (Get(h, "rename").text, packed)])
          else None
  }

  /** A table after some writes. */
  function Put(table: map<string, Descriptor>, ws: Writes): map<string, Descriptor>
    decreases |ws|
  {
    if ws == [] then table else Put(table[ws[0].0 := ws[0].1], ws[1..])
  }

  predicate Readable(engine: Engine, entries: seq<Entry>) {
    forall i :: 0 <= i < |entries| ==> engine.compiles(entries[i].pattern) && entries[i].hints.Some?
  }

  // ---- what acceptance gives -----------------------------------------------------------------------------

  lemma {:induction false} HitsNone(engine: Engine, entries: seq<Entry>, name: string)
    requires forall i :: 0 <= i < |entries| ==> !engine.fullmatch(entries[i].pattern, name)
    ensures Hits(engine, entries, name) == []
  {
    if entries != [] { HitsNone(engine, entries[..|entries| - 1], name); }
  }

  lemma {:induction false} HitsOne(engine: Engine, entries: seq<Entry>, name: string, k: nat)
    requires k < |entries| && engine.fullmatch(entries[k].pattern, name)
    requires forall i :: 0 <= i < |entries| && i != k ==> !engine.fullmatch(entries[i].pattern, name)
    ensures Hits(engine, entries, name) == [entries[k]]
  {
    var front := entries[..|entries| - 1];
    if k == |entries| - 1 { HitsNone(engine, front, name); } else { HitsOne(engine, front, name, k); }
  }

  lemma SameOwner(engine: Engine, entries: seq<Entry>, names: set<string>, name: string, i: nat, j: nat)
    requires Apart(engine, entries, names) && name in names && i < |entries| && j < |entries|
    requires engine.fullmatch(entries[i].pattern, name) && engine.fullmatch(entries[j].pattern, name)
    ensures i == j
  {
    assert name in Matched(engine, entries[i].pattern, names) && name in Matched(engine, entries[j].pattern, names);
  }

  /** Every linear layer belongs to one entry, and no other weight to any. */
  lemma OneOwner(engine: Engine, entries: seq<Entry>, shapes: map<string, seq<int>>, name: string) returns (k: nat)
    requires Accepted(engine, entries, shapes) && name in shapes && MatchesKaiLinear(name)
    ensures k < |entries| && Hits(engine, entries, name) == [entries[k]] && name in Matched(engine, entries[k].pattern, shapes.Keys)
  {
    hide EntryFits, Hits, MatchesKaiLinear;
    k :| 0 <= k < |entries| && engine.fullmatch(entries[k].pattern, name);
    forall i | 0 <= i < |entries| && engine.fullmatch(entries[i].pattern, name) ensures i == k {
      SameOwner(engine, entries, shapes.Keys, name, i, k);
    }
    HitsOne(engine, entries, name, k);
  }

  /** What one parameter must add to the table. */
  function Intended(name: string, shape: seq<int>): Writes
    requires MatchesKaiLinear(name) ==> Packable(shape)
  {
    if !MatchesKaiLinear(name) then [(name, Float(shape))]
    else if name == EMBEDDING then [(name, Float(shape)), (LM_HEAD, Packed(shape))]
    else [(name, Packed(shape))]
  }

  lemma DescribeLinear(engine: Engine, entries: seq<Entry>, shapes: map<string, seq<int>>, name: string)
    requires Accepted(engine, entries, shapes) && name in shapes && MatchesKaiLinear(name) && Packable(shapes[name])
    ensures Describe(engine, entries, name, shapes[name]) == Some(Intended(name, shapes[name]))
  {
    hide Hits, Matched, MatchesKaiLinear, Float, Apart, Covers;
    var k := OneOwner(engine, entries, shapes, name);
    var e := entries[k];
    assert EntryFits(engine, e, shapes);
    var h := e.hints.value;
    assert Get(h, "replace") != Null;
    assert (name == EMBEDDING) == (EMBEDDING in Matched(engine, e.pattern, shapes.Keys));
  }

  lemma DescribeOther(engine: Engine, entries: seq<Entry>, shapes: map<string, seq<int>>, name: string)
    requires Accepted(engine, entries, shapes) && name in shapes && !MatchesKaiLinear(name)
    ensures Describe(engine, entries, name, shapes[name]) == Some(Intended(name, shapes[name]))
  {
    hide EntryFits, Hits, MatchesKaiLinear, Float, Apart;
    HitsNone(engine, entries, name);
  }

  /** In a supported model, every linear layer can be packed. */
  lemma LinearPackable(c: TextConfig, shapes: map<string, seq<int>>, name: string)
    requires ResolveModelSize(c).Some? && IsShapes(c, shapes) && name in shapes && MatchesKaiLinear(name)
    ensures Packable(shapes[name])
  {
    hide MatchesKaiLinear, Text, LayerTypes;
    var n :| Present(c, n) && Text(n) == name;
    PatternIsLinear(n);
    ShapePackable(c, n);
  }

  lemma ShapePackable(c: TextConfig, n: Name)
    requires ResolveModelSize(c).Some? && IsLinear(n)
    ensures Packable(ShapeOf(c, n))
  {
    hide LayerTypes;
  }

  lemma EmbeddingText()
    ensures Text(Embedding) == EMBEDDING
  {
  }

  lemma HeadAndEmbedding(c: TextConfig, shapes: map<string, seq<int>>)
    requires IsShapes(c, shapes)
    ensures LM_HEAD !in shapes && EMBEDDING in shapes && MatchesKaiLinear(EMBEDDING)
  {
    hide Text;
    if LM_HEAD in shapes {
      var n :| Present(c, n) && Text(n) == LM_HEAD;
      HeadIsNew(n);
    }
    assert Present(c, Embedding);
    EmbeddingText();
  }

  /** Everything an accepted recipe says of one parameter. */
  lemma AcceptedDescribes(engine: Engine, entries: seq<Entry>, c: TextConfig, shapes: map<string, seq<int>>, name: string)
    requires ResolveModelSize(c).Some? && IsShapes(c, shapes) && Accepted(engine, entries, shapes) && name in shapes
    ensures MatchesKaiLinear(name) ==> Packable(shapes[name])
    ensures Describe(engine, entries, name, shapes[name]) == Some(Intended(name, shapes[name]))
  {
    hide MatchesKaiLinear, IsShapes, Accepted, Describe, Intended, Packable, ResolveModelSize;
    if MatchesKaiLinear(name) {
      LinearPackable(c, shapes, name);
      DescribeLinear(engine, entries, shapes, name);
    } else {
      DescribeOther(engine, entries, shapes, name);
    }
  }

  /** The table over some of the names: each with its descriptor, and the packed head when the embedding is among them. */
  ghost predicate Tabulates(shapes: map<string, seq<int>>, names: seq<string>, table: map<string, Descriptor>)
    requires forall n :: n in names ==> n in shapes
    requires forall n :: n in names && MatchesKaiLinear(n) ==> Packable(shapes[n])
  {
    && (forall n :: n in table <==> n in names || (n == LM_HEAD && EMBEDDING in names))
    && (forall n :: n in names && n != LM_HEAD ==>
          table[n] == if MatchesKaiLinear(n) && n != EMBEDDING then Packed(shapes[n]) else Float(shapes[n]))
    && (LM_HEAD in table ==> MatchesKaiLinear(EMBEDDING) && EMBEDDING in names && table[LM_HEAD] == Packed(shapes[EMBEDDING]))
  }

  lemma TabulatesNone(shapes: map<string, seq<int>>)
    ensures Tabulates(shapes, [], map[])
  {
  }

  lemma TabulatesMore(shapes: map<string, seq<int>>, names: seq<string>, table: map<string, Descriptor>, name: string)
    requires name in shapes && LM_HEAD !in shapes && MatchesKaiLinear(EMBEDDING)
    requires forall n :: n in names + [name] ==> n in shapes
    requires forall n :: n in names + [name] && MatchesKaiLinear(n) ==> Packable(shapes[n])
    requires Tabulates(shapes, names, table)
    ensures Tabulates(shapes, names + [name], Put(table, Intended(name, shapes[name])))
  {
    hide MatchesKaiLinear, Packable, Packed, Float;
    var shape := shapes[name];
    assert name in names + [name];
    if name == EMBEDDING {
      var more := table[name := Float(shape)];
      assert Intended(name, shape)[1..] == [(LM_HEAD, Packed(shape))];
      assert Put(table, Intended(name, shape)) == Put(more, [(LM_HEAD, Packed(shape))]);
      assert Put(more, [(LM_HEAD, Packed(shape))]) == more[LM_HEAD := Packed(shape)];
    } else {
      assert Intended(name, shape)[1..] == [];
    }
  }

  ghost predicate AsIntended(engine: Engine, entries: seq<Entry>, shapes: map<string, seq<int>>) {
    && LM_HEAD !in shapes && EMBEDDING in shapes && MatchesKaiLinear(EMBEDDING)
    && (forall n :: n in shapes && MatchesKaiLinear(n) ==> Packable(shapes[n]))
    && (forall n :: n in shapes ==> Describe(engine, entries, n, shapes[n]) == Some(Intended(n, shapes[n])))
  }

  /** The table of the descriptors of some parameters, in any order; nothing as soon as one is refused. */
  method DescribeAll(engine: Engine, entries: seq<Entry>, shapes: map<string, seq<int>>, order: seq<string>)
      returns (r: Option<map<string, Descriptor>>)
    requires forall n :: n in order <==> n in shapes
    ensures r.Some? <==> forall n :: n in shapes ==> Describe(engine, entries, n, shapes[n]).Some?
    ensures AsIntended(engine, entries, shapes) ==> r.Some? && Tabulates(shapes, order, r.value)
  {
    hide Describe, Tabulates, Intended, MatchesKaiLinear, Packable, Put;
    var table := map[];
    ghost var intended := AsIntended(engine, entries, shapes);
    if intended { TabulatesNone(shapes); }
    assert order[..0] == [];
    for k := 0 to |order|
      invariant forall n :: n in order[..k] ==> Describe(engine, entries, n, shapes[n]).Some?
      invariant intended ==> Tabulates(shapes, order[..k], table)
    {
      var name := order[k];
      assert name in order;
      assert order[..k + 1] == order[..k] + [name];
      var ws := Describe(engine, entries, name, shapes[name]);
      if ws.None? { return None; }
      if intended { TabulatesMore(shapes, order[..k], table, name); }
      table := Put(table, ws.value);
    }
    assert order[..|order|] == order;
    r := Some(table);
  }

  /** What the table must be: every parameter and the packed head, and of each the right descriptor. */
  ghost predicate RightTable(shapes: map<string, seq<int>>, table: map<string, Descriptor>) {
    && table.Keys == shapes.Keys + {LM_HEAD} && |table| == |shapes| + 1
    && EMBEDDING in shapes && Packable(shapes[EMBEDDING]) && table[LM_HEAD] == Packed(shapes[EMBEDDING])
    && (forall n :: n in shapes && MatchesKaiLinear(n) && n != EMBEDDING ==> Packable(shapes[n]) && table[n] == Packed(shapes[n]))
    && (forall n :: n in shapes && (!MatchesKaiLinear(n) || n == EMBEDDING) ==> table[n] == Float(shapes[n]))
  }

  lemma TableIsRight(engine: Engine, entries: seq<Entry>, shapes: map<string, seq<int>>, order: seq<string>, table: map<string, Descriptor>)
    requires AsIntended(engine, entries, shapes) && (forall n :: n in order <==> n in shapes)
    requires Tabulates(shapes, order, table)
    ensures RightTable(shapes, table)
  {
    hide Describe, MatchesKaiLinear, Packable, Packed, Float;
    assert table.Keys == shapes.Keys + {LM_HEAD};
    assert |shapes.Keys + {LM_HEAD}| == |shapes.Keys| + 1;
  }

  lemma AcceptedIsIntended(engine: Engine, entries: seq<Entry>, c: TextConfig, shapes: map<string, seq<int>>)
    requires ResolveModelSize(c).Some? && IsShapes(c, shapes) && Accepted(engine, entries, shapes)
    ensures AsIntended(engine, entries, shapes) && Readable(engine, entries)
  {
    hide MatchesKaiLinear, IsShapes, Describe, Intended, Packable, ResolveModelSize, Apart, Covers, Matched;
    HeadAndEmbedding(c, shapes);
    forall n | n in shapes
      ensures MatchesKaiLinear(n) ==> Packable(shapes[n])
      ensures Describe(engine, entries, n, shapes[n]) == Some(Intended(n, shapes[n]))
    {
      AcceptedDescribes(engine, entries, c, shapes, n);
    }
    forall i | 0 <= i < |entries| ensures engine.compiles(entries[i].pattern) && entries[i].hints.Some? {
      assert EntryFits(engine, entries[i], shapes);
    }
  }

  /** The descriptors of a converted model; it never fails on an accepted recipe. */
  method ExpectedDescriptors(engine: Engine, c: TextConfig, entries: seq<Entry>)
      returns (r: Option<map<string, Descriptor>>)
    ensures forall shapes :: IsShapes(c, shapes) && r.Some? ==>
              Readable(engine, entries) && forall n :: n in shapes ==> Describe(engine, entries, n, shapes[n]).Some?
    ensures forall shapes :: IsShapes(c, shapes) && ResolveModelSize(c).Some? && Accepted(engine, entries, shapes) ==>
              r.Some? && RightTable(shapes, r.value)
  {
    hide IsShapes, Describe, RightTable, ResolveModelSize, Tabulates, AsIntended, Accepted;
    if ResolveModelSize(c).Some? { SupportedTypes(c); }
    var table, order := ExpectedTextShapes(c);
    if table.None? { return None; }
    var shapes := table.value;
    forall other | IsShapes(c, other) ensures other == shapes { OneTable(c, other, shapes); }
    ghost var accepted := ResolveModelSize(c).Some? && Accepted(engine, entries, shapes);
    if accepted { AcceptedIsIntended(engine, entries, c, shapes); }
    if !Readable(engine, entries) { return None; }
    r := DescribeAll(engine, entries, shapes, order);
    if accepted { TableIsRight(engine, entries, shapes, order, r.value); }
  }

  lemma SupportedTypes(c: TextConfig)
    requires ResolveModelSize(c).Some?
    ensures forall i :: 0 <= i < |c.layerTypes| ==> Supported(c.layerTypes[i])
  {
  }

  /** Validate a recipe and derive the descriptors from it: whatever is accepted has its descriptors. */
  method ValidateAndDescribe(engine: Engine, c: TextConfig, entries: seq<Entry>, runtime: RuntimeConfig)
      returns (r: Option<map<string, Descriptor>>)
    ensures forall shapes :: IsShapes(c, shapes) ==>
              (r.Some? <==> ConfigsAgree(c, runtime) && Accepted(engine, entries, shapes))
    ensures forall shapes :: IsShapes(c, shapes) && r.Some? ==> RightTable(shapes, r.value)
  {
    hide IsShapes, Accepted, RightTable, ResolveModelSize, Readable, Describe, MatchesKaiLinear;
    var quantized, _ := ValidateRecipe(engine, c, entries, runtime);
    if quantized.None? { return None; }
    r := ExpectedDescriptors(engine, c, entries);
    forall shapes | IsShapes(c, shapes) ensures r.Some? && RightTable(shapes, r.value) {}
  }
}
