/** How many bytes a converted model has: the sizes of all its descriptors added up. */
module RecipeTotals {
  import opened RecipeNames
  import opened RecipeShapes
  import opened RecipeDescriptors
  import opened RecipeTables

  /** The sizes of some entries of a table, added up. */
  ghost function TotalSize(table: map<string, Descriptor>, names: set<string>): int
    requires names <= table.Keys
    decreases |names|
  {
    if names == {} then 0
    else
      var n :| n in names;
      table[n].size + TotalSize(table, names - {n})
  }

  lemma {:induction false} TotalMore(table: map<string, Descriptor>, names: set<string>, n: string)
    requires names <= table.Keys && n in table && n !in names
    ensures TotalSize(table, names + {n}) == TotalSize(table, names) + table[n].size
    decreases |names|
  {
    var more := names + {n};
    var m :| m in more && TotalSize(table, more) == table[m].size + TotalSize(table, more - {m});
    if m == n {
      assert more - {n} == names;
    } else {
      TotalMore(table, names - {m}, n);
      assert more - {m} == (names - {m}) + {n};
      TotalMore(table, names - {m}, m);
      assert (names - {m}) + {m} == names;
    }
  }

  function SumOf(sizes: seq<int>): int { if sizes == [] then 0 else sizes[|sizes| - 1] + SumOf(sizes[..|sizes| - 1]) }

  ghost predicate Sizes(table: map<string, Descriptor>, layer: nat, parts: seq<Part>, sizes: seq<int>) {
    |sizes| == |parts| && forall j :: 0 <= j < |parts| ==>
      Text(Of(layer, parts[j])) in table && table[Text(Of(layer, parts[j]))].size == sizes[j]
  }

  lemma TextsMore(names: set<Name>, n: Name)
    requires n !in names
    ensures Texts(names + {n}) == Texts(names) + {Text(n)} && Text(n) !in Texts(names)
  {
    hide Text;
    if m :| m in names && Text(m) == Text(n) { TextsApart(m, n); }
  }

  /** The parameters of one layer, added one after another. */
  lemma {:induction false} LayerTotal(table: map<string, Descriptor>, base: set<Name>, layer: nat, parts: seq<Part>, sizes: seq<int>)
    requires Texts(base) <= table.Keys && Sizes(table, layer, parts, sizes)
    requires forall i, j :: 0 <= i < j < |parts| ==> parts[i] != parts[j]
    requires forall n :: n in base ==> !n.Of? || n.layer != layer
    ensures Texts(base + LayerNames(layer, parts)) <= table.Keys
    ensures TotalSize(table, Texts(base + LayerNames(layer, parts))) == TotalSize(table, Texts(base)) + SumOf(sizes)
  {
    hide Text, Texts, TotalSize;
    if parts == [] {
      assert base + LayerNames(layer, parts) == base;
    } else {
      var k := |parts| - 1;
      var t, n := parts[..k], Of(layer, parts[k]);
      LayerTotal(table, base, layer, t, sizes[..k]);
      assert LayerNames(layer, parts) == LayerNames(layer, t) + {n};
      var before := base + LayerNames(layer, t);
      assert base + LayerNames(layer, parts) == before + {n};
      TextsMore(before, n);
      TotalMore(table, Texts(before), Text(n));
    }
  }

  function SizesOf(rows: seq<Row>): (s: seq<int>)
    ensures |s| == |rows| && forall j :: 0 <= j < |rows| ==> s[j] == rows[j].size
  {
    seq(|rows|, j requires 0 <= j < |rows| => rows[j].size)
  }

  /** The bytes of one layer, by its kind. */
  function LayerBytes(size: Size, layer: nat): int {
    match size
    case Small => if layer % 4 == 3 then 10446848 else 12356480
    case Large => if layer % 4 == 3 then 60749824 else 63937792
  }

  lemma {:induction false} SumConcat(a: seq<int>, b: seq<int>)
    ensures SumOf(a + b) == SumOf(a) + SumOf(b)
  {
    if b == [] {
      assert a + b == a;
    } else {
      assert (a + b)[..|a + b| - 1] == a + b[..|b| - 1];
      SumConcat(a, b[..|b| - 1]);
    }
  }

  lemma SumTwo(a: int, b: int)
    ensures SumOf([a]) == a && SumOf([a, b]) == a + b
  {
    assert [a][..0] == [] && [a, b][..1] == [a];
  }

  lemma SumSix(s: seq<int>)
    requires |s| == 6
    ensures SumOf(s) == s[0] + s[1] + s[2] + s[3] + s[4] + s[5]
  {
    assert s == [s[0], s[1]] + [s[2], s[3]] + [s[4], s[5]];
    SumConcat([s[0], s[1]] + [s[2], s[3]], [s[4], s[5]]);
    SumConcat([s[0], s[1]], [s[2], s[3]]);
    SumTwo(s[0], s[1]);
    SumTwo(s[2], s[3]);
    SumTwo(s[4], s[5]);
  }

  lemma SumFive(s: seq<int>)
    requires |s| == 5
    ensures SumOf(s) == s[0] + s[1] + s[2] + s[3] + s[4]
  {
    assert s + [0] == [s[0], s[1], s[2], s[3], s[4], 0];
    SumSix(s + [0]);
    SumConcat(s, [0]);
    SumTwo(0, 0);
  }

  lemma SumNine(s: seq<int>)
    requires |s| == 9
    ensures SumOf(s) == s[0] + s[1] + s[2] + s[3] + s[4] + s[5] + s[6] + s[7] + s[8]
  {
    assert s == s[..5] + s[5..];
    assert s[5..] + [0] == [s[5], s[6], s[7], s[8], 0];
    SumConcat(s[..5], s[5..]);
    SumFive(s[..5]);
    SumFive(s[5..] + [0]);
    SumConcat(s[5..], [0]);
    SumTwo(0, 0);
  }

  lemma SmallLayerBytes(layer: nat)
    ensures SumOf(SizesOf(LayerRows(Small, layer))) == LayerBytes(Small, layer)
  {
    var c, l, f := SizesOf(SMALL_COMMON), SizesOf(SMALL_LINEAR), SizesOf(SMALL_FULL);
    SumFive(c);
    SumNine(l);
    SumSix(f);
    SumConcat(c, l);
    SumConcat(c, f);
    assert SizesOf(SMALL_COMMON + SMALL_LINEAR) == c + l && SizesOf(SMALL_COMMON + SMALL_FULL) == c + f;
    hide SumOf;
  }

  lemma LargeLayerBytes(layer: nat)
    ensures SumOf(SizesOf(LayerRows(Large, layer))) == LayerBytes(Large, layer)
  {
    var c, l, f := SizesOf(LARGE_COMMON), SizesOf(LARGE_LINEAR), SizesOf(LARGE_FULL);
    SumFive(c);
    SumNine(l);
    SumSix(f);
    SumConcat(c, l);
    SumConcat(c, f);
    assert SizesOf(LARGE_COMMON + LARGE_LINEAR) == c + l && SizesOf(LARGE_COMMON + LARGE_FULL) == c + f;
    hide SumOf;
  }

  lemma LayerSizesAre(size: Size, shapes: map<string, seq<int>>, table: map<string, Descriptor>, layer: nat)
    requires IsShapes(Contract(size), shapes) && RightTable(shapes, table) && layer < Layers(size)
    ensures layer < |Contract(size).layerTypes|
    ensures Sizes(table, layer, PartsOf(Contract(size).layerTypes[layer]), SizesOf(LayerRows(size, layer)))
    ensures SumOf(SizesOf(LayerRows(size, layer))) == LayerBytes(size, layer)
  {
    hide IsShapes, RightTable, PartName, Text, LayerPath, NamesOf, LayerRows, Contract, PartsOf, Stores, SumOf, LayerBytes;
    TypesSize(size);
    Alike(size, layer);
    var parts := PartsOf(Contract(size).layerTypes[layer]);
    forall j: nat | j < |parts|
      ensures Text(Of(layer, parts[j])) in table && table[Text(Of(layer, parts[j]))].size == LayerRows(size, layer)[j].size
    {
      RowOfPart(size, layer, j);
      RowPresent(size, shapes, table, layer, j);
      PathIs(layer, parts[j]);
    }
    if size.Small? { SmallLayerBytes(layer); } else { LargeLayerBytes(layer); }
  }

  lemma PartsDiffer(layerType: string)
    ensures forall i, j :: 0 <= i < j < |PartsOf(layerType)| ==> PartsOf(layerType)[i] != PartsOf(layerType)[j]
  {
  }

  lemma EndsTotal(size: Size, shapes: map<string, seq<int>>, table: map<string, Descriptor>)
    requires IsShapes(Contract(size), shapes) && RightTable(shapes, table)
    ensures var ends := Texts(NamesBefore(Contract(size), 0));
            ends <= table.Keys && TotalSize(table, ends) == if size.Small? then 1017122816 else 2542807040
  {
    hide IsShapes, RightTable, Contract, Text, TotalSize;
    EndsPresent(size, shapes, table);
    EmbeddingWritten();
    NormWritten();
    assert NamesBefore(Contract(size), 0) == {} + {Embedding} + {FinalNorm};
    TextsMore({}, Embedding);
    TextsMore({} + {Embedding}, FinalNorm);
    assert Texts({}) == {};
    TotalMore(table, {}, Text(Embedding));
    TotalMore(table, Texts({} + {Embedding}), Text(FinalNorm));
    NoneTotal(table);
  }

  lemma NoneTotal(table: map<string, Descriptor>)
    ensures TotalSize(table, {}) == 0
  {
  }

  /** The bytes of the first `k` layers. */
  function LayersBytes(size: Size, k: nat): int { if k == 0 then 0 else LayersBytes(size, k - 1) + LayerBytes(size, k - 1) }

  lemma {:induction false} LayersTotal(size: Size, shapes: map<string, seq<int>>, table: map<string, Descriptor>, k: nat)
    requires IsShapes(Contract(size), shapes) && RightTable(shapes, table) && k <= Layers(size)
    ensures |Contract(size).layerTypes| == Layers(size)
    ensures var names := Texts(NamesBefore(Contract(size), k));
            && names <= table.Keys
            && TotalSize(table, names) == (if size.Small? then 1017122816 else 2542807040) + LayersBytes(size, k)
    decreases k
  {
    hide IsShapes, RightTable, Contract, Text, TotalSize, Texts, PartsOf, SumOf, LayerRows, LayerBytes, Sizes, LayerNames, Present;
    var c := Contract(size);
    TypesSize(size);
    if k == 0 {
      EndsTotal(size, shapes, table);
    } else {
      LayersTotal(size, shapes, table, k - 1);
      var parts := PartsOf(c.layerTypes[k - 1]);
      PartsDiffer(c.layerTypes[k - 1]);
      LayerSizesAre(size, shapes, table, k - 1);
      LayerTotal(table, NamesBefore(c, k - 1), k - 1, parts, SizesOf(LayerRows(size, k - 1)));
    }
  }

  lemma {:induction false} FourLayers(size: Size, k: nat)
    ensures LayersBytes(size, 4 * k) == k * if size.Small? then 47516288 else 252563200
  {
    if k > 0 {
      FourLayers(size, k - 1);
      assert LayersBytes(size, 4 * k) == LayersBytes(size, 4 * k - 1) + LayerBytes(size, 4 * k - 1);
      assert LayersBytes(size, 4 * k - 1) == LayersBytes(size, 4 * k - 2) + LayerBytes(size, 4 * k - 2);
      assert LayersBytes(size, 4 * k - 2) == LayersBytes(size, 4 * k - 3) + LayerBytes(size, 4 * k - 3);
      assert LayersBytes(size, 4 * k - 3) == LayersBytes(size, 4 * (k - 1)) + LayerBytes(size, 4 * (k - 1));
    }
  }

  lemma ContractIs(c: TextConfig)
    requires ResolveModelSize(c).Some?
    ensures c == Contract(ResolveModelSize(c).value)
  {
    hide Contract;
  }

  lemma HeadSize(size: Size, shapes: map<string, seq<int>>, table: map<string, Descriptor>)
    requires IsShapes(Contract(size), shapes) && RightTable(shapes, table)
    ensures "lm_head_out.weight" in table && "lm_head_out.weight" !in shapes
    ensures table["lm_head_out.weight"].size == if size.Small? then 145018880 else 359567360
  {
    hide IsShapes, RightTable, IsRow, Contract;
    EndsPresent(size, shapes, table);
  }

  lemma AllLayers(size: Size)
    ensures LayersBytes(size, Layers(size)) == if size.Small? then 285097728 else 2020505600
  {
    hide LayersBytes;
    FourLayers(size, Layers(size) / 4);
  }

  /**
    The data of a converted model, and its whole file with the header and one descriptor for each entry: the large
    one is beyond 32-bit offsets.
   */
  lemma FileSizes(c: TextConfig, shapes: map<string, seq<int>>, table: map<string, Descriptor>)
    requires ResolveModelSize(c).Some? && IsShapes(c, shapes) && RightTable(shapes, table)
    ensures var small, data := ResolveModelSize(c) == Some(Small), TotalSize(table, table.Keys);
            && data == (if small then 1447239424 else 4922880000)
            && 532 + 352 * |table| + data == (if small then 1447352948 else 4923030836)
  {
    hide IsShapes, RightTable, TotalSize, Texts, NamesBefore, Contract, LayersBytes, Text, ResolveModelSize, MatchesKaiLinear;
    var size := ResolveModelSize(c).value;
    ContractIs(c);
    LayersTotal(size, shapes, table, Layers(size));
    AllLayers(size);
    NamesAre(c, shapes);
    TableKeys(shapes, table);
    HeadSize(size, shapes, table);
    TotalMore(table, shapes.Keys, "lm_head_out.weight");
    Counts(c, shapes);
  }
}
