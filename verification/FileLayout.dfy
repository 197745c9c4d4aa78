/** Where every field of a written file lies, in literal bytes and positions, and which files are refused by their first bytes. */
module FileLayout {
  import opened Bytes
  import opened Positions
  import opened ModelFileV1
  import opened ModelFileV2

  // ---- bytes of a number -------------------------------------------------------------------------------------

  /** Byte `i` of a number is its `i`-th digit in base 256, the lowest first. */
  lemma {:induction false} LittleEndian(n: nat, width: nat, i: nat)
    requires i < width
    ensures ToBytes(n, width)[i] == n / Limit(i) % 256
    decreases width
  {
    if i > 0 {
      LittleEndian(n / 256, width - 1, i - 1);
      NestedDiv(n, 256, Limit(i - 1));
    }
  }

  lemma NestedDiv(n: nat, a: nat, b: nat)
    requires a > 0 && b > 0
    ensures Times(b, a) > 0 && Rest(Rest(n, a), b) == Rest(n, Times(b, a))
  {
    hide Join, Rest, Last, Times;
    var m := Rest(n, a);
    Digits(n, a);
    Digits(m, b);
    JoinBelow(Last(m, b), b, a, Last(n, a));
    JoinNested(Rest(m, b), b, Last(m, b), a, Last(n, a));
    JoinDigits(Rest(m, b), Times(b, a), Join(Last(m, b), a, Last(n, a)));
  }

  lemma JoinNested(q: nat, b: nat, s: nat, a: nat, r: nat)
    ensures Join(Join(q, b, s), a, r) == Join(q, Times(b, a), Join(s, a, r))
  {
  }

  /** Different bytes are different numbers. */
  lemma {:induction false} NumbersApart(a: Bytes, b: Bytes)
    requires |a| == |b| && FromBytes(a) == FromBytes(b)
    ensures a == b
  {
    if a != [] {
      LastDigit(a[0], FromBytes(a[1..]), b[0], FromBytes(b[1..]));
      NumbersApart(a[1..], b[1..]);
      assert a == [a[0]] + a[1..] && b == [b[0]] + b[1..];
    }
  }

  lemma LastDigit(c: Byte, m: nat, d: Byte, n: nat)
    requires c + 256 * m == d + 256 * n
    ensures c == d && m == n
  {
  }

  /** A piece between two others lies where the first ends. */
  lemma PieceAt(a: Bytes, b: Bytes, c: Bytes)
    ensures (a + b + c)[|a|..|a| + |b|] == b
  {
  }

  // ---- version 2 -------------------------------------------------------------------------------------------------

  /** The 532 bytes of the header: magic number, version, an empty model name, the count, and the header's own length. */
  lemma HeaderLayout(ps: seq<Parameter>, ids: seq<nat>)
    requires |ids| == |ps| < 0x1_0000_0000
    ensures var file := WrittenV2(ps, ids);
            && |file| >= 532 && file[0..4] == [0x9A, 0x51, 0, 0] && file[4..8] == [2, 0, 0, 0]
            && (forall i :: 8 <= i < 520 ==> file[i] == 0)
            && NumberAt(file, 520, 4) == |ps| && NumberAt(file, 524, 8) == 532
  {
    hide TableV2, DataV2, DescriptorsOf, NumberAt, ToBytes;
    Limits();
    var table, data := TableV2(DescriptorsOf(ps, ids, DataStart(|ps|))), DataV2(ps);
    var rest := table + data;
    assert WrittenV2(ps, ids) == Header(|ps|) + rest;
    HeaderV2Written(|ps|, rest);
    var m, v, z, c, o := ToBytes(MAGIC_V2, 4), ToBytes(VERSION, 4), Zeros(MODEL_NAME), ToBytes(|ps|, 4), ToBytes(HEADER_V2, 8);
    assert Header(|ps|) == m + v + z + c + o;
    FirstBytes();
  }

  lemma FirstBytes()
    ensures ToBytes(MAGIC_V2, 4) == [0x9A, 0x51, 0, 0] && ToBytes(VERSION, 4) == [2, 0, 0, 0]
    ensures ToBytes(MAGIC, 4) == [0x2C, 0x4E, 0, 0]
  {
    forall n: nat ensures ToBytes(n, 4) == [n % 256, n / 256 % 256, n / 256 / 256 % 256, n / 256 / 256 / 256 % 256] {
      assert ToBytes(n, 4) == [n % 256] + ToBytes(n / 256, 3);
      assert ToBytes(n / 256, 3) == [n / 256 % 256] + ToBytes(n / 256 / 256, 2);
      assert ToBytes(n / 256 / 256, 2) == [n / 256 / 256 % 256] + ToBytes(n / 256 / 256 / 256, 1);
      assert ToBytes(n / 256 / 256 / 256, 1) == [n / 256 / 256 / 256 % 256] + ToBytes(n / 256 / 256 / 256 / 256, 0);
    }
  }

  lemma NumberIs(file: Bytes, pos: nat, n: nat)
    requires pos + 4 <= |file| && n < 0x1_0000_0000
    ensures NumberAt(file, pos, 4) == n <==> file[pos..pos + 4] == ToBytes(n, 4)
  {
    hide ToBytes, FromBytes, Limit;
    Limits();
    BytesRoundTrip(n, 4);
    if NumberAt(file, pos, 4) == n { NumbersApart(file[pos..pos + 4], ToBytes(n, 4)); }
  }

  /** A file with another magic number or version is refused. */
  lemma OtherFilesAreRefused(types: Types, file: Bytes, mode: Mode)
    requires |file| < 532 || file[0..4] != [0x9A, 0x51, 0, 0] || file[4..8] != [2, 0, 0, 0]
    ensures ReadV2(types, file, mode).None?
  {
    hide LoadFrom, NumberAt, ToBytes, ParseDescriptor;
    if |file| >= 532 {
      FirstBytes();
      NumberIs(file, 0, MAGIC_V2);
      NumberIs(file, 4, VERSION);
    }
  }

  /** Descriptor `i` begins at 532 + 352 i. */
  lemma DescriptorPlace(ps: seq<Parameter>, ids: seq<nat>, i: nat) returns (before: Bytes, after: Bytes)
    requires |ids| == |ps| && i < |ps|
    ensures |before| == 532 + 352 * i
    ensures WrittenV2(ps, ids) == before + DescriptorBytes(DescriptorsOf(ps, ids, DataStart(|ps|))[i]) + after
  {
    hide DescriptorsOf, DescriptorBytes, DataV2, Header;
    var ds := DescriptorsOf(ps, ids, DataStart(|ps|));
    before := Header(|ps|) + TableV2(ds[..i]);
    after := TableV2(ds[i + 1..]) + DataV2(ps);
    TableOneMore(ds, i);
    assert ds == ds[..i + 1] + ds[i + 1..];
    TableV2Split(ds[..i + 1], ds[i + 1..]);
    assert before + DescriptorBytes(ds[i]) + after == Header(|ps|) + (TableV2(ds[..i]) + DescriptorBytes(ds[i]) + TableV2(ds[i + 1..])) + DataV2(ps);
  }

  /** The fields of a descriptor, from its first byte on. */
  lemma DescriptorFields(before: Bytes, d: Descriptor, after: Bytes)
    requires NumbersOk(d)
    ensures var s, at := before + DescriptorBytes(d) + after, |before|;
            && |s| >= at + 352
            && NumberAt(s, at, 4) == d.id && NumberAt(s, at + 4, 4) == d.dtype && NumberAt(s, at + 8, 8) == d.size
            && NumberAt(s, at + 16, 8) == d.offset && NumberAt(s, at + 24, 8) == |d.shape|
            && s[at + 32..at + 96] == ShapeField(d.shape, 16) && s[at + 96..at + 352] == NameField(d.name)
  {
    hide ToBytes, ShapeField, NameField, NumberAt, Limit;
    var s := before + DescriptorBytes(d) + after;
    var a, b, c, o, r := ToBytes(d.id, 4), ToBytes(d.dtype, 4), ToBytes(d.size, 8), ToBytes(d.offset, 8), ToBytes(|d.shape|, 8);
    var sh, n := ShapeField(d.shape, MAX_RANK), NameField(d.name);
    assert s == before + a + (b + c + o + r + sh + n + after);
    NumberWritten(before, d.id, 4, b + c + o + r + sh + n + after);
    assert s == (before + a) + b + (c + o + r + sh + n + after);
    NumberWritten(before + a, d.dtype, 4, c + o + r + sh + n + after);
    assert s == (before + a + b) + c + (o + r + sh + n + after);
    NumberWritten(before + a + b, d.size, 8, o + r + sh + n + after);
    assert s == (before + a + b + c) + o + (r + sh + n + after);
    NumberWritten(before + a + b + c, d.offset, 8, r + sh + n + after);
    assert s == (before + a + b + c + o) + r + (sh + n + after);
    NumberWritten(before + a + b + c + o, |d.shape|, 8, sh + n + after);
    assert s == (before + a + b + c + o + r) + sh + (n + after);
    PieceAt(before + a + b + c + o + r, sh, n + after);
    assert s == (before + a + b + c + o + r + sh) + n + after;
    PieceAt(before + a + b + c + o + r + sh, n, after);
  }

  lemma NumberAfter(head: Bytes, rest: Bytes, k: nat)
    requires k + 4 <= |rest|
    ensures NumberAt(head + rest, |head| + k, 4) == NumberAt(rest, k, 4)
  {
    assert (head + rest)[|head| + k..|head| + k + 4] == rest[k..k + 4];
  }

  lemma NumberFirst(n: nat, rest: Bytes)
    requires n < 0x1_0000_0000
    ensures NumberAt(ToBytes(n, 4) + rest, 0, 4) == n
  {
    hide ToBytes, NumberAt, Limit;
    Limits();
    assert [] + ToBytes(n, 4) + rest == ToBytes(n, 4) + rest;
    NumberWritten([], n, 4, rest);
  }

  /** Dimension `j` lies in the four bytes from 4 j on; the places after the last dimension are zero. */
  lemma {:induction false} ShapePlaces(shape: seq<nat>, places: nat, j: nat)
    requires j < places && forall i :: 0 <= i < |shape| ==> shape[i] < 0x1_0000_0000
    ensures NumberAt(ShapeField(shape, places), 4 * j, 4) == if j < |shape| then shape[j] else 0
    decreases places
  {
    hide ToBytes, NumberAt;
    var first := if shape == [] then 0 else shape[0];
    var tail := if shape == [] then [] else shape[1..];
    var rest := ShapeField(tail, places - 1);
    assert ShapeField(shape, places) == ToBytes(first, 4) + rest;
    if j == 0 {
      NumberFirst(first, rest);
    } else {
      ShapePlaces(tail, places - 1, j - 1);
      NumberAfter(ToBytes(first, 4), rest, 4 * (j - 1));
    }
  }

  predicate ZeroFrom(s: Bytes, n: nat) { forall i :: n <= i < |s| ==> s[i] == 0 }

  /** A name of at most 255 bytes without a zero byte stands at the front of its field, and zeros fill the rest. */
  lemma NamePlaces(name: Bytes)
    requires |name| < 256 && 0 !in name
    ensures NameField(name)[..|name|] == name && ZeroFrom(NameField(name), |name|)
  {
    CStringWhole(name);
  }

  lemma Shorten(s: Bytes, at: nat, n: nat, k: nat)
    requires at + n <= |s| && k <= n
    ensures s[at..at + n][..k] == s[at..at + k]
  {
  }

  lemma WrittenSize(ps: seq<Parameter>, ids: seq<nat>)
    requires |ids| == |ps|
    ensures |WrittenV2(ps, ids)| == 532 + 352 * |ps| + |DataV2(ps)|
  {
    hide DataV2, DescriptorsOf, Header, TableV2;
  }

  /** Every descriptor of a written file, and the data it points to. */
  lemma DescriptorLayout(types: Types, ps: seq<Parameter>, ids: seq<nat>, i: nat)
    requires ContentsOk(types, ps, ids) && i < |ps|
    ensures var file, at, data := WrittenV2(ps, ids), 532 + 352 * i, 532 + 352 * |ps| + |DataV2(ps[..i])|;
            && |file| >= at + 352
            && NumberAt(file, at, 4) == ids[i] && NumberAt(file, at + 4, 4) == ps[i].dtype && NumberAt(file, at + 8, 8) == |ps[i].data|
            && NumberAt(file, at + 16, 8) == data && NumberAt(file, at + 24, 8) == |ps[i].shape|
            && (forall j: nat :: j < 16 ==> NumberAt(file[at + 32..at + 96], 4 * j, 4) == if j < |ps[i].shape| then ps[i].shape[j] else 0)
            && (Holdable(ps[i]) ==> file[at + 96..at + 96 + |ps[i].name|] == ps[i].name && ZeroFrom(file[at + 96..at + 352], |ps[i].name|))
            && |file| == 532 + 352 * |ps| + |DataV2(ps)|
            && data + |ps[i].data| <= |file| && file[data..data + |ps[i].data|] == ps[i].data
  {
    hide WrittenV2, DescriptorsOf, DescriptorBytes, DataV2, NumberAt, NameField, ShapeField, StorageSize, Limit, TableV2;
    Limits();
    NumbersFit(types, ps, ids, i);
    DescriptorsNext(ps, ids, DataStart(|ps|), i);
    var before, after := DescriptorPlace(ps, ids, i);
    DescriptorFields(before, DescriptorsOf(ps, ids, DataStart(|ps|))[i], after);
    assert ContentOk(types, ps[i]);
    forall j: nat | j < 16
      ensures NumberAt(ShapeField(ps[i].shape, 16), 4 * j, 4) == if j < |ps[i].shape| then ps[i].shape[j] else 0
    {
      ShapePlaces(ps[i].shape, 16, j);
    }
    if Holdable(ps[i]) {
      NamePlaces(ps[i].name);
      Shorten(WrittenV2(ps, ids), 532 + 352 * i + 96, 256, |ps[i].name|);
    }
    DataV2InFile(ps, ids, i);
    WrittenSize(ps, ids);
  }

  // ---- reading any version 2 file ----------------------------------------------------------------------------------

  function Place(begin: nat, i: nat): nat { begin + 352 * i }

  function DimAt(file: Bytes, at: nat, j: nat): nat
    requires at + 352 <= |file| && j < 16
  {
    NumberAt(file, at + 32 + 4 * j, 4)
  }

  /** The elements of a tensor with the first `n` dimensions of the descriptor at `at`. */
  function VolumeAt(file: Bytes, at: nat, n: nat): nat
    requires at + 352 <= |file| && n <= 16
  {
    if n == 0 then 1 else VolumeAt(file, at, n - 1) * DimAt(file, at, n - 1)
  }

  /** The bytes before the first zero byte of the name field. */
  function NameFrom(file: Bytes, at: nat): Bytes
    requires at + 352 <= |file|
  {
    CString(file[at + 96..at + 352])
  }

  /** The bytes of whole blocks that hold so many elements. */
  function BlockBytes(types: Types, dtype: nat, volume: nat): nat
    requires types.Knows(dtype)
  {
    volume / types.lanes[dtype] * types.bytes[dtype]
  }

  /** The descriptor at `at` is whole, of a rank that is held, and its tensor's bytes are in the file and no fewer than announced. */
  predicate Loads(types: Types, file: Bytes, at: nat, mode: Mode) {
    && at + 352 <= |file| && NumberAt(file, at + 24, 8) <= 16
    && var dtype, volume := NumberAt(file, at + 4, 4), VolumeAt(file, at, NumberAt(file, at + 24, 8));
    && types.Knows(dtype) && volume % types.lanes[dtype] == 0
    && var size, announced := BlockBytes(types, dtype, volume), NumberAt(file, at + 8, 8);
    && size <= announced && (mode.Streamed? ==> announced == size) && NumberAt(file, at + 16, 8) + size <= |file|
  }

  /** What is loaded from the descriptor at `at`. */
  ghost predicate IsLoaded(types: Types, file: Bytes, at: nat, l: LoadedV2)
    requires Loads(types, file, at, Mapped)
  {
    var rank, offset, dtype := NumberAt(file, at + 24, 8), NumberAt(file, at + 16, 8), NumberAt(file, at + 4, 4);
    var size := BlockBytes(types, dtype, VolumeAt(file, at, rank));
    && l.name == NameFrom(file, at) && l.dtype == dtype && |l.shape| == rank
    && (forall j: nat :: j < rank ==> l.shape[j] == DimAt(file, at, j))
    && l.data == file[offset..offset + size]
  }

  lemma {:induction false} ShapeAtIs(file: Bytes, pos: nat, n: nat, j: nat)
    requires pos + 4 * n <= |file| && j < n
    ensures ShapeAt(file, pos, n)[j] == NumberAt(file, pos + 4 * j, 4)
    decreases n
  {
    if j > 0 { ShapeAtIs(file, pos + 4, n - 1, j - 1); }
  }

  lemma {:induction false} ProductSnoc(shape: seq<nat>, x: nat)
    ensures Product(shape + [x]) == Product(shape) * x
  {
    if shape == [] {
      assert [x][1..] == [];
    } else {
      assert (shape + [x])[1..] == shape[1..] + [x];
      ProductSnoc(shape[1..], x);
      Grouped(shape[0], Product(shape[1..]), x);
    }
  }

  lemma Grouped(a: nat, b: nat, c: nat)
    ensures a * (b * c) == (a * b) * c
  {
  }

  lemma {:induction false} VolumeIs(file: Bytes, at: nat, shape: seq<nat>)
    requires at + 352 <= |file| && |shape| <= 16 && forall j: nat :: j < |shape| ==> shape[j] == DimAt(file, at, j)
    ensures VolumeAt(file, at, |shape|) == Product(shape)
    decreases |shape|
  {
    hide DimAt;
    if shape != [] {
      var t := shape[..|shape| - 1];
      VolumeIs(file, at, t);
      ProductSnoc(t, shape[|t|]);
      assert t + [shape[|t|]] == shape;
    }
  }

  lemma LoadMeans(types: Types, file: Bytes, at: nat, mode: Mode)
    ensures var d := ParseDescriptor(file, at);
            && (d.Some? && LoadV2(types, file, d.value, mode).Some? <==> Loads(types, file, at, mode))
            && (d.Some? ==> at + 352 <= |file| && d.value.name == NameFrom(file, at))
            && (Loads(types, file, at, mode) ==> IsLoaded(types, file, at, LoadV2(types, file, d.value, mode).value))
  {
    hide NumberAt, CString;
    if at + 352 <= |file| && NumberAt(file, at + 24, 8) <= 16 {
      var rank := NumberAt(file, at + 24, 8);
      var shape := ShapeAt(file, at + 32, rank);
      forall j: nat | j < rank ensures shape[j] == DimAt(file, at, j) { ShapeAtIs(file, at + 32, rank, j); }
      VolumeIs(file, at, shape);
    }
  }

  /** Every descriptor loads, under a name that is not among those before it. */
  ghost predicate AllLoad(types: Types, file: Bytes, begin: nat, count: nat, mode: Mode) {
    && (forall i: nat :: i < count ==> Loads(types, file, Place(begin, i), mode))
    && (forall i: nat, j: nat :: i < j < count ==> NameFrom(file, Place(begin, i)) != NameFrom(file, Place(begin, j)))
  }

  /** None of the names is among those seen. */
  ghost predicate NoneSeen(file: Bytes, begin: nat, count: nat, seen: set<Bytes>)
    requires forall i: nat :: i < count ==> Place(begin, i) + 352 <= |file|
  {
    forall i: nat :: i < count ==> NameFrom(file, Place(begin, i)) !in seen
  }

  ghost predicate NewAndLoad(types: Types, file: Bytes, begin: nat, count: nat, mode: Mode, seen: set<Bytes>) {
    AllLoad(types, file, begin, count, mode) && NoneSeen(file, begin, count, seen)
  }

  lemma NothingToLoad(types: Types, file: Bytes, begin: nat, mode: Mode, seen: set<Bytes>)
    ensures NewAndLoad(types, file, begin, 0, mode, seen)
  {
  }

  lemma AllLoadFirst(types: Types, file: Bytes, begin: nat, count: nat, mode: Mode, seen: set<Bytes>)
    requires count > 0
    ensures NewAndLoad(types, file, begin, count, mode, seen)
       <==> && Loads(types, file, begin, mode) && NameFrom(file, begin) !in seen
            && NewAndLoad(types, file, begin + 352, count - 1, mode, seen + {NameFrom(file, begin)})
  {
    hide Loads, NameFrom;
    assert Place(begin, 0) == begin;
    var next := begin + 352;
    assert forall i: nat {:trigger Place(next, i)} :: Place(next, i) == Place(begin, i + 1);
    assert forall i: nat :: i > 0 ==> Place(begin, i) == Place(begin + 352, i - 1);
  }

  lemma {:induction false} LoadFromMeans(types: Types, file: Bytes, begin: nat, count: nat, mode: Mode, seen: set<Bytes>)
    ensures var r := LoadFrom(types, file, begin, count, mode, seen);
            && (r.Some? <==> NewAndLoad(types, file, begin, count, mode, seen))
            && (r.Some? ==> |r.value| == count && forall i: nat :: i < count ==> IsLoaded(types, file, Place(begin, i), r.value[i]))
    decreases count
  {
    hide Loads, NameFrom, ParseDescriptor, LoadV2, IsLoaded, NoneSeen, AllLoad;
    if count == 0 {
      NothingToLoad(types, file, begin, mode, seen);
    } else {
      LoadMeans(types, file, begin, mode);
      AllLoadFirst(types, file, begin, count, mode, seen);
      if Loads(types, file, begin, mode) {
        LoadFromMeans(types, file, begin + 352, count - 1, mode, seen + {NameFrom(file, begin)});
        assert forall i: nat :: i > 0 ==> Place(begin, i) == Place(begin + 352, i - 1);
      }
    }
  }

  /**
    Any file at all, in either mode: when it is read, and what is read.  The count is at 520 and the place
    of the descriptors at 524; nothing else of the header but its first eight bytes matters.
   */
  lemma ReadMeans(types: Types, file: Bytes, mode: Mode)
    ensures ReadV2(types, file, mode).Some?
       <==> && |file| >= 532 && file[0..4] == [0x9A, 0x51, 0, 0] && file[4..8] == [2, 0, 0, 0]
            && AllLoad(types, file, NumberAt(file, 524, 8), NumberAt(file, 520, 4), mode)
    ensures ReadV2(types, file, mode).Some? ==>
              var ls, begin := ReadV2(types, file, mode).value, NumberAt(file, 524, 8);
              |ls| == NumberAt(file, 520, 4) && forall i: nat :: i < |ls| ==> IsLoaded(types, file, Place(begin, i), ls[i])
  {
    hide LoadFrom, AllLoad, IsLoaded, Loads, Place, NumberAt, ToBytes;
    if |file| >= 532 {
      FirstBytes();
      NumberIs(file, 0, MAGIC_V2);
      NumberIs(file, 4, VERSION);
      LoadFromMeans(types, file, NumberAt(file, 524, 8), NumberAt(file, 520, 4), mode, {});
    }
  }

  // ---- version 1 -------------------------------------------------------------------------------------------------

  /** The twelve bytes of the header: magic number, and the announced size of the descriptors. */
  lemma HeaderLayoutV1(ps: seq<Param>)
    requires Announced(ps) < 0x1_0000_0000_0000_0000
    ensures var file := Written(ps);
            |file| >= 12 && file[0..4] == [0x2C, 0x4E, 0, 0] && NumberAt(file, 4, 8) == 24 * |ps| + StorageSizes(ps)
  {
    hide Table, DataOf, EntriesOf, NumberAt, ToBytes;
    Limits();
    SizesDecide(ps, HEADER_SIZE + Announced(ps));
    var rest := Table(EntriesOf(ps, HEADER_SIZE + Announced(ps))) + DataOf(ps);
    assert Written(ps) == ToBytes(MAGIC, 4) + ToBytes(Announced(ps), 8) + rest;
    HeaderWritten(Announced(ps), rest);
    FirstBytes();
  }

  lemma OtherFilesAreRefusedV1(types: Types, file: Bytes, mode: Mode)
    requires |file| < 12 || file[0..4] != [0x2C, 0x4E, 0, 0]
    ensures Read(types, file, mode).None?
  {
    hide Entries, LoadAll, NumberAt, ToBytes;
    if |file| >= 12 {
      FirstBytes();
      NumberIs(file, 0, MAGIC);
    }
  }

  /** Descriptor `i` begins after the header and the descriptors before it, each 24 bytes longer than its name. */
  lemma EntryPlace(ps: seq<Param>, i: nat) returns (before: Bytes, after: Bytes)
    requires i < |ps|
    ensures |before| == 12 + 24 * i + KeySizes(ps[..i])
    ensures Written(ps) == before + EntryBytes(EntriesOf(ps, HEADER_SIZE + Announced(ps))[i]) + after
  {
    hide EntryBytes, DataOf, Announced, ToBytes, EntriesOf;
    var es := EntriesOf(ps, HEADER_SIZE + Announced(ps));
    var head := ToBytes(MAGIC, 4) + ToBytes(Announced(ps), 8);
    before := head + Table(es[..i]);
    after := Table(es[i + 1..]) + DataOf(ps);
    TableParts(es, i);
    PrefixSizes(ps, HEADER_SIZE + Announced(ps), i);
    assert before + EntryBytes(es[i]) + after == head + (Table(es[..i]) + EntryBytes(es[i]) + Table(es[i + 1..])) + DataOf(ps);
  }

  lemma TableParts(es: seq<Entry>, i: nat)
    requires i < |es|
    ensures Table(es) == Table(es[..i]) + EntryBytes(es[i]) + Table(es[i + 1..])
  {
    hide EntryBytes;
    assert es == es[..i] + es[i..] && es[i..][1..] == es[i + 1..] && es[i..][0] == es[i];
    TableSplit(es[..i], es[i..]);
  }

  lemma {:induction false} PrefixSizes(ps: seq<Param>, at: nat, i: nat)
    requires i <= |ps|
    ensures |Table(EntriesOf(ps, at)[..i])| == 24 * i + KeySizes(ps[..i])
    decreases i
  {
    if i > 0 {
      PrefixSizes(ps[1..], at + |ps[0].data|, i - 1);
      assert EntriesOf(ps, at)[..i][1..] == EntriesOf(ps[1..], at + |ps[0].data|)[..i - 1];
      assert ps[..i][1..] == ps[1..][..i - 1];
    }
  }

  /** Name length, name, data length, offset, type: in this order. */
  lemma EntryLayout(types: Types, ps: seq<Param>, i: nat)
    requires ParamsOk(types, ps) && i < |ps|
    ensures var file, at, n := Written(ps), 12 + 24 * i + KeySizes(ps[..i]), |ps[i].key|;
            && |file| >= at + 24 + n
            && NumberAt(file, at, 4) == n && file[at + 4..at + 4 + n] == ps[i].key
            && NumberAt(file, at + 4 + n, 8) == |ps[i].data|
            && NumberAt(file, at + 12 + n, 8) == 12 + 24 * |ps| + StorageSizes(ps) + |DataOf(ps[..i])|
            && NumberAt(file, at + 20 + n, 4) == ps[i].dtype
  {
    hide Written, EntriesOf, DataOf, Announced, NumberAt, ToBytes, KeySizes, StorageSizes, Limit;
    var before, after := EntryPlace(ps, i);
    var e := EntriesOf(ps, HEADER_SIZE + Announced(ps))[i];
    EntriesOk(types, ps, i);
    EntriesNext(ps, HEADER_SIZE + Announced(ps), i);
    SizesDecide(ps, HEADER_SIZE + Announced(ps));
    EntryFields(before, e, after);
  }

  lemma EntryFields(before: Bytes, e: Entry, after: Bytes)
    requires EntryOk(e)
    ensures var s, at, k := before + EntryBytes(e) + after, |before|, |e.name|;
            && |s| >= at + 24 + k && NumberAt(s, at, 4) == k && s[at + 4..at + 4 + k] == e.name
            && NumberAt(s, at + 4 + k, 8) == e.length && NumberAt(s, at + 12 + k, 8) == e.offset && NumberAt(s, at + 20 + k, 4) == e.dtype
  {
    hide ToBytes, NumberAt, Limit;
    var s := before + EntryBytes(e) + after;
    var n, l, o, t := ToBytes(|e.name|, 4), ToBytes(e.length, 8), ToBytes(e.offset, 8), ToBytes(e.dtype, 4);
    assert s == before + n + (e.name + l + o + t + after);
    NumberWritten(before, |e.name|, 4, e.name + l + o + t + after);
    assert s == (before + n) + e.name + (l + o + t + after);
    PieceAt(before + n, e.name, l + o + t + after);
    assert s == (before + n + e.name) + l + (o + t + after);
    NumberWritten(before + n + e.name, e.length, 8, o + t + after);
    assert s == (before + n + e.name + l) + o + (t + after);
    NumberWritten(before + n + e.name + l, e.offset, 8, t + after);
    assert s == (before + n + e.name + l + o) + t + after;
    NumberWritten(before + n + e.name + l + o, e.dtype, 4, after);
  }
}
