/**
  Version 2 model files: fixed-size descriptors with shapes and bounded names.  Reading back gives
  what was written; a name survives exactly when it fits its field.
 */
module ModelFileV2 {
  import opened Bytes
  import opened Positions
  import opened ModelFileV1

  const MAGIC_V2: nat := 0x519A
  const VERSION: nat := 2
  const MODEL_NAME: nat := 512
  const HEADER_V2: nat := 532
  const DESCRIPTOR: nat := 352
  const NAME_FIELD: nat := 256
  const MAX_RANK: nat := 16

  datatype Parameter = Parameter(name: Bytes, dtype: nat, shape: seq<nat>, data: Bytes)

  datatype Descriptor = Descriptor(id: nat, dtype: nat, size: nat, offset: nat, shape: seq<nat>, name: Bytes)

  function Product(shape: seq<nat>): nat { if shape == [] then 1 else shape[0] * Product(shape[1..]) }

  // ---- fields ----------------------------------------------------------------------------------------------

  function Zeros(n: nat): (s: Bytes)
    ensures |s| == n && forall i :: 0 <= i < n ==> s[i] == 0
  {
    seq(n, _ => 0)
  }

  /** The part of `s` before its first zero byte: all of it when there is none. */
  function CString(s: Bytes): (c: Bytes)
    ensures c <= s && 0 !in c
    ensures |c| < |s| ==> s[|c|] == 0
  {
    if s == [] || s[0] == 0 then [] else [s[0]] + CString(s[1..])
  }

  /** The name field: the name up to its first zero byte, cut to 255 bytes, and padded with zeros. */
  function NameField(name: Bytes): (f: Bytes)
    ensures |f| == NAME_FIELD
  {
    var c := CString(name);
    var kept := if |c| < NAME_FIELD then c else c[..NAME_FIELD - 1];
    kept + Zeros(NAME_FIELD - |kept|)
  }

  lemma {:induction false} CStringPadded(c: Bytes, n: nat)
    requires 0 !in c && n > 0
    ensures CString(c + Zeros(n)) == c
  {
    var s := c + Zeros(n);
    if c != [] {
      assert s[1..] == c[1..] + Zeros(n);
      CStringPadded(c[1..], n);
    }
  }

  lemma {:induction false} CStringWhole(s: Bytes)
    requires 0 !in s
    ensures CString(s) == s
  {
    if s != [] { CStringWhole(s[1..]); }
  }

  /** A name is read back from its field exactly when it has at most 255 bytes and no zero byte. */
  lemma NameSurvives(name: Bytes)
    ensures CString(NameField(name)) == name <==> |name| < NAME_FIELD && 0 !in name
  {
    var c := CString(name);
    var kept := if |c| < NAME_FIELD then c else c[..NAME_FIELD - 1];
    CStringPadded(kept, NAME_FIELD - |kept|);
    if 0 !in name { CStringWhole(name); }
  }

  /** The dimensions, in sixteen places of four bytes, the rest zero. */
  function ShapeField(shape: seq<nat>, places: nat): (s: Bytes)
    ensures |s| == 4 * places
  {
    if places == 0 then []
    else if shape == [] then ToBytes(0, 4) + ShapeField([], places - 1)
    else ToBytes(shape[0], 4) + ShapeField(shape[1..], places - 1)
  }

  /** The first `n` places of a shape field at `pos`. */
  function ShapeAt(s: Bytes, pos: nat, n: nat): (shape: seq<nat>)
    requires pos + 4 * n <= |s|
    ensures |shape| == n
    decreases n
  {
    if n == 0 then [] else [NumberAt(s, pos, 4)] + ShapeAt(s, pos + 4, n - 1)
  }

  lemma {:induction false} ShapeWritten(before: Bytes, shape: seq<nat>, places: nat, after: Bytes)
    requires |shape| <= places && forall i :: 0 <= i < |shape| ==> shape[i] < Limit(4)
    ensures ShapeAt(before + ShapeField(shape, places) + after, |before|, |shape|) == shape
    decreases |shape|
  {
    if shape != [] {
      var rest := ShapeField(shape[1..], places - 1);
      Regroup(before, ToBytes(shape[0], 4), rest, after);
      NumberWritten(before, shape[0], 4, rest + after);
      ShapeWritten(before + ToBytes(shape[0], 4), shape[1..], places - 1, after);
    }
  }

  function DescriptorBytes(d: Descriptor): (s: Bytes)
    ensures |s| == DESCRIPTOR
  {
    ToBytes(d.id, 4) + ToBytes(d.dtype, 4) + ToBytes(d.size, 8) + ToBytes(d.offset, 8) + ToBytes(|d.shape|, 8)
    + ShapeField(d.shape, MAX_RANK) + NameField(d.name)
  }

  /** A descriptor as the readers take it apart; a rank above sixteen aborts. */
  function ParseDescriptor(s: Bytes, pos: nat): (r: Option<Descriptor>) {
    if pos + DESCRIPTOR > |s| then None
    else
      var rank := NumberAt(s, pos + 24, 8);
      if rank > MAX_RANK then None
      else
        Some(Descriptor(NumberAt(s, pos, 4), NumberAt(s, pos + 4, 4), NumberAt(s, pos + 8, 8), NumberAt(s, pos + 16, 8),
                        ShapeAt(s, pos + 32, rank), CString(s[pos + 96..pos + DESCRIPTOR])))
  }

  /** The numbers of a descriptor fit their fields. */
  predicate NumbersOk(d: Descriptor) {
    && d.id < Limit(4) && d.dtype < Limit(4) && d.size < Limit(8) && d.offset < Limit(8) && |d.shape| < Limit(8)
    && forall i :: 0 <= i < |d.shape| ==> d.shape[i] < Limit(4)
  }

  predicate DescriptorOk(d: Descriptor) { NumbersOk(d) && |d.shape| <= MAX_RANK && |d.name| < NAME_FIELD && 0 !in d.name }

  /** A descriptor written somewhere is refused for a rank above sixteen, and else parsed with the name its field holds. */
  lemma DescriptorParsed(before: Bytes, d: Descriptor, after: Bytes)
    requires NumbersOk(d)
    ensures ParseDescriptor(before + DescriptorBytes(d) + after, |before|)
         == if |d.shape| > MAX_RANK then None else Some(d.(name := CString(NameField(d.name))))
  {
    hide ToBytes, ShapeField, NameField, NumberAt, ShapeAt, CString, Limit;
    var s := before + DescriptorBytes(d) + after;
    var a, b, c, o, r := ToBytes(d.id, 4), ToBytes(d.dtype, 4), ToBytes(d.size, 8), ToBytes(d.offset, 8), ToBytes(|d.shape|, 8);
    var sh, n := ShapeField(d.shape, MAX_RANK), NameField(d.name);
    assert s == before + a + (b + c + o + r + sh + n + after);
    NumberWritten(before, d.id, 4, b + c + o + r + sh + n + after);
    assert s == (before + a) + b + (c + o + r + sh + n + after);
    NumberWritten(before + a, d.dtype, 4, c + o + r + sh + n + after);
    assert s == (before + a + b) + c + (o + r + sh + n + after);
    NumberWritten(before + a + b, d.size, 8, o + r + sh + n + after);
    assert s == (before + a + b + c) + o + (r + sh + n + after);
    NumberWritten(before + a + b + c, d.offset, 8, r + sh + n + after);
    assert s == (before + a + b + c + o) + r + (sh + n + after);
    NumberWritten(before + a + b + c + o, |d.shape|, 8, sh + n + after);
    assert s == (before + a + b + c + o + r) + sh + (n + after);
    if |d.shape| <= MAX_RANK {
      ShapeWritten(before + a + b + c + o + r, d.shape, MAX_RANK, n + after);
      assert s[|before| + 96..|before| + DESCRIPTOR] == n;
    }
  }

  lemma DescriptorWritten(before: Bytes, d: Descriptor, after: Bytes)
    requires DescriptorOk(d)
    ensures ParseDescriptor(before + DescriptorBytes(d) + after, |before|) == Some(d)
  {
    hide NumbersOk, ParseDescriptor, DescriptorBytes, CString, NameField;
    DescriptorParsed(before, d, after);
    NameSurvives(d.name);
  }

  // ---- writing ---------------------------------------------------------------------------------------------

  /**
    The descriptors, for data that starts at `at`.  `ids` are the identifiers, which the writer takes
    from a difference of addresses.
   */
  function DescriptorsOf(ps: seq<Parameter>, ids: seq<nat>, at: nat): (ds: seq<Descriptor>)
    requires |ids| == |ps|
    ensures |ds| == |ps|
  {
    if ps == [] then []
    else
      [Descriptor(ids[0], ps[0].dtype, |ps[0].data|, at, ps[0].shape, ps[0].name)]
      + DescriptorsOf(ps[1..], ids[1..], at + |ps[0].data|)
  }

  function TableV2(ds: seq<Descriptor>): (s: Bytes)
    ensures |s| == Times(|ds|, DESCRIPTOR)
  {
    if ds == [] then [] else DescriptorBytes(ds[0]) + TableV2(ds[1..])
  }

  function DataV2(ps: seq<Parameter>): Bytes { if ps == [] then [] else ps[0].data + DataV2(ps[1..]) }

  function Header(n: nat): (s: Bytes)
    ensures |s| == HEADER_V2
  {
    ToBytes(MAGIC_V2, 4) + ToBytes(VERSION, 4) + Zeros(MODEL_NAME) + ToBytes(n, 4) + ToBytes(HEADER_V2, 8)
  }

  /** Where the data starts: after the header and the descriptors. */
  function DataStart(n: nat): nat { HEADER_V2 + Times(n, DESCRIPTOR) }

  function WrittenV2(ps: seq<Parameter>, ids: seq<nat>): Bytes
    requires |ids| == |ps|
  {
    Header(|ps|) + TableV2(DescriptorsOf(ps, ids, DataStart(|ps|))) + DataV2(ps)
  }

  lemma {:induction false} DataV2Split(a: seq<Parameter>, b: seq<Parameter>)
    ensures DataV2(a + b) == DataV2(a) + DataV2(b)
  {
    if a == [] {
      assert a + b == b;
    } else {
      assert (a + b)[1..] == a[1..] + b;
      DataV2Split(a[1..], b);
    }
  }

  lemma {:induction false} TableV2Split(a: seq<Descriptor>, b: seq<Descriptor>)
    ensures TableV2(a + b) == TableV2(a) + TableV2(b)
  {
    hide DescriptorBytes;
    if a == [] {
      assert a + b == b;
    } else {
      assert (a + b)[1..] == a[1..] + b;
      TableV2Split(a[1..], b);
    }
  }

  lemma OneMoreV2(ps: seq<Parameter>, i: nat)
    requires i < |ps|
    ensures DataV2(ps[..i + 1]) == DataV2(ps[..i]) + ps[i].data
  {
    assert ps[..i + 1] == ps[..i] + [ps[i]] && [ps[i]][1..] == [];
    DataV2Split(ps[..i], [ps[i]]);
  }

  lemma {:induction false} DescriptorsNext(ps: seq<Parameter>, ids: seq<nat>, at: nat, i: nat)
    requires |ids| == |ps| && i < |ps|
    ensures DescriptorsOf(ps, ids, at)[i] == Descriptor(ids[i], ps[i].dtype, |ps[i].data|, at + |DataV2(ps[..i])|, ps[i].shape, ps[i].name)
    decreases i
  {
    if i > 0 {
      DescriptorsNext(ps[1..], ids[1..], at + |ps[0].data|, i - 1);
      assert ps[..i][1..] == ps[1..][..i - 1];
    }
  }

  lemma TableOneMore(ds: seq<Descriptor>, i: nat)
    requires i < |ds|
    ensures TableV2(ds[..i + 1]) == TableV2(ds[..i]) + DescriptorBytes(ds[i])
  {
    hide DescriptorBytes;
    assert ds[..i + 1] == ds[..i] + [ds[i]];
    TableV2Split(ds[..i], [ds[i]]);
    assert TableV2([ds[i]]) == DescriptorBytes(ds[i]) + TableV2([ds[i]][1..]);
  }

  /** The writer: header, then one descriptor per parameter with a running data offset, then the data. */
  method WriteV2(ps: seq<Parameter>, ids: seq<nat>) returns (out: Bytes)
    requires |ids| == |ps|
    ensures out == WrittenV2(ps, ids)
  {
    hide TableV2, DataV2, DescriptorsOf, DescriptorBytes, Header;
    EndsV2(ps);
    out := Header(|ps|);
    var at := DataStart(|ps|);
    ghost var ds, header := DescriptorsOf(ps, ids, DataStart(|ps|)), out;
    for i := 0 to |ps|
      invariant out == header + TableV2(ds[..i]) && at == DataStart(|ps|) + |DataV2(ps[..i])|
    {
      OneMoreV2(ps, i);
      DescriptorsNext(ps, ids, DataStart(|ps|), i);
      TableOneMore(ds, i);
      out := out + DescriptorBytes(Descriptor(ids[i], ps[i].dtype, |ps[i].data|, at, ps[i].shape, ps[i].name));
      at := at + |ps[i].data|;
    }
    assert ds[..|ps|] == ds;
    ghost var table := out;
    for i := 0 to |ps|
      invariant out == table + DataV2(ps[..i])
    {
      OneMoreV2(ps, i);
      out := out + ps[i].data;
    }
  }

  lemma EndsV2(ps: seq<Parameter>)
    ensures ps[..0] == [] && ps[..|ps|] == ps && DataV2([]) == [] && TableV2([]) == []
  {
  }

  // ---- reading ---------------------------------------------------------------------------------------------

  datatype LoadedV2 = LoadedV2(name: Bytes, dtype: nat, shape: seq<nat>, data: Bytes)

  /** The bytes that a tensor of this shape and type occupies; its volume must be whole blocks. */
  function StorageSize(types: Types, dtype: nat, shape: seq<nat>): Option<nat> {
    if !types.Knows(dtype) || Product(shape) % types.lanes[dtype] != 0 then None
    else Some(Product(shape) / types.lanes[dtype] * types.bytes[dtype])
  }

  /** The tensor must fit in what the file has for it; a streamed read must fit in the tensor. */
  function LoadV2(types: Types, file: Bytes, d: Descriptor, mode: Mode): Option<LoadedV2> {
    var size := StorageSize(types, d.dtype, d.shape);
    if size.None? || d.size < size.value then None
    else
      var read := if mode.Mapped? then size.value else d.size;
      if read > size.value || d.offset + read > |file| then None
      else Some(LoadedV2(d.name, d.dtype, d.shape, file[d.offset..d.offset + read]))
  }

  function LoadFrom(types: Types, file: Bytes, begin: nat, count: nat, mode: Mode, seen: set<Bytes>): Option<seq<LoadedV2>>
    decreases count
  {
    if count == 0 then Some([])
    else
      var d := ParseDescriptor(file, begin);
      if d.None? then None
      else
        var l := LoadV2(types, file, d.value, mode);
        if l.None? || d.value.name in seen then None
        else Prepend([l.value], LoadFrom(types, file, begin + DESCRIPTOR, count - 1, mode, seen + {d.value.name}))
  }

  function ReadV2(types: Types, file: Bytes, mode: Mode): Option<seq<LoadedV2>> {
    if |file| < HEADER_V2 || NumberAt(file, 0, 4) != MAGIC_V2 || NumberAt(file, 4, 4) != VERSION then None
    else LoadFrom(types, file, NumberAt(file, 524, 8), NumberAt(file, 520, 4), mode, {})
  }

  /** The loop over the descriptors: parse, make the tensor, check its size, enter it. */
  method ReadFileV2(types: Types, file: Bytes, mode: Mode) returns (ls: Option<seq<LoadedV2>>)
    ensures ls == ReadV2(types, file, mode)
  {
    hide Prepend, ParseDescriptor, LoadV2, NumberAt;
    if |file| < HEADER_V2 || NumberAt(file, 0, 4) != MAGIC_V2 || NumberAt(file, 4, 4) != VERSION { return None; }
    var begin, count := NumberAt(file, 524, 8), NumberAt(file, 520, 4);
    var names: set<Bytes> := {};
    var read: seq<LoadedV2> := [];
    PrependNothing(LoadFrom(types, file, begin, count, mode, {}));
    var at: nat := begin;
    for i := 0 to count
      invariant LoadFrom(types, file, begin, count, mode, {}) == Prepend(read, LoadFrom(types, file, at, count - i, mode, names))
    {
      var d := ParseDescriptor(file, at);
      if d.None? {
        PrependNone(read);
        return None;
      }
      var l := LoadV2(types, file, d.value, mode);
      if l.None? || d.value.name in names {
        PrependNone(read);
        return None;
      }
      PrependOne(read, l.value, LoadFrom(types, file, at + DESCRIPTOR, count - i - 1, mode, names + {d.value.name}));
      names := names + {d.value.name};
      read := read + [l.value];
      at := at + DESCRIPTOR;
    }
    PrependLast(read);
    ls := Some(read);
  }

  /** Whatever is read streamed is read the same mapped. */
  lemma {:induction false} LoadFromAgrees(types: Types, file: Bytes, begin: nat, count: nat, seen: set<Bytes>)
    requires LoadFrom(types, file, begin, count, Streamed, seen).Some?
    ensures LoadFrom(types, file, begin, count, Mapped, seen) == LoadFrom(types, file, begin, count, Streamed, seen)
    decreases count
  {
    hide ParseDescriptor;
    if count > 0 {
      LoadFromAgrees(types, file, begin + DESCRIPTOR, count - 1, seen + {ParseDescriptor(file, begin).value.name});
    }
  }

  lemma ReadersAgreeV2(types: Types, file: Bytes)
    requires ReadV2(types, file, Streamed).Some?
    ensures ReadV2(types, file, Mapped) == ReadV2(types, file, Streamed)
  {
    LoadFromAgrees(types, file, NumberAt(file, 524, 8), NumberAt(file, 520, 4), {});
  }

  // ---- reading back what was written -----------------------------------------------------------------------

  /** What version 2 can hold of one parameter. */
  predicate ParameterOk(types: Types, p: Parameter) {
    && |p.name| < NAME_FIELD && 0 !in p.name && p.dtype < Limit(4) && |p.shape| <= MAX_RANK
    && (forall i :: 0 <= i < |p.shape| ==> p.shape[i] < Limit(4)) && StorageSize(types, p.dtype, p.shape) == Some(|p.data|)
  }

  ghost predicate ParametersOk(types: Types, ps: seq<Parameter>, ids: seq<nat>) {
    && |ids| == |ps| < Limit(4) && (forall i :: 0 <= i < |ids| ==> ids[i] < Limit(4))
    && (forall i :: 0 <= i < |ps| ==> ParameterOk(types, ps[i]))
    && (forall i, j :: 0 <= i < j < |ps| ==> ps[i].name != ps[j].name)
    && DataStart(|ps|) + |DataV2(ps)| < Limit(8)
  }

  function ExpectedV2Of(p: Parameter): LoadedV2 { LoadedV2(p.name, p.dtype, p.shape, p.data) }

  function ExpectedV2(ps: seq<Parameter>): (ls: seq<LoadedV2>)
    ensures |ls| == |ps| && forall i :: 0 <= i < |ps| ==> ls[i] == ExpectedV2Of(ps[i])
  {
    seq(|ps|, i requires 0 <= i < |ps| => ExpectedV2Of(ps[i]))
  }

  lemma DataV2Within(ps: seq<Parameter>, i: nat)
    requires i < |ps|
    ensures |DataV2(ps[..i])| + |ps[i].data| <= |DataV2(ps)|
    ensures DataV2(ps)[|DataV2(ps[..i])|..|DataV2(ps[..i])| + |ps[i].data|] == ps[i].data
  {
    OneMoreV2(ps, i);
    assert ps == ps[..i + 1] + ps[i + 1..];
    DataV2Split(ps[..i + 1], ps[i + 1..]);
    hide DataV2;
  }

  lemma DescriptorsOk(types: Types, ps: seq<Parameter>, ids: seq<nat>, i: nat)
    requires ParametersOk(types, ps, ids) && i < |ps|
    ensures DescriptorOk(DescriptorsOf(ps, ids, DataStart(|ps|))[i])
  {
    hide DataV2, DescriptorsOf, StorageSize;
    DescriptorsNext(ps, ids, DataStart(|ps|), i);
    DataV2Within(ps, i);
    assert ParameterOk(types, ps[i]);
  }

  lemma {:induction false} LoadFromTable(types: Types, before: Bytes, ds: seq<Descriptor>, after: Bytes, ps: seq<Parameter>, mode: Mode, seen: set<Bytes>)
    requires |ds| == |ps|
    requires forall i :: 0 <= i < |ds| ==> DescriptorOk(ds[i]) && ds[i].name == ps[i].name
    requires forall i :: 0 <= i < |ds| ==> LoadV2(types, before + TableV2(ds) + after, ds[i], mode) == Some(ExpectedV2Of(ps[i]))
    requires forall i :: 0 <= i < |ps| ==> ps[i].name !in seen
    requires forall i, j :: 0 <= i < j < |ps| ==> ps[i].name != ps[j].name
    ensures LoadFrom(types, before + TableV2(ds) + after, |before|, |ds|, mode, seen) == Some(ExpectedV2(ps))
    decreases |ds|
  {
    hide ParseDescriptor, DescriptorOk, DescriptorBytes, LoadV2;
    if ds == [] {
      assert ExpectedV2(ps) == [];
    } else {
      var rest := TableV2(ds[1..]);
      Regroup(before, DescriptorBytes(ds[0]), rest, after);
      DescriptorWritten(before, ds[0], rest + after);
      LoadFromTable(types, before + DescriptorBytes(ds[0]), ds[1..], after, ps[1..], mode, seen + {ds[0].name});
      assert [ExpectedV2Of(ps[0])] + ExpectedV2(ps[1..]) == ExpectedV2(ps);
    }
  }

  lemma HeaderV2Written(n: nat, rest: Bytes)
    requires n < Limit(4)
    ensures var file := Header(n) + rest;
            && NumberAt(file, 0, 4) == MAGIC_V2 && NumberAt(file, 4, 4) == VERSION
            && NumberAt(file, 520, 4) == n && NumberAt(file, 524, 8) == HEADER_V2
  {
    hide ToBytes, NumberAt, Zeros;
    Limits();
    var m, v, z, c, o := ToBytes(MAGIC_V2, 4), ToBytes(VERSION, 4), Zeros(MODEL_NAME), ToBytes(n, 4), ToBytes(HEADER_V2, 8);
    var file := Header(n) + rest;
    assert file == [] + m + (v + z + c + o + rest);
    NumberWritten([], MAGIC_V2, 4, v + z + c + o + rest);
    assert file == m + v + (z + c + o + rest);
    NumberWritten(m, VERSION, 4, z + c + o + rest);
    assert file == (m + v + z) + c + (o + rest);
    NumberWritten(m + v + z, n, 4, o + rest);
    assert file == (m + v + z + c) + o + rest;
    NumberWritten(m + v + z + c, HEADER_V2, 8, rest);
  }

  /** Reading a written file, mapped or streamed, recovers every name, type, shape and byte. */
  lemma RoundTripV2(types: Types, ps: seq<Parameter>, ids: seq<nat>, mode: Mode)
    requires ParametersOk(types, ps, ids)
    ensures ReadV2(types, WrittenV2(ps, ids), mode) == Some(ExpectedV2(ps))
  {
    hide Header, TableV2, DataV2, DescriptorsOf, NumberAt, LoadFrom, LoadV2, ParameterOk, DescriptorOk, ExpectedV2;
    var ds := DescriptorsOf(ps, ids, DataStart(|ps|));
    var head, table, data := Header(|ps|), TableV2(ds), DataV2(ps);
    var file := WrittenV2(ps, ids);
    assert head + (table + data) == file;
    HeaderV2Written(|ps|, table + data);
    forall i | 0 <= i < |ds|
      ensures DescriptorOk(ds[i]) && ds[i].name == ps[i].name
      ensures LoadV2(types, file, ds[i], mode) == Some(ExpectedV2Of(ps[i]))
    {
      DescriptorsOk(types, ps, ids, i);
      DescriptorsNext(ps, ids, DataStart(|ps|), i);
      DataV2InFile(ps, ids, i);
      LoadV2Back(types, file, ps[i], ds[i], mode);
    }
    LoadFromTable(types, head, ds, data, ps, mode, {});
  }

  lemma LoadV2Back(types: Types, file: Bytes, p: Parameter, d: Descriptor, mode: Mode)
    requires ParameterOk(types, p) && d.dtype == p.dtype && d.shape == p.shape && d.name == p.name && d.size == |p.data|
    requires d.offset + |p.data| <= |file| && file[d.offset..d.offset + |p.data|] == p.data
    ensures LoadV2(types, file, d, mode) == Some(ExpectedV2Of(p))
  {
  }

  lemma DataV2InFile(ps: seq<Parameter>, ids: seq<nat>, i: nat)
    requires |ids| == |ps| && i < |ps|
    ensures var file, at := WrittenV2(ps, ids), DataStart(|ps|) + |DataV2(ps[..i])|;
            at + |ps[i].data| <= |file| && file[at..at + |ps[i].data|] == ps[i].data
  {
    hide TableV2, DescriptorsOf, DataV2, Header;
    DataV2Within(ps, i);
    var head := Header(|ps|) + TableV2(DescriptorsOf(ps, ids, DataStart(|ps|)));
    assert WrittenV2(ps, ids) == head + DataV2(ps) && |head| == DataStart(|ps|);
  }

  // ---- only then -------------------------------------------------------------------------------------------

  /** Names and ranks that version 2 can hold. */
  predicate Holdable(p: Parameter) { |p.name| < NAME_FIELD && 0 !in p.name && |p.shape| <= MAX_RANK }

  /** All that is asked of one parameter but that its name and rank can be held. */
  predicate ContentOk(types: Types, p: Parameter) {
    && p.dtype < Limit(4) && |p.shape| < Limit(8) && (forall i :: 0 <= i < |p.shape| ==> p.shape[i] < Limit(4))
    && StorageSize(types, p.dtype, p.shape) == Some(|p.data|)
  }

  ghost predicate ContentsOk(types: Types, ps: seq<Parameter>, ids: seq<nat>) {
    && |ids| == |ps| < Limit(4) && (forall i :: 0 <= i < |ids| ==> ids[i] < Limit(4))
    && (forall i :: 0 <= i < |ps| ==> ContentOk(types, ps[i]))
    && (forall i, j :: 0 <= i < j < |ps| ==> ps[i].name != ps[j].name)
    && DataStart(|ps|) + |DataV2(ps)| < Limit(8)
  }

  lemma NumbersFit(types: Types, ps: seq<Parameter>, ids: seq<nat>, i: nat)
    requires ContentsOk(types, ps, ids) && i < |ps|
    ensures NumbersOk(DescriptorsOf(ps, ids, DataStart(|ps|))[i]) && DescriptorsOf(ps, ids, DataStart(|ps|))[i].name == ps[i].name
    ensures DescriptorsOf(ps, ids, DataStart(|ps|))[i].shape == ps[i].shape
  {
    hide DataV2, DescriptorsOf, StorageSize;
    DescriptorsNext(ps, ids, DataStart(|ps|), i);
    DataV2Within(ps, i);
    assert ContentOk(types, ps[i]);
  }

  /** Whatever comes back under the names that were written could be held. */
  lemma {:induction false} ReadIsHoldable(types: Types, before: Bytes, ds: seq<Descriptor>, after: Bytes, ps: seq<Parameter>, mode: Mode, seen: set<Bytes>, i: nat)
    requires |ds| == |ps| && i < |ps| && forall j :: 0 <= j < |ds| ==> NumbersOk(ds[j]) && ds[j].name == ps[j].name && ds[j].shape == ps[j].shape
    requires LoadFrom(types, before + TableV2(ds) + after, |before|, |ds|, mode, seen) == Some(ExpectedV2(ps))
    ensures Holdable(ps[i])
    decreases |ds|
  {
    hide ParseDescriptor, NumbersOk, DescriptorBytes, StorageSize;
    var rest, file := TableV2(ds[1..]), before + TableV2(ds) + after;
    Regroup(before, DescriptorBytes(ds[0]), rest, after);
    DescriptorParsed(before, ds[0], rest + after);
    var d := ParseDescriptor(file, |before|).value;
    assert ExpectedV2(ps)[0].name == ps[0].name;
    NameSurvives(ps[0].name);
    if i > 0 {
      assert ExpectedV2(ps)[1..] == ExpectedV2(ps[1..]);
      ReadIsHoldable(types, before + DescriptorBytes(ds[0]), ds[1..], after, ps[1..], mode, seen + {d.name}, i - 1);
    }
  }

  /** A written file is read back, in either mode, exactly when every name and every rank can be held. */
  lemma RoundTripV2IsExact(types: Types, ps: seq<Parameter>, ids: seq<nat>, mode: Mode)
    requires ContentsOk(types, ps, ids)
    ensures ReadV2(types, WrittenV2(ps, ids), mode) == Some(ExpectedV2(ps)) <==> forall i :: 0 <= i < |ps| ==> Holdable(ps[i])
  {
    hide Header, TableV2, DataV2, DescriptorsOf, NumberAt, LoadFrom, NumbersOk, ExpectedV2, StorageSize;
    if forall i :: 0 <= i < |ps| ==> Holdable(ps[i]) {
      assert ParametersOk(types, ps, ids) by { forall i | 0 <= i < |ps| ensures ParameterOk(types, ps[i]) { assert ContentOk(types, ps[i]); } }
      RoundTripV2(types, ps, ids, mode);
    }
    if ReadV2(types, WrittenV2(ps, ids), mode) == Some(ExpectedV2(ps)) {
      var ds := DescriptorsOf(ps, ids, DataStart(|ps|));
      var head, table, data := Header(|ps|), TableV2(ds), DataV2(ps);
      assert head + (table + data) == WrittenV2(ps, ids);
      HeaderV2Written(|ps|, table + data);
      forall i | 0 <= i < |ps| ensures NumbersOk(ds[i]) && ds[i].name == ps[i].name && ds[i].shape == ps[i].shape { NumbersFit(types, ps, ids, i); }
      forall i | 0 <= i < |ps| ensures Holdable(ps[i]) { ReadIsHoldable(types, head, ds, data, ps, mode, {}, i); }
    }
  }
}
