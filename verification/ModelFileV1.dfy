/**
  Version 1 model files: the writer, the two readers (over the mapped file, and over a buffer filled
  from the stream), and when reading back gives what was written.
 */
module ModelFileV1 {
  import opened Bytes
  import opened Positions

  datatype Option<T> = None | Some(value: T)

  const MAGIC: nat := 20012
  const HEADER_SIZE: nat := 12
  const MAX_INT32: nat := 0x7FFF_FFFF

  /** A parameter as the writer sees it: its key, the name its storage carries, its type, element count and bytes. */
  datatype Param = Param(key: Bytes, storageName: Bytes, dtype: nat, count: nat, data: Bytes)

  /** What one descriptor says. */
  datatype Entry = Entry(name: Bytes, length: nat, offset: nat, dtype: nat)

  /** A parameter as a reader delivers it. */
  datatype Loaded = Loaded(name: Bytes, dtype: nat, count: nat, data: Bytes)

  /** Bytes and elements of one block of each data type. */
  datatype Types = Types(bytes: map<nat, nat>, lanes: map<nat, nat>) {
    predicate Knows(t: nat) { t in bytes && t in lanes && bytes[t] > 0 && lanes[t] > 0 }
  }

  // ---- writing ---------------------------------------------------------------------------------------------

  function EntryBytes(e: Entry): (s: Bytes)
    ensures |s| == 24 + |e.name|
  {
    ToBytes(|e.name|, 4) + e.name + ToBytes(e.length, 8) + ToBytes(e.offset, 8) + ToBytes(e.dtype, 4)
  }

  /** The descriptors that the writer puts out, for data that starts at `at`. */
  function EntriesOf(ps: seq<Param>, at: nat): (es: seq<Entry>)
    ensures |es| == |ps|
  {
    if ps == [] then [] else [Entry(ps[0].key, |ps[0].data|, at, ps[0].dtype)] + EntriesOf(ps[1..], at + |ps[0].data|)
  }

  function Table(es: seq<Entry>): Bytes {
    if es == [] then [] else EntryBytes(es[0]) + Table(es[1..])
  }

  function DataOf(ps: seq<Param>): Bytes {
    if ps == [] then [] else ps[0].data + DataOf(ps[1..])
  }

  /** The size of the descriptors as the writer announces it: from the storages' names. */
  function Announced(ps: seq<Param>): nat {
    if ps == [] then 0 else 24 + |ps[0].storageName| + Announced(ps[1..])
  }

  /** The file that the writer produces. */
  function Written(ps: seq<Param>): Bytes {
    ToBytes(MAGIC, 4) + ToBytes(Announced(ps), 8) + Table(EntriesOf(ps, HEADER_SIZE + Announced(ps))) + DataOf(ps)
  }

  lemma {:induction false} TableSplit(a: seq<Entry>, b: seq<Entry>)
    ensures Table(a + b) == Table(a) + Table(b)
  {
    if a == [] {
      assert a + b == b;
    } else {
      assert (a + b)[1..] == a[1..] + b;
      TableSplit(a[1..], b);
    }
  }

  lemma {:induction false} EntriesNext(ps: seq<Param>, at: nat, i: nat)
    requires i < |ps|
    ensures EntriesOf(ps, at)[i] == Entry(ps[i].key, |ps[i].data|, at + |DataOf(ps[..i])|, ps[i].dtype)
    decreases i
  {
    if i > 0 {
      EntriesNext(ps[1..], at + |ps[0].data|, i - 1);
      assert ps[..i][1..] == ps[1..][..i - 1];
    }
  }

  lemma {:induction false} DataSplit(a: seq<Param>, b: seq<Param>)
    ensures DataOf(a + b) == DataOf(a) + DataOf(b)
  {
    if a == [] {
      assert a + b == b;
    } else {
      assert (a + b)[1..] == a[1..] + b;
      DataSplit(a[1..], b);
    }
  }

  lemma {:induction false} AnnouncedSplit(a: seq<Param>, b: seq<Param>)
    ensures Announced(a + b) == Announced(a) + Announced(b)
  {
    if a == [] {
      assert a + b == b;
    } else {
      assert (a + b)[1..] == a[1..] + b;
      AnnouncedSplit(a[1..], b);
    }
  }

  lemma OneMore(ps: seq<Param>, i: nat)
    requires i < |ps|
    ensures DataOf(ps[..i + 1]) == DataOf(ps[..i]) + ps[i].data
    ensures Announced(ps[..i + 1]) == Announced(ps[..i]) + 24 + |ps[i].storageName|
  {
    assert ps[..i + 1] == ps[..i] + [ps[i]] && [ps[i]][1..] == [];
    DataSplit(ps[..i], [ps[i]]);
    AnnouncedSplit(ps[..i], [ps[i]]);
  }

  lemma EntriesOneMore(ps: seq<Param>, at: nat, i: nat)
    requires i < |ps|
    ensures Table(EntriesOf(ps, at)[..i + 1]) == Table(EntriesOf(ps, at)[..i]) + EntryBytes(EntriesOf(ps, at)[i])
  {
    var es := EntriesOf(ps, at);
    assert es[..i + 1] == es[..i] + [es[i]];
    TableSplit(es[..i], [es[i]]);
    assert Table([es[i]]) == EntryBytes(es[i]) + Table([es[i]][1..]);
  }

  /** The writer's three loops over the parameters, in the order of the parameter map. */
  method Write(ps: seq<Param>) returns (out: Bytes)
    ensures out == Written(ps)
  {
    hide Table, DataOf, Announced, EntriesOf, EntryBytes;
    Ends(ps);
    var total := 0;
    for i := 0 to |ps|
      invariant total == Announced(ps[..i])
    {
      OneMore(ps, i);
      total := total + 4;
      total := total + |ps[i].storageName|;
      total := total + 8 + 8 + 4;
    }
    out := ToBytes(MAGIC, 4) + ToBytes(total, 8);
    ghost var es := EntriesOf(ps, HEADER_SIZE + Announced(ps));
    ghost var header := out;
    var at := HEADER_SIZE + total;
    for i := 0 to |ps|
      invariant out == header + Table(es[..i]) && at == HEADER_SIZE + Announced(ps) + |DataOf(ps[..i])|
    {
      OneMore(ps, i);
      EntriesNext(ps, HEADER_SIZE + Announced(ps), i);
      EntriesOneMore(ps, HEADER_SIZE + Announced(ps), i);
      out := out + EntryBytes(Entry(ps[i].key, |ps[i].data|, at, ps[i].dtype));
      at := at + |ps[i].data|;
    }
    assert es[..|ps|] == es;
    ghost var table := out;
    for i := 0 to |ps|
      invariant out == table + DataOf(ps[..i])
    {
      OneMore(ps, i);
      out := out + ps[i].data;
    }
  }

  lemma Ends(ps: seq<Param>)
    ensures ps[..0] == [] && ps[..|ps|] == ps
    ensures DataOf([]) == [] && Announced([]) == 0 && Table([]) == []
  {
  }

  /**
    The offsets that the writer announces are where it puts the data exactly when the storages' names
    are, in all, as long as the keys: the announced size is taken from the former, the descriptors
    hold the latter.
   */
  lemma OffsetsAreRight(ps: seq<Param>, i: nat)
    requires i < |ps|
    ensures var es := EntriesOf(ps, HEADER_SIZE + Announced(ps));
            es[i].offset == HEADER_SIZE + |Table(es)| + |DataOf(ps[..i])| <==> StorageSizes(ps) == KeySizes(ps)
  {
    EntriesNext(ps, HEADER_SIZE + Announced(ps), i);
    SizesDecide(ps, HEADER_SIZE + Announced(ps));
  }

  function KeySizes(ps: seq<Param>): nat { if ps == [] then 0 else |ps[0].key| + KeySizes(ps[1..]) }

  function StorageSizes(ps: seq<Param>): nat { if ps == [] then 0 else |ps[0].storageName| + StorageSizes(ps[1..]) }

  lemma {:induction false} SizesDecide(ps: seq<Param>, at: nat)
    ensures Announced(ps) == 24 * |ps| + StorageSizes(ps)
    ensures |Table(EntriesOf(ps, at))| == 24 * |ps| + KeySizes(ps)
  {
    if ps != [] { SizesDecide(ps[1..], at + |ps[0].data|); }
  }

  // ---- reading ---------------------------------------------------------------------------------------------

  /** The descriptor at `pos`, with the position after it. */
  function ParseEntry(s: Bytes, pos: nat): (r: Option<(Entry, nat)>)
    ensures r.Some? ==> r.value.1 >= pos + 24
  {
    if pos + 4 > |s| then None
    else
      var n := NumberAt(s, pos, 4);
      var p := pos + 4 + n;
      if p + 20 > |s| then None
      else Some((Entry(s[pos + 4..p], NumberAt(s, p, 8), NumberAt(s, p + 8, 8), NumberAt(s, p + 16, 4)), p + 20))
  }

  /** Descriptors from `pos` on until `end` is reached or passed; none when one runs over the end of `s`. */
  function ParseEntries(s: Bytes, pos: nat, end: nat): Option<seq<Entry>>
    decreases if pos < end then end - pos else 0
  {
    if pos >= end then Some([])
    else
      var e := ParseEntry(s, pos);
      if e.None? then None
      else
        Prepend([e.value.0], ParseEntries(s, e.value.1, end))
  }

  /** Through a mapping of the file, or by seeking and reading into a buffer. */
  datatype Mode = Mapped | Streamed

  /**
    One parameter from its descriptor.  The element count must fit in 32 bits; a streamed read must
    fit in the storage made for that many elements.
   */
  function Load(types: Types, file: Bytes, e: Entry, mode: Mode): Option<Loaded> {
    if |e.name| > MAX_INT32 || !types.Knows(e.dtype) then None
    else
      var bytes, lanes := types.bytes[e.dtype], types.lanes[e.dtype];
      var count := e.length / bytes * lanes;
      var size := count / lanes * bytes;
      var read := if mode.Mapped? then size else e.length;
      if count > MAX_INT32 || read > size || e.offset + read > |file| then None
      else Some(Loaded(e.name, e.dtype, count, file[e.offset..e.offset + read]))
  }

  /** All parameters, in order; entering a name twice aborts. */
  function LoadAll(types: Types, file: Bytes, es: seq<Entry>, mode: Mode, seen: set<Bytes>): Option<seq<Loaded>> {
    if es == [] then Some([])
    else
      var l := Load(types, file, es[0], mode);
      if l.None? || es[0].name in seen then None
      else
        Prepend([l.value], LoadAll(types, file, es[1..], mode, seen + {es[0].name}))
  }

  function Entries(file: Bytes, mode: Mode): Option<seq<Entry>>
    requires |file| >= HEADER_SIZE
  {
    var size := NumberAt(file, 4, 8);
    if mode.Mapped? then ParseEntries(file, HEADER_SIZE, HEADER_SIZE + size)
    else if HEADER_SIZE + size > |file| then None
    else ParseEntries(file[HEADER_SIZE..HEADER_SIZE + size], 0, size)
  }

  function Read(types: Types, file: Bytes, mode: Mode): Option<seq<Loaded>> {
    if |file| < HEADER_SIZE || NumberAt(file, 0, 4) != MAGIC then None
    else
      var es := Entries(file, mode);
      if es.None? then None else LoadAll(types, file, es.value, mode, {})
  }

  /** What has been read, followed by what is still to be read. */
  function Prepend<T>(a: seq<T>, rest: Option<seq<T>>): Option<seq<T>> {
    if rest.None? then None else Some(a + rest.value)
  }

  lemma PrependNothing<T>(rest: Option<seq<T>>)
    ensures Prepend([], rest) == rest
  {
    if rest.Some? { assert [] + rest.value == rest.value; }
  }

  lemma PrependOne<T>(a: seq<T>, x: T, rest: Option<seq<T>>)
    ensures Prepend(a, Prepend([x], rest)) == Prepend(a + [x], rest)
  {
    if rest.Some? { assert a + ([x] + rest.value) == (a + [x]) + rest.value; }
  }

  lemma PrependNone<T>(a: seq<T>)
    ensures Prepend(a, None) == None
  {
  }

  lemma PrependLast<T>(a: seq<T>)
    ensures Prepend(a, Some([])) == Some(a)
  {
    assert a + [] == a;
  }

  // ---- the readers' loops --------------------------------------------------------------------------------

  /** The loop over the descriptors, with a moving position. */
  method ReadEntries(s: Bytes, start: nat, end: nat) returns (es: Option<seq<Entry>>)
    ensures es == ParseEntries(s, start, end)
  {
    hide ParseEntry, Prepend;
    var pos := start;
    var read: seq<Entry> := [];
    PrependNothing(ParseEntries(s, start, end));
    while pos < end
      invariant ParseEntries(s, start, end) == Prepend(read, ParseEntries(s, pos, end))
      decreases if pos < end then end - pos else 0
    {
      var e := ParseEntry(s, pos);
      if e.None? {
        PrependNone(read);
        return None;
      }
      PrependOne(read, e.value.0, ParseEntries(s, e.value.1, end));
      read := read + [e.value.0];
      pos := e.value.1;
    }
    PrependLast(read);
    es := Some(read);
  }

  /** The loop over the descriptors read, making and entering one tensor each. */
  method ReadTensors(types: Types, file: Bytes, es: seq<Entry>, mode: Mode) returns (ls: Option<seq<Loaded>>)
    ensures ls == LoadAll(types, file, es, mode, {})
  {
    hide Load, Prepend;
    var names: set<Bytes> := {};
    var read: seq<Loaded> := [];
    assert es[0..] == es;
    PrependNothing(LoadAll(types, file, es, mode, {}));
    for i := 0 to |es|
      invariant LoadAll(types, file, es, mode, {}) == Prepend(read, LoadAll(types, file, es[i..], mode, names))
    {
      assert es[i..][0] == es[i] && es[i..][1..] == es[i + 1..];
      var l := Load(types, file, es[i], mode);
      if l.None? || es[i].name in names {
        PrependNone(read);
        return None;
      }
      PrependOne(read, l.value, LoadAll(types, file, es[i + 1..], mode, names + {es[i].name}));
      names := names + {es[i].name};
      read := read + [l.value];
    }
    PrependLast(read);
    ls := Some(read);
  }

  method ReadFile(types: Types, file: Bytes, mode: Mode) returns (ls: Option<seq<Loaded>>)
    ensures ls == Read(types, file, mode)
  {
    hide ParseEntries, LoadAll, NumberAt;
    if |file| < HEADER_SIZE || NumberAt(file, 0, 4) != MAGIC { return None; }
    var size := NumberAt(file, 4, 8);
    var es: Option<seq<Entry>>;
    match mode {
      case Mapped =>
        es := ReadEntries(file, HEADER_SIZE, HEADER_SIZE + size);
      case Streamed =>
        if HEADER_SIZE + size > |file| { return None; }
        es := ReadEntries(file[HEADER_SIZE..HEADER_SIZE + size], 0, size);
    }
    if es.None? { return None; }
    ls := ReadTensors(types, file, es.value, mode);
  }

  // ---- the readers agree -----------------------------------------------------------------------------------

  /** What a shorter piece of the file holds, the file holds too. */
  lemma ParseEntryIn(s: Bytes, a: nat, b: nat, pos: nat)
    requires a <= b <= |s| && ParseEntry(s[a..b], pos).Some?
    ensures var e := ParseEntry(s[a..b], pos).value; ParseEntry(s, a + pos) == Some((e.0, a + e.1))
  {
    var t := s[a..b];
    var n := NumberAt(t, pos, 4);
    var p := pos + 4 + n;
    PieceOfPiece(s, a, b, pos, pos + 4);
    PieceOfPiece(s, a, b, pos + 4, p);
    PieceOfPiece(s, a, b, p, p + 8);
    PieceOfPiece(s, a, b, p + 8, p + 16);
    PieceOfPiece(s, a, b, p + 16, p + 20);
  }

  lemma PieceOfPiece(s: Bytes, a: nat, b: nat, i: nat, j: nat)
    requires a <= b <= |s| && i <= j <= b - a
    ensures s[a..b][i..j] == s[a + i..a + j]
  {
    forall k | 0 <= k < j - i ensures s[a..b][i..j][k] == s[a + i..a + j][k] {}
  }

  lemma {:induction false} ParseEntriesIn(s: Bytes, a: nat, b: nat, pos: nat, end: nat)
    requires a <= b <= |s| && ParseEntries(s[a..b], pos, end).Some?
    ensures ParseEntries(s, a + pos, a + end) == ParseEntries(s[a..b], pos, end)
    decreases if pos < end then end - pos else 0
  {
    hide ParseEntry;
    if pos < end {
      ParseEntryIn(s, a, b, pos);
      ParseEntriesIn(s, a, b, ParseEntry(s[a..b], pos).value.1, end);
    }
  }

  lemma LoadsAgree(types: Types, file: Bytes, e: Entry)
    requires Load(types, file, e, Streamed).Some?
    ensures Load(types, file, e, Mapped) == Load(types, file, e, Streamed)
  {
    var bytes, lanes := types.bytes[e.dtype], types.lanes[e.dtype];
    Blocks(e.length, bytes, lanes);
  }

  /** Counting elements and back gives the whole blocks. */
  lemma Blocks(length: nat, bytes: nat, lanes: nat)
    requires bytes > 0 && lanes > 0
    ensures (length / bytes * lanes) / lanes * bytes == length / bytes * bytes <= length
    ensures length % bytes == 0 ==> length / bytes * bytes == length
  {
    Cancel(length / bytes, lanes);
  }

  lemma Cancel(a: nat, b: nat)
    requires b > 0
    ensures a * b / b == a
  {
    JoinDigits(a, b, 0);
  }

  lemma {:induction false} LoadAllAgree(types: Types, file: Bytes, es: seq<Entry>, seen: set<Bytes>)
    requires LoadAll(types, file, es, Streamed, seen).Some?
    ensures LoadAll(types, file, es, Mapped, seen) == LoadAll(types, file, es, Streamed, seen)
    decreases |es|
  {
    hide Load;
    if es != [] {
      LoadsAgree(types, file, es[0]);
      LoadAllAgree(types, file, es[1..], seen + {es[0].name});
    }
  }

  /** Whatever the stream reader reads from a file, written by this writer or not, the mapping reader reads too. */
  lemma ReadersAgree(types: Types, file: Bytes)
    requires Read(types, file, Streamed).Some?
    ensures Read(types, file, Mapped) == Read(types, file, Streamed)
  {
    hide ParseEntries, LoadAll, NumberAt;
    var size := NumberAt(file, 4, 8);
    ParseEntriesIn(file, HEADER_SIZE, HEADER_SIZE + size, 0, size);
    LoadAllAgree(types, file, Entries(file, Streamed).value, {});
  }

  // ---- reading back what was written -------------------------------------------------------------------------

  /** What the file format can hold of one parameter: whole blocks, and counts and lengths in range. */
  predicate ParamOk(types: Types, p: Param) {
    && |p.key| <= MAX_INT32 && p.count <= MAX_INT32 && p.dtype < Limit(4) && types.Knows(p.dtype)
    && p.count % types.lanes[p.dtype] == 0 && |p.data| == p.count / types.lanes[p.dtype] * types.bytes[p.dtype]
  }

  ghost predicate ParamsOk(types: Types, ps: seq<Param>) {
    && (forall i :: 0 <= i < |ps| ==> ParamOk(types, ps[i]))
    && (forall i, j :: 0 <= i < j < |ps| ==> ps[i].key != ps[j].key)
    && HEADER_SIZE + Announced(ps) + |DataOf(ps)| < Limit(8)
  }

  function ExpectedOf(p: Param): Loaded { Loaded(p.key, p.dtype, p.count, p.data) }

  function Expected(ps: seq<Param>): (ls: seq<Loaded>)
    ensures |ls| == |ps| && forall i :: 0 <= i < |ps| ==> ls[i] == ExpectedOf(ps[i])
  {
    seq(|ps|, i requires 0 <= i < |ps| => ExpectedOf(ps[i]))
  }

  predicate EntryOk(e: Entry) { |e.name| < Limit(4) && e.length < Limit(8) && e.offset < Limit(8) && e.dtype < Limit(4) }

  /** A descriptor written somewhere is parsed from there. */
  lemma EntryWritten(before: Bytes, e: Entry, after: Bytes)
    requires EntryOk(e)
    ensures ParseEntry(before + EntryBytes(e) + after, |before|) == Some((e, |before| + 24 + |e.name|))
  {
    var s := before + EntryBytes(e) + after;
    var n, l, o, t := ToBytes(|e.name|, 4), ToBytes(e.length, 8), ToBytes(e.offset, 8), ToBytes(e.dtype, 4);
    assert s == before + n + (e.name + l + o + t + after);
    NumberWritten(before, |e.name|, 4, e.name + l + o + t + after);
    assert s == (before + n + e.name) + l + (o + t + after);
    NumberWritten(before + n + e.name, e.length, 8, o + t + after);
    assert s == (before + n + e.name + l) + o + (t + after);
    NumberWritten(before + n + e.name + l, e.offset, 8, t + after);
    assert s == (before + n + e.name + l + o) + t + after;
    NumberWritten(before + n + e.name + l + o, e.dtype, 4, after);
    assert s[|before| + 4..|before| + 4 + |e.name|] == e.name;
  }

  lemma {:induction false} TableWritten(before: Bytes, es: seq<Entry>, after: Bytes)
    requires forall i :: 0 <= i < |es| ==> EntryOk(es[i])
    ensures ParseEntries(before + Table(es) + after, |before|, |before| + |Table(es)|) == Some(es)
    decreases |es|
  {
    hide ParseEntry, EntryOk, EntryBytes;
    if es != [] {
      var rest := Table(es[1..]);
      Regroup(before, EntryBytes(es[0]), rest, after);
      EntryWritten(before, es[0], rest + after);
      TableWritten(before + EntryBytes(es[0]), es[1..], after);
      assert [es[0]] + es[1..] == es;
    }
  }

  lemma Regroup(a: Bytes, b: Bytes, c: Bytes, d: Bytes)
    ensures a + (b + c) + d == a + b + (c + d)
    ensures a + (b + c) + d == (a + b) + c + d
  {
  }

  lemma DataWithin(ps: seq<Param>, i: nat)
    requires i < |ps|
    ensures |DataOf(ps[..i])| + |ps[i].data| <= |DataOf(ps)|
    ensures DataOf(ps)[|DataOf(ps[..i])|..|DataOf(ps[..i])| + |ps[i].data|] == ps[i].data
  {
    OneMore(ps, i);
    assert ps == ps[..i + 1] + ps[i + 1..];
    DataSplit(ps[..i + 1], ps[i + 1..]);
    hide DataOf;
  }

  lemma EntriesOk(types: Types, ps: seq<Param>, i: nat)
    requires ParamsOk(types, ps) && i < |ps|
    ensures EntryOk(EntriesOf(ps, HEADER_SIZE + Announced(ps))[i])
  {
    hide DataOf, Announced, EntriesOf;
    EntriesNext(ps, HEADER_SIZE + Announced(ps), i);
    DataWithin(ps, i);
    Limits();
    assert ParamOk(types, ps[i]);
  }

  lemma LoadBack(types: Types, file: Bytes, p: Param, offset: nat, mode: Mode)
    requires ParamOk(types, p) && offset + |p.data| <= |file| && file[offset..offset + |p.data|] == p.data
    ensures Load(types, file, Entry(p.key, |p.data|, offset, p.dtype), mode) == Some(ExpectedOf(p))
  {
    var bytes, lanes := types.bytes[p.dtype], types.lanes[p.dtype];
    Cancel(p.count / lanes, bytes);
    assert p.count == p.count / lanes * lanes;
    hide Limit;
  }

  lemma {:induction false} LoadAllBack(types: Types, file: Bytes, ps: seq<Param>, es: seq<Entry>, mode: Mode, seen: set<Bytes>)
    requires |es| == |ps| && forall i :: 0 <= i < |ps| ==> Load(types, file, es[i], mode) == Some(ExpectedOf(ps[i])) && es[i].name == ps[i].key
    requires forall i :: 0 <= i < |ps| ==> ps[i].key !in seen
    requires forall i, j :: 0 <= i < j < |ps| ==> ps[i].key != ps[j].key
    ensures LoadAll(types, file, es, mode, seen) == Some(Expected(ps))
    decreases |ps|
  {
    hide Load;
    if ps == [] {
      assert Expected(ps) == [];
    } else {
      LoadAllBack(types, file, ps[1..], es[1..], mode, seen + {es[0].name});
      assert [ExpectedOf(ps[0])] + Expected(ps[1..]) == Expected(ps);
    }
  }

  lemma HeaderWritten(size: nat, rest: Bytes)
    requires size < Limit(8)
    ensures var file := ToBytes(MAGIC, 4) + ToBytes(size, 8) + rest;
            |file| >= HEADER_SIZE && NumberAt(file, 0, 4) == MAGIC && NumberAt(file, 4, 8) == size
  {
    Limits();
    var file := ToBytes(MAGIC, 4) + ToBytes(size, 8) + rest;
    assert file == [] + ToBytes(MAGIC, 4) + (ToBytes(size, 8) + rest);
    NumberWritten([], MAGIC, 4, ToBytes(size, 8) + rest);
    NumberWritten(ToBytes(MAGIC, 4), size, 8, rest);
  }

  lemma TableInFile(types: Types, ps: seq<Param>, mode: Mode)
    requires ParamsOk(types, ps) && StorageSizes(ps) == KeySizes(ps)
    ensures var file, es := Written(ps), EntriesOf(ps, HEADER_SIZE + Announced(ps));
            |file| >= HEADER_SIZE && NumberAt(file, 0, 4) == MAGIC && Entries(file, mode) == Some(es)
  {
    hide Table, EntriesOf, DataOf, Announced, ParseEntries, EntryOk, ParamOk, NumberAt;
    var es := EntriesOf(ps, HEADER_SIZE + Announced(ps));
    SizesDecide(ps, HEADER_SIZE + Announced(ps));
    var head, table, data := ToBytes(MAGIC, 4) + ToBytes(Announced(ps), 8), Table(es), DataOf(ps);
    assert head + table + data == head + (table + data);
    HeaderWritten(Announced(ps), table + data);
    forall i | 0 <= i < |es| ensures EntryOk(es[i]) { EntriesOk(types, ps, i); }
    if mode.Mapped? {
      TableWritten(head, es, data);
    } else {
      TableWritten([], es, []);
      assert [] + table + [] == table;
      assert Written(ps)[HEADER_SIZE..HEADER_SIZE + |table|] == table;
    }
  }

  /**
    Reading a written file, mapped or streamed, recovers every name, type, element count and byte,
    whenever the storages' names are in all as long as the keys.
   */
  lemma RoundTrip(types: Types, ps: seq<Param>, mode: Mode)
    requires ParamsOk(types, ps) && StorageSizes(ps) == KeySizes(ps)
    ensures Read(types, Written(ps), mode) == Some(Expected(ps))
  {
    hide Table, EntriesOf, DataOf, Announced, ParseEntries, EntryOk, ParamOk, NumberAt, Load, Entries, LoadAll;
    TableInFile(types, ps, mode);
    var file, es := Written(ps), EntriesOf(ps, HEADER_SIZE + Announced(ps));
    forall i | 0 <= i < |ps| ensures Load(types, file, es[i], mode) == Some(ExpectedOf(ps[i])) && es[i].name == ps[i].key {
      EntriesNext(ps, HEADER_SIZE + Announced(ps), i);
      DataInFile(ps, i);
      LoadBack(types, file, ps[i], es[i].offset, mode);
    }
    LoadAllBack(types, file, ps, es, mode, {});
  }

  lemma DataInFile(ps: seq<Param>, i: nat)
    requires i < |ps| && StorageSizes(ps) == KeySizes(ps)
    ensures var file, at := Written(ps), HEADER_SIZE + Announced(ps) + |DataOf(ps[..i])|;
            at + |ps[i].data| <= |file| && file[at..at + |ps[i].data|] == ps[i].data
  {
    hide Table, EntriesOf, DataOf, Announced;
    SizesDecide(ps, HEADER_SIZE + Announced(ps));
    DataWithin(ps, i);
    var head := ToBytes(MAGIC, 4) + ToBytes(Announced(ps), 8) + Table(EntriesOf(ps, HEADER_SIZE + Announced(ps)));
    assert Written(ps) == head + DataOf(ps) && |head| == HEADER_SIZE + Announced(ps);
  }

  // ---- only then -------------------------------------------------------------------------------------------

  lemma {:induction false} LoadAllCounts(types: Types, file: Bytes, es: seq<Entry>, mode: Mode, seen: set<Bytes>)
    requires LoadAll(types, file, es, mode, seen).Some?
    ensures |LoadAll(types, file, es, mode, seen).value| == |es|
    decreases |es|
  {
    hide Load;
    if es != [] { LoadAllCounts(types, file, es[1..], mode, seen + {es[0].name}); }
  }

  /** A piece of the file from which exactly the written descriptors are parsed ends where they end. */
  lemma {:induction false} PieceIsTable(before: Bytes, ds: seq<Entry>, after: Bytes, a: nat, b: nat, pos: nat)
    requires forall i :: 0 <= i < |ds| ==> EntryOk(ds[i])
    requires a + pos == |before| <= b <= |before + Table(ds) + after|
    requires var es := ParseEntries((before + Table(ds) + after)[a..b], pos, b - a); es.Some? && |es.value| == |ds|
    ensures |before| + |Table(ds)| == b
    decreases |ds|
  {
    hide ParseEntry, EntryOk, EntryBytes;
    var file := before + Table(ds) + after;
    var piece := file[a..b];
    if ds != [] {
      var rest := Table(ds[1..]);
      Regroup(before, EntryBytes(ds[0]), rest, after);
      EntryWritten(before, ds[0], rest + after);
      ParseEntryIn(file, a, b, pos);
      ParsedInside(piece, pos);
      PieceIsTable(before + EntryBytes(ds[0]), ds[1..], after, a, b, pos + 24 + |ds[0].name|);
    }
  }

  lemma ParsedInside(s: Bytes, pos: nat)
    requires ParseEntry(s, pos).Some?
    ensures ParseEntry(s, pos).value.1 <= |s|
  {
  }

  /** If as many parameters come back through the stream as were written, the announced size was right. */
  lemma CountDecides(types: Types, ps: seq<Param>)
    requires ParamsOk(types, ps) && Read(types, Written(ps), Streamed).Some?
    requires |Read(types, Written(ps), Streamed).value| == |ps|
    ensures StorageSizes(ps) == KeySizes(ps)
  {
    hide Table, EntriesOf, DataOf, Announced, ParseEntries, EntryOk, ParamOk, NumberAt, LoadAll;
    var ds := EntriesOf(ps, HEADER_SIZE + Announced(ps));
    SizesDecide(ps, HEADER_SIZE + Announced(ps));
    var head, table, data := ToBytes(MAGIC, 4) + ToBytes(Announced(ps), 8), Table(ds), DataOf(ps);
    assert head + table + data == head + (table + data);
    HeaderWritten(Announced(ps), table + data);
    forall i | 0 <= i < |ds| ensures EntryOk(ds[i]) { EntriesOk(types, ps, i); }
    var file := Written(ps);
    LoadAllCounts(types, file, Entries(file, Streamed).value, Streamed, {});
    PieceIsTable(head, ds, data, HEADER_SIZE, HEADER_SIZE + Announced(ps), 0);
  }

  /** Through the stream, a written file is read back exactly when the storages' names are in all as long as the keys. */
  lemma RoundTripIsExact(types: Types, ps: seq<Param>)
    requires ParamsOk(types, ps)
    ensures Read(types, Written(ps), Streamed) == Some(Expected(ps)) <==> StorageSizes(ps) == KeySizes(ps)
  {
    hide Read, Written, ParamsOk, StorageSizes, KeySizes, Expected;
    if StorageSizes(ps) == KeySizes(ps) {
      RoundTrip(types, ps, Streamed);
    } else if Read(types, Written(ps), Streamed) == Some(Expected(ps)) {
      CountDecides(types, ps);
    }
  }
}
