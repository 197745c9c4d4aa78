/** Both caches driven side by side: whatever the calls, they agree on every position visited. */
module KvPair {
  import opened Distinct
  import opened KvRows
  import opened HkvCache
  import opened HkvReorder

  /** One call, with the new rows in the layouts that the two caches take. */
  datatype Call<T> = Append(n: nat, rows: Rows<T>) | Insert(pos: seq<nat>, rows: Rows<T>)

  datatype Rows<T> = Rows(keys: seq<T>, values: seq<T>, plainKeys: seq<T>, plainValues: seq<T>)

  ghost predicate RowsOk<T>(d: Dims, r: Rows<T>, n: nat) {
    && HeadInput(d, r.keys, n) && HeadInput(d, r.values, n) && PositionInput(d, r.plainKeys, n) && PositionInput(d, r.plainValues, n)
    && SameInput(d, r.keys, r.plainKeys, n) && SameInput(d, r.values, r.plainValues, n)
  }

  /** The calls fit a cache in which `count` positions are counted. */
  ghost predicate CallsOk<T>(d: Dims, calls: seq<Call<T>>, count: nat)
    decreases |calls|
  {
    calls != [] ==>
      match calls[0]
      case Append(n, rows) => RowsOk(d, rows, n) && count + n <= d.length && CallsOk(d, calls[1..], count + n)
      case Insert(pos, rows) => RowsOk(d, rows, |pos|) && PositionsOk(d, pos) && CallsOk(d, calls[1..], count)
  }

  /** The positions that a run of calls visits, from `count` counted ones on. */
  function VisitedBy<T>(calls: seq<Call<T>>, count: nat): seq<nat>
    decreases |calls|
  {
    if calls == [] then []
    else
      match calls[0]
      case Append(n, _) => Range(count, n) + VisitedBy(calls[1..], count + n)
      case Insert(pos, _) => pos + VisitedBy(calls[1..], count)
  }

  class Pair<T> {
    const h: HKVCache<T>
    const f: HKVCacheFast<T>

    constructor (h: HKVCache<T>, f: HKVCacheFast<T>)
      requires h.Valid() && f.Valid() && h.d == f.d && {h.k, h.v} !! {f.k, f.v} && h.visited == []
      ensures Valid() && this.h == h && this.f == f
    {
      this.h, this.f := h, f;
      AgreeNowhere(h.d, h.k[..], f.k[..]);
      AgreeNowhere(h.d, h.v[..], f.v[..]);
      assert Elements(h.visited) == {};
    }

    /** Every query head of the one holds, at every visited position, the row of its key head in the other. */
    ghost predicate Valid()
      reads h, h.k, h.v, f.k, f.v
    {
      && h.Valid() && f.Valid() && h.d == f.d && {h.k, h.v} !! {f.k, f.v}
      && Agree(h.d, h.k[..], f.k[..], Elements(h.visited)) && Agree(h.d, h.v[..], f.v[..], Elements(h.visited))
    }

    method AppendBoth(n: nat, r: Rows<T>)
      requires Valid() && RowsOk(h.d, r, n) && h.count + n <= h.d.length
      modifies h, h.k, h.v, f.k, f.v
      ensures Valid() && h.count == old(h.count) + n && h.visited == old(h.visited) + Range(old(h.count), n)
    {
      hide Agree, WrittenRepeated, WrittenPlain, SameInput, HeadInput, PositionInput, RepeatedOk, PlainOk;
      ghost var d, ks, vs, pks, pvs, w := h.d, h.k[..], h.v[..], f.k[..], f.v[..], Elements(h.visited);
      var pos := Range(h.count, n);
      RangeOk(d, h.count, n);
      h.Append(n, r.keys, r.values);
      var ok := f.Update(n, r.plainKeys, r.plainValues, pos);
      AgreeStep(d, ks, h.k[..], pks, f.k[..], r.keys, r.plainKeys, pos, w);
      AgreeStep(d, vs, h.v[..], pvs, f.v[..], r.values, r.plainValues, pos, w);
      assert Elements(h.visited) == w + Elements(pos);
    }

    method InsertBoth(pos: seq<nat>, r: Rows<T>)
      requires Valid() && RowsOk(h.d, r, |pos|) && PositionsOk(h.d, pos)
      modifies h, h.k, h.v, f.k, f.v
      ensures Valid() && h.count == old(h.count) && h.visited == old(h.visited) + pos
    {
      hide Agree, WrittenRepeated, WrittenPlain, SameInput, HeadInput, PositionInput, RepeatedOk, PlainOk;
      ghost var d, ks, vs, pks, pvs, w := h.d, h.k[..], h.v[..], f.k[..], f.v[..], Elements(h.visited);
      var ok := h.Insert(|pos|, r.keys, r.values, pos);
      ok := f.Update(|pos|, r.plainKeys, r.plainValues, pos);
      AgreeStep(d, ks, h.k[..], pks, f.k[..], r.keys, r.plainKeys, pos, w);
      AgreeStep(d, vs, h.v[..], pvs, f.v[..], r.values, r.plainValues, pos, w);
      assert Elements(h.visited) == w + Elements(pos);
    }

    /** Any run of calls. */
    method Drive(calls: seq<Call<T>>)
      requires Valid() && CallsOk(h.d, calls, h.count)
      modifies h, h.k, h.v, f.k, f.v
      ensures Valid() && h.visited == old(h.visited) + VisitedBy(calls, old(h.count))
    {
      hide RowsOk, PositionsOk;
      var rest := calls;
      while rest != []
        invariant Valid() && CallsOk(h.d, rest, h.count)
        invariant h.visited + VisitedBy(rest, h.count) == old(h.visited) + VisitedBy(calls, old(h.count))
        decreases |rest|
      {
        match rest[0] {
          case Append(n, rows) => AppendBoth(n, rows);
          case Insert(pos, rows) => InsertBoth(pos, rows);
        }
        rest := rest[1..];
      }
    }
  }

  lemma RangeOk(d: Dims, from: nat, n: nat)
    requires from + n <= d.length
    ensures PositionsOk(d, Range(from, n)) && |Range(from, n)| == n
  {
  }
}
