/**
  The benchmark runner over its two pools: request rows and cache slots.  A setting that passes the
  capacity check never runs out of cache slots, and at every step all mapped slots are different.
 */
module BenchRunner {
  import opened Distinct
  import opened OrderedMap
  import opened Positions

  function Upto(from: nat, n: nat): (s: seq<nat>)
    ensures |s| == n && forall i :: 0 <= i < n ==> s[i] == from + i
  {
    seq(n, i requires 0 <= i < n => from + i)
  }

  lemma UptoTake(a: seq<nat>, b: seq<nat>, from: nat, n: nat)
    requires a + b == Upto(from, n)
    ensures a == Upto(from, |a|)
  {
    forall i | 0 <= i < |a| ensures a[i] == from + i { assert a[i] == (a + b)[i]; }
  }

  lemma UptoDrop(from: nat, n: nat, k: nat)
    requires k <= n
    ensures Upto(from, n)[k..] == Upto(from + k, n - k)
  {
  }

  predicate Within(s: seq<nat>, lo: nat, hi: nat) { forall i :: 0 <= i < |s| ==> lo <= s[i] < hi }

  lemma WithinMember(a: seq<nat>, lo: nat, hi: nat)
    requires Within(a, lo, hi)
    ensures forall x :: x in a ==> lo <= x < hi
  {
  }

  lemma WithinSame(a: seq<nat>, b: seq<nat>, lo: nat, hi: nat)
    requires Within(a, lo, hi) && forall x :: x in b ==> x in a
    ensures Within(b, lo, hi)
  {
    forall i | 0 <= i < |b| ensures lo <= b[i] < hi {
      assert b[i] in a;
      var j :| 0 <= j < |a| && a[j] == b[i];
    }
  }

  datatype Option<T> = None | Some(value: T)

  /** Cache slots `1` to `size`, with pages of one slot: those free, and those released and not yet merged back. */
  class KvAllocator {
    const size: nat
    var freeSlots: seq<nat>
    var releaseSlots: seq<nat>

    ghost predicate Valid()
      reads this
    {
      NoRepeats(Slots()) && Within(Slots(), 1, size + 1)
    }

    /** The slots that are not handed out. */
    ghost function Slots(): seq<nat>
      reads this
    {
      freeSlots + releaseSlots
    }

    constructor (size: nat)
      ensures Valid() && this.size == size && Slots() == Upto(1, size)
    {
      this.size := size;
      freeSlots, releaseSlots := Upto(1, size), [];
    }

    method Clear()
      modifies this
      ensures Valid() && freeSlots == Upto(1, size) && releaseSlots == []
    {
      freeSlots, releaseSlots := Upto(1, size), [];
    }

    /** Merge released slots back, sorted. */
    method MergeAndSortFree()
      requires Valid()
      modifies this
      ensures Valid() && releaseSlots == [] && |Slots()| == |old(Slots())| && Elements(Slots()) == Elements(old(Slots()))
      ensures if old(releaseSlots) == [] then freeSlots == old(freeSlots) else forall i, j :: 0 <= i < j < |freeSlots| ==> freeSlots[i] < freeSlots[j]
    {
      ghost var all := Slots();
      if |releaseSlots| == 0 { return; }
      var kept := set x | x in freeSlots + releaseSlots && 0 < x <= size;
      freeSlots := SortedKeys(kept);
      releaseSlots := [];
      assert Slots() == freeSlots;
      Increasing(freeSlots);
      assert forall x :: x in freeSlots <==> x in all by { WithinMember(all, 1, size + 1); }
      WithinSame(all, freeSlots, 1, size + 1);
      SameCount(all, freeSlots);
    }

    /** `n` slots, or nothing when the pool has fewer; the first free ones as long as these suffice. */
    method Alloc(n: nat) returns (out: Option<seq<nat>>)
      requires Valid()
      modifies this
      ensures Valid() && (out.Some? <==> n <= |old(Slots())|)
      ensures out.None? ==> |Slots()| == |old(Slots())|
      ensures out.Some? ==>
                && |out.value| == n && |Slots()| == |old(Slots())| - n
                && NoRepeats(out.value) && Within(out.value, 1, size + 1)
                && (forall x :: x in out.value ==> x in old(Slots()) && x !in Slots())
                && (forall x :: x in Slots() ==> x in old(Slots()))
      ensures n <= |old(freeSlots)| ==> out.Some? && out.value + freeSlots == old(freeSlots) && releaseSlots == old(releaseSlots)
      ensures n > |old(freeSlots)| ==> releaseSlots == []
    {
      if n > |freeSlots| { MergeAndSortFree(); }
      if n > |freeSlots| { return None; }
      var taken := freeSlots[..n];
      ghost var rest := freeSlots[n..] + releaseSlots;
      ghost var all := Slots();
      assert all == taken + rest;
      assert forall x :: x in all <==> x in old(Slots()) by { assert Elements(all) == Elements(old(Slots())); }
      TakeDifferent(taken, rest);
      assert Within(all, 1, size + 1);
      WithinSame(all, rest, 1, size + 1);
      WithinSame(all, taken, 1, size + 1);
      freeSlots := freeSlots[n..];
      assert Slots() == rest;
      out := Some(taken);
    }
  }

  lemma Increasing(s: seq<nat>)
    requires forall i, j :: 0 <= i < j < |s| ==> s[i] < s[j]
    ensures NoRepeats(s)
  {
  }

  /** Rows for requests, and for each row the cache slot of every position. */
  class ReqToTokenPool {
    const size: nat
    const maxContext: nat
    const table: array2<nat>
    var freeRows: seq<nat>

    ghost predicate Valid()
      reads this
    {
      && table.Length0 == size && table.Length1 == maxContext
      && NoRepeats(freeRows) && Within(freeRows, 0, size)
    }

    constructor (size: nat, maxContext: nat)
      ensures Valid() && this.size == size && this.maxContext == maxContext && fresh(table) && freeRows == Upto(0, size)
    {
      this.size, this.maxContext := size, maxContext;
      table := new nat[size, maxContext];
      freeRows := Upto(0, size);
    }

    method Clear()
      requires Valid()
      modifies this, table
      ensures Valid() && freeRows == Upto(0, size)
    {
      freeRows := Upto(0, size);
      forall i, j | 0 <= i < size && 0 <= j < maxContext { table[i, j] := 0; }
    }

    method Alloc(n: nat) returns (out: Option<seq<nat>>)
      requires Valid()
      modifies this
      ensures Valid() && (out.Some? <==> n <= |old(freeRows)|)
      ensures out.None? ==> freeRows == old(freeRows)
      ensures out.Some? ==> |out.value| == n && NoRepeats(out.value) && Within(out.value, 0, size)
      ensures out.Some? ==> out.value + freeRows == old(freeRows)
    {
      if n > |freeRows| { return None; }
      assert freeRows == freeRows[..n] + freeRows[n..];
      TakeDifferent(freeRows[..n], freeRows[n..]);
      out := Some(freeRows[..n]);
      freeRows := freeRows[n..];
    }

    method Free(row: nat)
      requires Valid() && row < size && row !in freeRows
      modifies this
      ensures Valid() && freeRows == old(freeRows) + [row]
    {
      freeRows := freeRows + [row];
    }

    /** Write the slots of a row's first positions; not `ok` when they do not fit, which raises. */
    method WriteRow(row: nat, values: seq<nat>) returns (ok: bool)
      requires Valid() && row < size
      modifies table
      ensures ok == (|values| <= maxContext)
      ensures ok ==> forall i: nat, j: nat :: i < size && j < maxContext ==> table[i, j] == if i == row && j < |values| then values[j] else old(table[i, j])
    {
      ok := |values| <= maxContext;
      if ok {
        forall j | 0 <= j < |values| { table[row, j] := values[j]; }
      }
    }

    /** Write one position of each given row; not `ok` when there is no such position, which raises. */
    method WriteColumn(rows: seq<nat>, position: nat, values: seq<nat>) returns (ok: bool)
      requires Valid() && |values| == |rows| && NoRepeats(rows) && Within(rows, 0, size)
      modifies table
      ensures ok == (position < maxContext || rows == [])
      ensures ok ==> forall k: nat :: k < |rows| ==> position < maxContext && table[rows[k], position] == values[k]
      ensures ok ==> forall i: nat, j: nat :: i < size && j < maxContext && !(j == position && i in rows) ==> table[i, j] == old(table[i, j])
    {
      ok := position < maxContext || rows == [];
      if ok {
        for k := 0 to |rows|
          invariant forall m: nat :: m < k ==> table[rows[m], position] == values[m]
          invariant forall i: nat, j: nat :: i < size && j < maxContext && !(j == position && i in rows) ==> table[i, j] == old(table[i, j])
        {
          table[rows[k], position] := values[k];
        }
      }
    }
  }

  datatype Outcome = Skipped | NoRows | NoSlots | TooLong | Done(len: nat)

  /** The largest batch the runner tries: the whole pool divided by the tokens of one request. */
  function MaxBatchSize(total: nat, inputLen: nat, outputLen: nat): nat {
    if inputLen + outputLen <= 0 then 0 else total / (inputLen + outputLen)
  }

  function DecodeSteps(outputLen: nat): nat { if outputLen <= 1 then 0 else outputLen - 1 }

  /** Exactly when the pool has a slot for every token a setting maps. */
  predicate EnoughSlots(size: nat, batch: nat, inputLen: nat, outputLen: nat) {
    Times(batch, inputLen + DecodeSteps(outputLen)) <= size
  }

  /** The check asks room for all prompt and output tokens: also for the last output token, which is never mapped. */
  lemma CheckMeans(total: nat, batch: nat, inputLen: nat, outputLen: nat)
    ensures batch <= MaxBatchSize(total, inputLen, outputLen)
       <==> if inputLen + outputLen == 0 then batch == 0 else Times(batch, inputLen + outputLen) <= total
  {
    var d := inputLen + outputLen;
    if d > 0 {
      assert total == (total / d) * d + total % d;
      if batch <= total / d { MulLe(batch, total / d, d); }
      if total / d < batch { MulLe(total / d + 1, batch, d); }
    }
  }

  lemma CheckSuffices(total: nat, batch: nat, inputLen: nat, outputLen: nat)
    requires batch <= MaxBatchSize(total, inputLen, outputLen)
    ensures EnoughSlots(total, batch, inputLen, outputLen)
  {
    CheckMeans(total, batch, inputLen, outputLen);
    MulLe(inputLen + DecodeSteps(outputLen), inputLen + outputLen, batch);
  }

  /** Which settings the check turns away although they would fit: those short of room for the last output tokens only. */
  lemma CheckIsStricter(total: nat, batch: nat, inputLen: nat, outputLen: nat)
    requires outputLen > 0
    ensures EnoughSlots(total, batch, inputLen, outputLen) && batch > MaxBatchSize(total, inputLen, outputLen)
       <==> Times(batch, inputLen + outputLen) - batch <= total < Times(batch, inputLen + outputLen)
  {
    CheckMeans(total, batch, inputLen, outputLen);
    OneMore(batch, inputLen + DecodeSteps(outputLen));
  }

  /** The cache slot of position `i` of request `a`, in a run that starts on fresh pools. */
  function SlotAt(batch: nat, inputLen: nat, a: nat, i: nat): nat {
    if i < inputLen then 1 + a * inputLen + i else 1 + i * batch + a
  }

  lemma SlotNext(batch: nat, inputLen: nat, a: nat, len: nat)
    requires inputLen <= len && a < batch
    ensures SlotAt(batch, inputLen, a, len) == 1 + Times(batch, len) + a
  {
  }

  class Runner {
    const rows: ReqToTokenPool
    const kv: KvAllocator

    constructor (rows: ReqToTokenPool, kv: KvAllocator)
      ensures this.rows == rows && this.kv == kv
    {
      this.rows, this.kv := rows, kv;
    }

    ghost predicate Valid()
      reads rows, kv
    {
      rows.Valid() && kv.Valid()
    }

    /** All positions of all requests hold cache slots; no slot is held twice, and none is free. */
    ghost predicate Mapped(reqs: seq<nat>, len: nat)
      requires Valid()
      reads rows, rows.table, kv
    {
      && NoRepeats(reqs) && Within(reqs, 0, rows.size) && (reqs == [] || len <= rows.maxContext)
      && (forall a: nat, i: nat :: a < |reqs| && i < len ==>
            && 1 <= rows.table[reqs[a], i] <= kv.size
            && rows.table[reqs[a], i] !in kv.Slots())
      && (forall a: nat, b: nat, i: nat, j: nat :: a < |reqs| && b < |reqs| && i < len && j < len && (a != b || i != j) ==>
            rows.table[reqs[a], i] != rows.table[reqs[b], j])
    }

    method Clear()
      requires Valid()
      modifies rows, rows.table, kv
      ensures Valid() && kv.freeSlots == Upto(1, kv.size) && kv.releaseSlots == [] && rows.freeRows == Upto(0, rows.size)
    {
      rows.Clear();
      kv.Clear();
    }

    /** Prefill: a row for each request, and a slot for each of its `len` positions. */
    method Extend(batch: nat, len: nat) returns (r: Outcome, reqs: seq<nat>)
      requires Valid()
      modifies rows, rows.table, kv
      ensures Valid()
      ensures r == if batch > |old(rows.freeRows)| then NoRows
                   else if Times(batch, len) > |old(kv.Slots())| then NoSlots
                   else if batch > 0 && len > rows.maxContext then TooLong
                   else Done(len)
      ensures r.NoSlots? ==> |rows.freeRows| == |old(rows.freeRows)| && Elements(rows.freeRows) == Elements(old(rows.freeRows))
      ensures r.Done? ==> |reqs| == batch && Mapped(reqs, len) && |kv.Slots()| == |old(kv.Slots())| - Times(batch, len)
      ensures r.Done? ==> reqs + rows.freeRows == old(rows.freeRows)
      ensures r.Done? && Times(batch, len) <= |old(kv.freeSlots)| ==>
                kv.freeSlots == old(kv.freeSlots)[Times(batch, len)..] && Filled(reqs, |reqs|, len, old(kv.freeSlots))
    {
      hide Times, Join;
      var slots := rows.Alloc(batch);
      if slots.None? { return NoRows, []; }
      reqs := slots.value;
      var loc := kv.Alloc(Times(batch, len));
      if loc.None? {
        TakeDifferent(reqs, rows.freeRows);
        GiveBack(reqs);
        return NoSlots, reqs;
      }
      var out := loc.value;
      var k := 0;
      while k < |reqs|
        modifies rows.table
        invariant k <= |reqs| && Valid()
        invariant k > 0 ==> len <= rows.maxContext
        invariant Filled(reqs, k, len, out)
      {
        Piece(k, batch, len);
        assert forall a: nat :: a < k ==> reqs[a] != reqs[k];
        var ok := rows.WriteRow(reqs[k], out[Join(k, len, 0)..Join(k, len, len)]);
        if !ok { return TooLong, reqs; }
        k := k + 1;
      }
      FilledIsMapped(reqs, len, out);
      r := Done(len);
    }

    /** Row by row, the first `k` requests hold consecutive pieces of the slots. */
    ghost predicate Filled(reqs: seq<nat>, k: nat, len: nat, out: seq<nat>)
      requires Valid() && k <= |reqs| && Within(reqs, 0, rows.size) && (k == 0 || len <= rows.maxContext)
      reads rows, rows.table, kv
    {
      forall a: nat, i: nat :: a < k && i < len ==>
        Join(a, len, i) < |out| && rows.table[reqs[a], i] == out[Join(a, len, i)]
    }

    lemma FilledIsMapped(reqs: seq<nat>, len: nat, out: seq<nat>)
      requires Valid() && NoRepeats(reqs) && Within(reqs, 0, rows.size) && (reqs == [] || len <= rows.maxContext)
      requires Filled(reqs, |reqs|, len, out)
      requires NoRepeats(out) && Within(out, 1, kv.size + 1) && forall x :: x in out ==> x !in kv.Slots()
      ensures Mapped(reqs, len)
    {
      hide Join, Rest, Last;
      forall a: nat, b: nat, i: nat, j: nat | a < |reqs| && b < |reqs| && i < len && j < len && (a != b || i != j)
        ensures rows.table[reqs[a], i] != rows.table[reqs[b], j]
      {
        JoinDigits(a, len, i);
        JoinDigits(b, len, j);
      }
    }

    method GiveBack(reqs: seq<nat>)
      requires Valid() && NoRepeats(reqs) && Within(reqs, 0, rows.size) && forall x :: x in reqs ==> x !in rows.freeRows
      modifies rows
      ensures Valid() && rows.freeRows == old(rows.freeRows) + reqs
    {
      for k := 0 to |reqs|
        invariant Valid() && rows.freeRows == old(rows.freeRows) + reqs[..k]
      {
        assert reqs[k] !in reqs[..k];
        assert reqs[..k + 1] == reqs[..k] + [reqs[k]];
        rows.Free(reqs[k]);
      }
    }

    /** One decode step: a slot for the next position of each request. */
    method Decode(reqs: seq<nat>, len: nat) returns (r: Outcome)
      requires Valid() && Mapped(reqs, len)
      modifies rows.table, kv
      ensures Valid()
      ensures r == if |reqs| > |old(kv.Slots())| then NoSlots
                   else if reqs != [] && len >= rows.maxContext then TooLong
                   else Done(len + 1)
      ensures r.Done? ==> Mapped(reqs, len + 1) && |kv.Slots()| == |old(kv.Slots())| - |reqs|
      ensures r.Done? ==> forall a: nat, i: nat :: a < |reqs| && i < len ==> rows.table[reqs[a], i] == old(rows.table[reqs[a], i])
      ensures r.Done? && |reqs| <= |old(kv.freeSlots)| ==>
                && kv.freeSlots == old(kv.freeSlots)[|reqs|..]
                && forall a: nat :: a < |reqs| ==> rows.table[reqs[a], len] == old(kv.freeSlots)[a]
    {
      var loc := kv.Alloc(|reqs|);
      if loc.None? { return NoSlots; }
      var ok := rows.WriteColumn(reqs, len, loc.value);
      if !ok { return TooLong; }
      r := Done(len + 1);
    }

    /**
      A run on fresh pools, up to `len` positions: request `a` has row `a`, the prompt's positions hold the
      first slots request by request, and each later position the next slots, one for each request.
     */
    ghost predicate Slotted(reqs: seq<nat>, batch: nat, inputLen: nat, len: nat)
      requires Valid() && batch <= rows.size && (batch == 0 || len <= rows.maxContext)
      reads rows, rows.table, kv
    {
      && reqs == Upto(0, batch) && Times(batch, len) <= kv.size && kv.freeSlots == Upto(1 + Times(batch, len), kv.size - Times(batch, len))
      && forall a: nat, i: nat :: a < batch && i < len ==> rows.table[a, i] == SlotAt(batch, inputLen, a, i)
    }

    /** The same step in a run on fresh pools. */
    method DecodeNext(reqs: seq<nat>, len: nat, ghost inputLen: nat) returns (r: Outcome)
      requires Valid() && Mapped(reqs, len) && |reqs| <= rows.size && inputLen <= len
      modifies rows.table, kv
      ensures Valid()
      ensures r == if |reqs| > |old(kv.Slots())| then NoSlots
                   else if reqs != [] && len >= rows.maxContext then TooLong
                   else Done(len + 1)
      ensures r.Done? ==> Mapped(reqs, len + 1) && |kv.Slots()| == |old(kv.Slots())| - |reqs|
      ensures r.Done? && old(Slotted(reqs, |reqs|, inputLen, len)) && Times(|reqs|, len + 1) <= kv.size ==> Slotted(reqs, |reqs|, inputLen, len + 1)
    {
      hide Times, Mapped, SlotAt, Upto;
      ghost var batch, slots := |reqs|, kv.freeSlots;
      r := Decode(reqs, len);
      OneMore(batch, len);
      if r.Done? && old(Slotted(reqs, batch, inputLen, len)) && Times(batch, len + 1) <= kv.size {
        UptoDrop(1 + Times(batch, len), kv.size - Times(batch, len), batch);
        forall a: nat, i: nat | a < batch && i < len + 1 ensures rows.table[a, i] == SlotAt(batch, inputLen, a, i) {
          assert reqs[a] == a;
          if i == len { SlotNext(batch, inputLen, a, len); }
        }
      }
    }

    /** Prefill and decode on empty pools; with enough rows and positions it fails exactly when the slots do not suffice. */
    method Generate(batch: nat, inputLen: nat, outputLen: nat) returns (r: Outcome, reqs: seq<nat>)
      requires Valid() && |kv.Slots()| == kv.size && |rows.freeRows| == rows.size
      modifies rows, rows.table, kv
      ensures Valid() && !r.Skipped? && (r.NoRows? <==> batch > rows.size)
      ensures batch <= rows.size && (batch == 0 || inputLen + DecodeSteps(outputLen) <= rows.maxContext) ==>
                r == if EnoughSlots(kv.size, batch, inputLen, outputLen) then Done(inputLen + DecodeSteps(outputLen)) else NoSlots
      ensures batch <= rows.size && EnoughSlots(kv.size, batch, inputLen, outputLen) ==>
                (r.TooLong? <==> batch > 0 && inputLen + DecodeSteps(outputLen) > rows.maxContext) && !r.NoSlots?
      ensures r.Done? ==> |reqs| == batch && Mapped(reqs, r.len) && |kv.Slots()| == kv.size - Times(batch, r.len)
      ensures r.Done? && batch <= rows.size && old(kv.freeSlots) == Upto(1, kv.size) && old(rows.freeRows) == Upto(0, rows.size) ==>
                Slotted(reqs, batch, inputLen, r.len)
    {
      hide Times, Slotted, SlotAt, Filled;
      ghost var cleared := kv.freeSlots == Upto(1, kv.size) && rows.freeRows == Upto(0, rows.size);
      var steps := DecodeSteps(outputLen);
      TimesAtMost(batch, inputLen, inputLen + steps);
      r, reqs := Extend(batch, inputLen);
      if !r.Done? { return; }
      if cleared { ExtendedSlots(reqs, batch, inputLen); }
      var step := 0;
      while step < steps
        invariant step <= steps && r == Done(inputLen + step) && |reqs| == batch && batch <= rows.size
        invariant Valid() && Mapped(reqs, r.len) && |kv.Slots()| == kv.size - Times(batch, r.len)
        invariant cleared ==> Slotted(reqs, batch, inputLen, r.len)
      {
        OneMore(batch, r.len);
        TimesAtMost(batch, r.len + 1, inputLen + steps);
        r := DecodeNext(reqs, r.len, inputLen);
        if !r.Done? { return; }
        step := step + 1;
      }
    }

    lemma ExtendedSlots(reqs: seq<nat>, batch: nat, inputLen: nat)
      requires Valid() && |reqs| == batch && batch <= rows.size && (batch == 0 || inputLen <= rows.maxContext) && Times(batch, inputLen) <= kv.size
      requires Within(reqs, 0, rows.size) && reqs + rows.freeRows == Upto(0, rows.size)
      requires kv.freeSlots == Upto(1, kv.size)[Times(batch, inputLen)..] && Filled(reqs, batch, inputLen, Upto(1, kv.size))
      ensures Slotted(reqs, batch, inputLen, inputLen)
    {
      hide Upto, Times;
      UptoTake(reqs, rows.freeRows, 0, rows.size);
      UptoDrop(1, kv.size, Times(batch, inputLen));
      forall a: nat, i: nat | a < batch && i < inputLen ensures rows.table[a, i] == SlotAt(batch, inputLen, a, i) {
        assert reqs[a] == a;
      }
    }

    /** One setting: it is skipped, or it never runs out of slots. */
    method RunSingleSetting(batch: nat, inputLen: nat, outputLen: nat) returns (r: Outcome, reqs: seq<nat>)
      requires Valid()
      modifies rows, rows.table, kv
      ensures Valid()
      ensures r == if batch > MaxBatchSize(kv.size, inputLen, outputLen) then Skipped
                   else if batch > rows.size then NoRows
                   else if batch > 0 && inputLen + DecodeSteps(outputLen) > rows.maxContext then TooLong
                   else Done(inputLen + DecodeSteps(outputLen))
      ensures r.Done? ==> |reqs| == batch && Mapped(reqs, r.len) && Slotted(reqs, batch, inputLen, r.len)
    {
      Clear();
      if batch > MaxBatchSize(kv.size, inputLen, outputLen) { return Skipped, []; }
      CheckSuffices(kv.size, batch, inputLen, outputLen);
      r, reqs := Generate(batch, inputLen, outputLen);
    }
  }

  lemma OneMore(batch: nat, len: nat)
    ensures Times(batch, len + 1) == Times(batch, len) + batch
  {
  }

  lemma TimesAtMost(batch: nat, a: nat, b: nat)
    requires a <= b
    ensures Times(batch, a) <= Times(batch, b)
  {
    MulLe(a, b, batch);
  }

  lemma Piece(k: nat, batch: nat, len: nat)
    requires k < batch
    ensures Join(k, len, 0) + len == Join(k, len, len) <= Times(batch, len)
    ensures forall i: nat :: i < len ==> Join(k, len, i) == Join(k, len, 0) + i
  {
    MulLe(k + 1, batch, len);
  }
}
