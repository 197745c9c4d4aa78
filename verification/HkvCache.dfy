/**
  One layer of the two key and value caches, as objects that copy blocks into flat memory: the cache
  that repeats every key head for its query heads, and the plain one.
 */
module HkvCache {
  import opened Positions
  import opened Tensors
  import opened KvRows

  // ---- one row -------------------------------------------------------------------------------------------

  /** `t` is `s` with the row of query head `q` at position `p` replaced. */
  ghost predicate RowReplaced<T>(d: Dims, s: seq<T>, t: seq<T>, q: nat, p: nat, row: seq<T>)
    requires RepeatedOk(d, s) && q < d.qHeads && p < d.length
  {
    RepeatedOk(d, t) &&
    forall x: nat, y: nat :: x < d.qHeads && y < d.length ==>
      RepeatedRow(d, t, x, y) == if x == q && y == p then row else RepeatedRow(d, s, x, y)
  }

  lemma SameOffset(d: Dims, q: nat, p: nat, x: nat, y: nat)
    requires p < d.length && y < d.length && HeadMajor(d, q, p) == HeadMajor(d, x, y)
    ensures q == x && p == y
  {
    JoinDigits(q, d.length, p);
    JoinDigits(x, d.length, y);
  }

  lemma ReplaceRow<T>(d: Dims, s: seq<T>, t: seq<T>, q: nat, p: nat, row: seq<T>)
    requires RepeatedOk(d, s) && q < d.qHeads && p < d.length && |row| == d.dim
    requires var at := Times(HeadMajor(d, q, p), d.dim);
             at + |row| <= |s| && t == s[..at] + row + s[at + |row|..]
    ensures RowReplaced(d, s, t, q, p, row)
  {
    JoinBelow(q, d.qHeads, d.length, p);
    OneRowIs(row, d.dim);
    hide HeadMajor, Times, RowAt;
    forall x: nat, y: nat | x < d.qHeads && y < d.length
      ensures |t| == |s| && RepeatedRow(d, t, x, y) == if x == q && y == p then row else RepeatedRow(d, s, x, y)
    {
      JoinBelow(x, d.qHeads, d.length, y);
      CopyRows(s, d.dim, Times(d.qHeads, d.length), HeadMajor(d, q, p), 1, row, t, HeadMajor(d, x, y));
      if HeadMajor(d, q, p) == HeadMajor(d, x, y) { SameOffset(d, q, p, x, y); }
    }
  }

  lemma OneRowIs<T>(row: seq<T>, dim: nat)
    requires |row| == dim
    ensures |row| == Times(1, dim) && Times(0 + 1, dim) <= |row| && RowAt(row, dim, 0) == row
  {
  }

  /** Room for the row of head `q` at position `p`. */
  lemma RowFits(d: Dims, q: nat, p: nat, n: nat)
    requires q < d.qHeads && p + n <= d.length
    ensures Times(HeadMajor(d, q, p), d.dim) + Times(n, d.dim) <= Times(Times(d.qHeads, d.length), d.dim)
    ensures HeadMajor(d, q, p) + n <= Times(d.qHeads, d.length)
  {
    RowSum(HeadMajor(d, q, p), n, d.dim);
    assert HeadMajor(d, q, p) + n <= Times(q + 1, d.length) by { NextRow(q, d.length); }
    MulLe(q + 1, d.qHeads, d.length);
    MulLe(HeadMajor(d, q, p) + n, Times(d.qHeads, d.length), d.dim);
  }

  method WriteRow<T>(d: Dims, cache: array<T>, q: nat, p: nat, row: seq<T>)
    requires RepeatedOk(d, cache[..]) && q < d.qHeads && p < d.length && |row| == d.dim
    modifies cache
    ensures RowReplaced(d, old(cache[..]), cache[..], q, p, row)
  {
    hide HeadMajor, RowReplaced;
    RowFits(d, q, p, 1);
    OneRowIs(row, d.dim);
    ghost var before := cache[..];
    Copy(cache, Times(HeadMajor(d, q, p), d.dim), row);
    ReplaceRow(d, before, cache[..], q, p, row);
  }

  // ---- inserting -----------------------------------------------------------------------------------------

  /** How many of the positions head `q` has had written when heads below `done` have the `i`-th as well. */
  function WrittenBy(i: nat, done: nat, q: nat): nat { if q < done then i + 1 else i }

  ghost predicate Inserting<T>(d: Dims, s: seq<T>, t: seq<T>, input: seq<T>, pos: seq<nat>, i: nat, done: nat)
    requires RepeatedOk(d, s) && HeadInput(d, input, |pos|) && i <= |pos| && (i < |pos| || done == 0)
  {
    RepeatedOk(d, t) &&
    forall q: nat, p: nat :: q < d.qHeads && p < d.length ==>
      var at := LastIndex(pos[..WrittenBy(i, done, q)], p);
      RepeatedRow(d, t, q, p) == if at >= 0 then HeadInputRow(d, input, |pos|, KvHead(d, q), at) else RepeatedRow(d, s, q, p)
  }

  lemma InsertingStarts<T>(d: Dims, s: seq<T>, input: seq<T>, pos: seq<nat>)
    requires RepeatedOk(d, s) && HeadInput(d, input, |pos|)
    ensures Inserting(d, s, s, input, pos, 0, 0)
  {
    assert pos[..0] == [];
  }

  lemma LastIndexNext(pos: seq<nat>, i: nat, p: nat)
    requires i < |pos|
    ensures LastIndex(pos[..i + 1], p) == if pos[i] == p then i else LastIndex(pos[..i], p)
  {
    assert pos[..i + 1][..i] == pos[..i];
  }

  lemma InsertOne<T>(d: Dims, s: seq<T>, t: seq<T>, t': seq<T>, input: seq<T>, pos: seq<nat>, i: nat, q: nat)
    requires RepeatedOk(d, s) && HeadInput(d, input, |pos|) && PositionsOk(d, pos) && i < |pos| && q < d.qHeads
    requires Inserting(d, s, t, input, pos, i, q)
    requires RowReplaced(d, t, t', q, pos[i], HeadInputRow(d, input, |pos|, KvHead(d, q), i))
    ensures Inserting(d, s, t', input, pos, i, q + 1)
  {
    hide RepeatedRow, HeadInputRow, KvHead, LastIndex;
    forall x: nat, p: nat | x < d.qHeads && p < d.length
      ensures var at := LastIndex(pos[..WrittenBy(i, q + 1, x)], p);
              RepeatedRow(d, t', x, p) == if at >= 0 then HeadInputRow(d, input, |pos|, KvHead(d, x), at) else RepeatedRow(d, s, x, p)
    {
      LastIndexNext(pos, i, p);
    }
  }

  lemma InsertedAllHeads<T>(d: Dims, s: seq<T>, t: seq<T>, input: seq<T>, pos: seq<nat>, i: nat)
    requires RepeatedOk(d, s) && HeadInput(d, input, |pos|) && i < |pos| && Inserting(d, s, t, input, pos, i, d.qHeads)
    ensures Inserting(d, s, t, input, pos, i + 1, 0)
  {
    hide RepeatedRow, HeadInputRow, KvHead, LastIndex;
  }

  lemma InsertedAll<T>(d: Dims, s: seq<T>, t: seq<T>, input: seq<T>, pos: seq<nat>)
    requires RepeatedOk(d, s) && HeadInput(d, input, |pos|) && Inserting(d, s, t, input, pos, |pos|, 0)
    ensures WrittenRepeated(d, s, t, input, pos)
  {
    hide RepeatedRow, HeadInputRow, KvHead, LastIndex;
    assert pos[..|pos|] == pos;
  }

  /** The key head of the query head that is copy `r` of key head `h`. */
  lemma CopyOf(d: Dims, h: nat, r: nat)
    requires d.Valid() && h < d.kvHeads && r < d.Repeat()
    ensures Join(h, d.Repeat(), r) < d.qHeads && KvHead(d, Join(h, d.Repeat(), r)) == h
  {
    assert d.qHeads == Times(d.kvHeads, d.Repeat());
    JoinBelow(h, d.kvHeads, d.Repeat(), r);
    JoinDigits(h, d.Repeat(), r);
  }

  lemma AllCopies(d: Dims, h: nat)
    requires d.Valid()
    ensures Join(h, d.Repeat(), d.Repeat()) == Join(h + 1, d.Repeat(), 0) && Join(d.kvHeads, d.Repeat(), 0) == d.qHeads && Join(0, d.Repeat(), 0) == 0
    ensures forall r: nat :: Join(h, d.Repeat(), r) + 1 == Join(h, d.Repeat(), r + 1)
  {
    NextRow(h, d.Repeat());
  }

  /** Write the `i`-th new row to every head of one cache tensor. */
  method InsertRow<T>(d: Dims, cache: array<T>, input: seq<T>, pos: seq<nat>, i: nat, ghost s: seq<T>)
    requires RepeatedOk(d, s) && HeadInput(d, input, |pos|) && PositionsOk(d, pos) && i < |pos|
    requires RepeatedOk(d, cache[..]) && Inserting(d, s, cache[..], input, pos, i, 0)
    modifies cache
    ensures RepeatedOk(d, cache[..]) && Inserting(d, s, cache[..], input, pos, i + 1, 0)
  {
    hide Inserting, RowReplaced, KvHead, HeadInputRow, Join;
    AllCopies(d, 0);
    for h := 0 to d.kvHeads
      invariant RepeatedOk(d, cache[..]) && Inserting(d, s, cache[..], input, pos, i, Join(h, d.Repeat(), 0))
    {
      AllCopies(d, h);
      for r := 0 to d.Repeat()
        invariant RepeatedOk(d, cache[..]) && Inserting(d, s, cache[..], input, pos, i, Join(h, d.Repeat(), r))
      {
        CopyOf(d, h, r);
        ghost var before := cache[..];
        var q := Join(h, d.Repeat(), r);
        WriteRow(d, cache, q, pos[i], HeadInputRow(d, input, |pos|, h, i));
        InsertOne(d, s, before, cache[..], input, pos, i, q);
      }
    }
    InsertedAllHeads(d, s, cache[..], input, pos, i);
  }

  /** Write every new row to its position, in every head; a position written twice keeps the later row. */
  method InsertRows<T>(d: Dims, cache: array<T>, input: seq<T>, pos: seq<nat>)
    requires RepeatedOk(d, cache[..]) && HeadInput(d, input, |pos|) && PositionsOk(d, pos)
    modifies cache
    ensures WrittenRepeated(d, old(cache[..]), cache[..], input, pos)
  {
    hide Inserting, WrittenRepeated;
    ghost var s := cache[..];
    InsertingStarts(d, s, input, pos);
    for i := 0 to |pos|
      invariant RepeatedOk(d, cache[..]) && Inserting(d, s, cache[..], input, pos, i, 0)
    {
      InsertRow(d, cache, input, pos, i, s);
    }
    InsertedAll(d, s, cache[..], input, pos);
  }

  // ---- appending -----------------------------------------------------------------------------------------

  /** The positions `from`, `from + 1`, and so on, `n` of them. */
  function Range(from: nat, n: nat): (r: seq<nat>)
    ensures |r| == n && forall i :: 0 <= i < n ==> r[i] == from + i
  {
    seq(n, i requires 0 <= i < n => from + i)
  }

  lemma LastOfRange(from: nat, n: nat, p: nat)
    ensures LastIndex(Range(from, n), p) == if from <= p < from + n then p - from else -1
  {
    LastIndexIn(Range(from, n), p);
    if from <= p < from + n { assert Range(from, n)[p - from] == p; }
  }

  /** The rows of one key head, all `n` of them. */
  function HeadBlock<T>(d: Dims, input: seq<T>, n: nat, h: nat): (r: seq<T>)
    requires HeadInput(d, input, n) && h < d.kvHeads
    ensures |r| == Times(n, d.dim)
  {
    BlockFits(d, n, h);
    input[Times(Times(h, n), d.dim)..Times(Times(h + 1, n), d.dim)]
  }

  lemma BlockFits(d: Dims, n: nat, h: nat)
    requires h < d.kvHeads
    ensures Times(Times(h + 1, n), d.dim) == Times(Times(h, n), d.dim) + Times(n, d.dim)
    ensures Times(Times(h + 1, n), d.dim) <= Times(Times(d.kvHeads, n), d.dim)
  {
    NextRow(h, n);
    RowSum(Times(h, n), n, d.dim);
    MulLe(h + 1, d.kvHeads, n);
    MulLe(Times(h + 1, n), Times(d.kvHeads, n), d.dim);
  }

  lemma JoinIs(h: nat, n: nat, i: nat)
    ensures Join(h, n, i) == Times(h, n) + i
  {
  }

  /** Row `h` of a block that starts at row `k` is row `k + h` of the whole. */
  lemma RowOfBlock<T>(s: seq<T>, dim: nat, k: nat, n: nat, h: nat)
    requires Times(k, dim) <= Times(k + n, dim) <= |s| && h < n
    ensures Times(h + 1, dim) <= Times(k + n, dim) - Times(k, dim) && Times(k + h + 1, dim) <= |s|
    ensures RowAt(s[Times(k, dim)..Times(k + n, dim)], dim, h) == RowAt(s, dim, k + h)
  {
    hide Times;
    RowSum(k, n, dim);
    RowSum(k, h, dim);
    NextRow(h, dim);
    NextRow(k + h, dim);
    RowsBelow(h, n, dim);
  }

  lemma BlockRow<T>(d: Dims, input: seq<T>, n: nat, h: nat, i: nat)
    requires HeadInput(d, input, n) && h < d.kvHeads && i < n
    ensures Times(i + 1, d.dim) <= |HeadBlock(d, input, n, h)|
    ensures RowAt(HeadBlock(d, input, n, h), d.dim, i) == HeadInputRow(d, input, n, h, i)
  {
    hide Times, Join, RowAt;
    BlockFits(d, n, h);
    JoinIs(h, n, i);
    NextBlock(h, n);
    RowOfBlock(input, d.dim, Times(h, n), n, i);
  }

  lemma NextBlock(h: nat, n: nat)
    ensures Times(h + 1, n) == Times(h, n) + n
  {
  }

  ghost predicate Appending<T>(d: Dims, s: seq<T>, t: seq<T>, input: seq<T>, n: nat, from: nat, done: nat)
    requires RepeatedOk(d, s) && HeadInput(d, input, n)
  {
    RepeatedOk(d, t) &&
    forall q: nat, p: nat :: q < d.qHeads && p < d.length ==>
      RepeatedRow(d, t, q, p) ==
      if q < done && from <= p < from + n then HeadInputRow(d, input, n, KvHead(d, q), p - from) else RepeatedRow(d, s, q, p)
  }

  /** Copying a block of `n` rows to head `q` from position `from` on. */
  lemma BlockCopied<T>(d: Dims, t: seq<T>, t': seq<T>, block: seq<T>, n: nat, from: nat, q: nat, x: nat, p: nat)
    requires RepeatedOk(d, t) && from + n <= d.length && q < d.qHeads && x < d.qHeads && p < d.length && |block| == Times(n, d.dim)
    requires var at := Times(HeadMajor(d, q, from), d.dim);
             at + |block| <= |t| && t' == t[..at] + block + t[at + |block|..]
    ensures RepeatedOk(d, t') && (from <= p < from + n ==> Times(p - from + 1, d.dim) <= |block|)
    ensures RepeatedRow(d, t', x, p) == if x == q && from <= p < from + n then RowAt(block, d.dim, p - from) else RepeatedRow(d, t, x, p)
  {
    hide Times, HeadMajor, RowAt;
    RowFits(d, q, from, n);
    RowFits(d, x, p, 1);
    CopyRows(t, d.dim, Times(d.qHeads, d.length), HeadMajor(d, q, from), n, block, t', HeadMajor(d, x, p));
    RowOffsets(d, q, from, n, x, p);
    if from <= p < from + n { RowsBelow(p - from, n, d.dim); }
  }

  lemma AppendOne<T>(d: Dims, s: seq<T>, t: seq<T>, t': seq<T>, input: seq<T>, n: nat, from: nat, q: nat)
    requires RepeatedOk(d, s) && RepeatedOk(d, t) && HeadInput(d, input, n) && from + n <= d.length && q < d.qHeads
    requires Appending(d, s, t, input, n, from, q)
    requires var at, block := Times(HeadMajor(d, q, from), d.dim), HeadBlock(d, input, n, KvHead(d, q));
             at + |block| <= |t| && t' == t[..at] + block + t[at + |block|..]
    ensures RepeatedOk(d, t') && Appending(d, s, t', input, n, from, q + 1)
  {
    hide HeadBlock, RowAt, KvHead, HeadMajor, Times, RepeatedRow, RepeatedOk, HeadInputRow;
    var block := HeadBlock(d, input, n, KvHead(d, q));
    forall x: nat, p: nat | x < d.qHeads && p < d.length
      ensures RepeatedOk(d, t')
      ensures RepeatedRow(d, t', x, p) ==
              if x < q + 1 && from <= p < from + n then HeadInputRow(d, input, n, KvHead(d, x), p - from) else RepeatedRow(d, s, x, p)
    {
      BlockCopied(d, t, t', block, n, from, q, x, p);
      if from <= p < from + n { BlockRow(d, input, n, KvHead(d, q), p - from); }
    }
    SameSize(d, t, t', block, n, from, q);
  }

  lemma SameSize<T>(d: Dims, t: seq<T>, t': seq<T>, block: seq<T>, n: nat, from: nat, q: nat)
    requires RepeatedOk(d, t)
    requires var at := Times(HeadMajor(d, q, from), d.dim);
             at + |block| <= |t| && t' == t[..at] + block + t[at + |block|..]
    ensures RepeatedOk(d, t')
  {
    hide Times, HeadMajor;
  }

  /** A row lies in the block of `n` rows from `from` on of head `q` exactly when its head and position do. */
  lemma RowOffsets(d: Dims, q: nat, from: nat, n: nat, x: nat, p: nat)
    requires from + n <= d.length && p < d.length
    ensures HeadMajor(d, q, from) <= HeadMajor(d, x, p) < HeadMajor(d, q, from) + n <==> x == q && from <= p < from + n
    ensures x == q ==> HeadMajor(d, x, p) - HeadMajor(d, q, from) == p - from
  {
    if x < q { MulLe(x + 1, q, d.length); NextRow(x, d.length); }
    if q < x { MulLe(q + 1, x, d.length); NextRow(q, d.length); }
  }

  lemma AppendingStarts<T>(d: Dims, s: seq<T>, input: seq<T>, n: nat, from: nat)
    requires RepeatedOk(d, s) && HeadInput(d, input, n)
    ensures Appending(d, s, s, input, n, from, 0)
  {
  }

  lemma AppendedAll<T>(d: Dims, s: seq<T>, t: seq<T>, input: seq<T>, n: nat, from: nat)
    requires RepeatedOk(d, s) && HeadInput(d, input, n) && Appending(d, s, t, input, n, from, d.qHeads)
    ensures WrittenRepeated(d, s, t, input, Range(from, n))
  {
    hide RepeatedRow, HeadInputRow, KvHead, LastIndex;
    forall q: nat, p: nat | q < d.qHeads && p < d.length
      ensures var at := LastIndex(Range(from, n), p);
              RepeatedRow(d, t, q, p) == if at >= 0 then HeadInputRow(d, input, n, KvHead(d, q), at) else RepeatedRow(d, s, q, p)
    {
      LastOfRange(from, n, p);
    }
  }

  /** Append `n` rows to every head of one cache tensor, one block per head. */
  method AppendRows<T>(d: Dims, cache: array<T>, input: seq<T>, n: nat, from: nat)
    requires RepeatedOk(d, cache[..]) && HeadInput(d, input, n) && from + n <= d.length
    modifies cache
    ensures WrittenRepeated(d, old(cache[..]), cache[..], input, Range(from, n))
  {
    hide Appending, WrittenRepeated, KvHead, HeadBlock, Join, HeadMajor, Times;
    ghost var s := cache[..];
    AppendingStarts(d, s, input, n, from);
    AllCopies(d, 0);
    for h := 0 to d.kvHeads
      invariant RepeatedOk(d, cache[..]) && Appending(d, s, cache[..], input, n, from, Join(h, d.Repeat(), 0))
    {
      AllCopies(d, h);
      for r := 0 to d.Repeat()
        invariant RepeatedOk(d, cache[..]) && Appending(d, s, cache[..], input, n, from, Join(h, d.Repeat(), r))
      {
        CopyOf(d, h, r);
        var q := Join(h, d.Repeat(), r);
        RowFits(d, q, from, n);
        ghost var before := cache[..];
        Copy(cache, Times(HeadMajor(d, q, from), d.dim), HeadBlock(d, input, n, h));
        AppendOne(d, s, before, cache[..], input, n, from, q);
      }
    }
    AppendedAll(d, s, cache[..], input, n, from);
  }

  // ---- the plain cache -----------------------------------------------------------------------------------

  ghost predicate Placing<T>(d: Dims, s: seq<T>, t: seq<T>, input: seq<T>, pos: seq<nat>, i: nat)
    requires PlainOk(d, s) && PositionInput(d, input, |pos|) && i <= |pos|
  {
    PlainOk(d, t) &&
    forall p: nat, h: nat :: p < d.length && h < d.kvHeads ==>
      var at := LastIndex(pos[..i], p);
      PlainRow(d, t, p, h) == if at >= 0 then PositionInputRow(d, input, |pos|, at, h) else PlainRow(d, s, p, h)
  }

  lemma PlacingStarts<T>(d: Dims, s: seq<T>, input: seq<T>, pos: seq<nat>)
    requires PlainOk(d, s) && PositionInput(d, input, |pos|)
    ensures Placing(d, s, s, input, pos, 0)
  {
    assert pos[..0] == [];
  }

  lemma PlacedAll<T>(d: Dims, s: seq<T>, t: seq<T>, input: seq<T>, pos: seq<nat>)
    requires PlainOk(d, s) && PositionInput(d, input, |pos|) && Placing(d, s, t, input, pos, |pos|)
    ensures WrittenPlain(d, s, t, input, pos)
  {
    hide PlainRow, PositionInputRow, LastIndex;
    assert pos[..|pos|] == pos;
  }

  /** The rows of one position, all heads of it. */
  function PositionBlock<T>(d: Dims, input: seq<T>, n: nat, i: nat): (r: seq<T>)
    requires PositionInput(d, input, n) && i < n
    ensures |r| == Times(d.kvHeads, d.dim)
  {
    PositionFits(d, n, i, 1);
    input[Times(Times(i, d.kvHeads), d.dim)..Times(Times(i + 1, d.kvHeads), d.dim)]
  }

  lemma PositionFits(d: Dims, n: nat, i: nat, m: nat)
    requires i + m <= n
    ensures Times(i + m, d.kvHeads) <= Times(n, d.kvHeads) && Times(i + 1, d.kvHeads) == Times(i, d.kvHeads) + d.kvHeads
    ensures Times(Times(i + 1, d.kvHeads), d.dim) == Times(Times(i, d.kvHeads), d.dim) + Times(d.kvHeads, d.dim)
    ensures Times(Times(i + m, d.kvHeads), d.dim) <= Times(Times(n, d.kvHeads), d.dim)
  {
    NextRow(i, d.kvHeads);
    RowSum(Times(i, d.kvHeads), d.kvHeads, d.dim);
    MulLe(i + m, n, d.kvHeads);
    MulLe(Times(i + m, d.kvHeads), Times(n, d.kvHeads), d.dim);
  }

  lemma PositionRow<T>(d: Dims, input: seq<T>, n: nat, i: nat, h: nat)
    requires PositionInput(d, input, n) && h < d.kvHeads && i < n
    ensures Times(h + 1, d.dim) <= |PositionBlock(d, input, n, i)|
    ensures RowAt(PositionBlock(d, input, n, i), d.dim, h) == PositionInputRow(d, input, n, i, h)
  {
    hide Times, Join, RowAt;
    PositionFits(d, n, i, 1);
    JoinIs(i, d.kvHeads, h);
    RowOfBlock(input, d.dim, Times(i, d.kvHeads), d.kvHeads, h);
  }

  lemma PlainOffsets(d: Dims, p: nat, y: nat, h: nat)
    requires h < d.kvHeads
    ensures Times(p, d.kvHeads) <= PositionMajor(d, y, h) < Times(p, d.kvHeads) + d.kvHeads <==> y == p
    ensures y == p ==> PositionMajor(d, y, h) - Times(p, d.kvHeads) == h
  {
    if y < p { MulLe(y + 1, p, d.kvHeads); NextRow(y, d.kvHeads); }
    if p < y { MulLe(p + 1, y, d.kvHeads); NextRow(p, d.kvHeads); }
  }

  /** Copying the rows of one position. */
  lemma PositionCopied<T>(d: Dims, t: seq<T>, t': seq<T>, block: seq<T>, p: nat, y: nat, h: nat)
    requires PlainOk(d, t) && p < d.length && y < d.length && h < d.kvHeads && |block| == Times(d.kvHeads, d.dim)
    requires var at := Times(Times(p, d.kvHeads), d.dim);
             at + |block| <= |t| && t' == t[..at] + block + t[at + |block|..]
    ensures PlainOk(d, t') && Times(h + 1, d.dim) <= |block|
    ensures PlainRow(d, t', y, h) == if y == p then RowAt(block, d.dim, h) else PlainRow(d, t, y, h)
  {
    hide Times, PositionMajor, RowAt;
    PositionFits(d, d.length, p, 1);
    PlainOffsets(d, p, y, h);
    PlainBelow(d, y, h);
    CopyRows(t, d.dim, Times(d.length, d.kvHeads), Times(p, d.kvHeads), d.kvHeads, block, t', PositionMajor(d, y, h));
    RowsBelow(h, d.kvHeads, d.dim);
  }

  lemma PlainBelow(d: Dims, p: nat, h: nat)
    requires p < d.length && h < d.kvHeads
    ensures PositionMajor(d, p, h) < Times(d.length, d.kvHeads)
  {
    JoinBelow(p, d.length, d.kvHeads, h);
  }

  lemma PlaceOne<T>(d: Dims, s: seq<T>, t: seq<T>, t': seq<T>, input: seq<T>, pos: seq<nat>, i: nat)
    requires PlainOk(d, s) && PlainOk(d, t) && PositionInput(d, input, |pos|) && i < |pos| && pos[i] < d.length && Placing(d, s, t, input, pos, i)
    requires var at, block := Times(Times(pos[i], d.kvHeads), d.dim), PositionBlock(d, input, |pos|, i);
             at + |block| <= |t| && t' == t[..at] + block + t[at + |block|..]
    ensures PlainOk(d, t') && Placing(d, s, t', input, pos, i + 1)
  {
    hide PositionBlock, RowAt, Times, PlainRow, PlainOk, PositionInputRow, LastIndex;
    var block := PositionBlock(d, input, |pos|, i);
    forall p: nat, h: nat | p < d.length && h < d.kvHeads
      ensures PlainOk(d, t')
      ensures var at := LastIndex(pos[..i + 1], p);
              PlainRow(d, t', p, h) == if at >= 0 then PositionInputRow(d, input, |pos|, at, h) else PlainRow(d, s, p, h)
    {
      PositionCopied(d, t, t', block, pos[i], p, h);
      LastIndexNext(pos, i, p);
      PositionRow(d, input, |pos|, i, h);
    }
    SamePlainSize(d, t, t', block, pos[i]);
  }

  lemma SamePlainSize<T>(d: Dims, t: seq<T>, t': seq<T>, block: seq<T>, p: nat)
    requires PlainOk(d, t)
    requires var at := Times(Times(p, d.kvHeads), d.dim);
             at + |block| <= |t| && t' == t[..at] + block + t[at + |block|..]
    ensures PlainOk(d, t')
  {
    hide Times;
  }

  /** Write every new position's rows, all heads at once. */
  method PlaceRows<T>(d: Dims, cache: array<T>, input: seq<T>, pos: seq<nat>)
    requires PlainOk(d, cache[..]) && PositionInput(d, input, |pos|) && PositionsOk(d, pos)
    modifies cache
    ensures WrittenPlain(d, old(cache[..]), cache[..], input, pos)
  {
    hide Placing, WrittenPlain, PositionBlock, Times;
    ghost var s := cache[..];
    PlacingStarts(d, s, input, pos);
    for i := 0 to |pos|
      invariant PlainOk(d, cache[..]) && Placing(d, s, cache[..], input, pos, i)
    {
      PositionFits(d, d.length, pos[i], 1);
      ghost var before := cache[..];
      Copy(cache, Times(Times(pos[i], d.kvHeads), d.dim), PositionBlock(d, input, |pos|, i));
      PlaceOne(d, s, before, cache[..], input, pos, i);
    }
    PlacedAll(d, s, cache[..], input, pos);
  }
}
