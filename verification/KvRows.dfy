/**
  Cache tensors as rows of equal length in flat memory: what a block copy does to the rows, and what
  a batch of writes to some positions leaves in two layouts of the same cache.
 */
module KvRows {
  import opened Distinct
  import opened Positions
  import opened Tensors

  /** Row `r` of flat memory cut into rows of `dim` elements. */
  function RowAt<T>(s: seq<T>, dim: nat, r: nat): (row: seq<T>)
    requires Times(r + 1, dim) <= |s|
    ensures |row| == dim
  {
    NextRow(r, dim);
    s[Times(r, dim)..Times(r + 1, dim)]
  }

  lemma NextRow(r: nat, dim: nat)
    ensures Times(r + 1, dim) == Times(r, dim) + dim
  {
  }

  lemma RowsBelow(r: nat, n: nat, dim: nat)
    requires r < n
    ensures Times(r + 1, dim) <= Times(n, dim)
  {
    MulLe(r + 1, n, dim);
  }

  lemma RowSum(r: nat, n: nat, dim: nat)
    ensures Times(r + n, dim) == Times(r, dim) + Times(n, dim)
  {
  }

  /** A block copy. */
  method Copy<T>(dst: array<T>, at: nat, src: seq<T>)
    requires at + |src| <= dst.Length
    modifies dst
    ensures dst[..] == old(dst[..])[..at] + src + old(dst[..])[at + |src|..]
  {
    ghost var before := dst[..];
    forall i | 0 <= i < |src| { dst[at + i] := src[i]; }
    assert dst[..] == before[..at] + src + before[at + |src|..];
  }

  /** Copying `n` whole rows to row `r` replaces just those rows. */
  lemma CopyRows<T>(s: seq<T>, dim: nat, rows: nat, r: nat, n: nat, src: seq<T>, t: seq<T>, x: nat)
    requires |s| == Times(rows, dim) && r + n <= rows && |src| == Times(n, dim) && x < rows
    requires Times(r, dim) + |src| <= |s| && t == s[..Times(r, dim)] + src + s[Times(r, dim) + |src|..]
    ensures Times(x + 1, dim) <= |s| == |t| && (r <= x < r + n ==> Times(x - r + 1, dim) <= |src|)
    ensures RowAt(t, dim, x) == if r <= x < r + n then RowAt(src, dim, x - r) else RowAt(s, dim, x)
  {
    RowsBelow(x, rows, dim);
    NextRow(x, dim);
    RowSum(r, n, dim);
    hide Times;
    if x < r {
      RowsBelow(x, r, dim);
    } else if x < r + n {
      RowSum(r, x - r, dim);
      NextRow(x - r, dim);
      RowsBelow(x - r, n, dim);
      assert t[Times(x, dim)..Times(x + 1, dim)] == src[Times(x - r, dim)..Times(x - r + 1, dim)];
    } else {
      RowSum(r + n, x - r - n, dim);
      assert t[Times(x, dim)..Times(x + 1, dim)] == s[Times(x, dim)..Times(x + 1, dim)];
    }
  }

  // ---- writes to positions -------------------------------------------------------------------------------

  /** The last place of `p` in `pos`, or -1. */
  function LastIndex(pos: seq<nat>, p: nat): (i: int)
    ensures -1 <= i < |pos|
    ensures i >= 0 ==> pos[i] == p
    ensures forall j :: i < j < |pos| ==> pos[j] != p
  {
    if pos == [] then -1 else if pos[|pos| - 1] == p then |pos| - 1 else LastIndex(pos[..|pos| - 1], p)
  }

  lemma LastIndexIn(pos: seq<nat>, p: nat)
    ensures LastIndex(pos, p) >= 0 <==> p in pos
  {
    if p in pos { var i :| 0 <= i < |pos| && pos[i] == p; }
  }

  /** The shape of a cache: query heads, key and value heads, positions, and elements per row. */
  datatype Dims = Dims(qHeads: nat, kvHeads: nat, length: nat, dim: nat) {
    predicate Valid() { kvHeads > 0 && qHeads > 0 && qHeads % kvHeads == 0 }
    function Repeat(): nat requires kvHeads > 0 { qHeads / kvHeads }
  }

  /** The key head that query head `q` shares. */
  function KvHead(d: Dims, q: nat): (h: nat)
    requires d.Valid() && q < d.qHeads
    ensures h < d.kvHeads
  {
    assert d.qHeads == Times(d.kvHeads, d.Repeat());
    DigitsJoin(q, d.kvHeads, d.Repeat());
    Rest(q, d.Repeat())
  }

  /** Where head `q`'s row at position `p` lies when heads come first, and when positions come first. */
  function HeadMajor(d: Dims, q: nat, p: nat): nat { Join(q, d.length, p) }
  function PositionMajor(d: Dims, p: nat, h: nat): nat { Join(p, d.kvHeads, h) }

  predicate RepeatedOk<T>(d: Dims, s: seq<T>) { d.Valid() && |s| == Times(Times(d.qHeads, d.length), d.dim) }
  predicate PlainOk<T>(d: Dims, s: seq<T>) { d.Valid() && |s| == Times(Times(d.length, d.kvHeads), d.dim) }

  /** The row of query head `q` at position `p` in the repeated cache. */
  function RepeatedRow<T>(d: Dims, s: seq<T>, q: nat, p: nat): (r: seq<T>)
    requires RepeatedOk(d, s) && q < d.qHeads && p < d.length
    ensures |r| == d.dim
  {
    JoinBelow(q, d.qHeads, d.length, p);
    RowsBelow(HeadMajor(d, q, p), Times(d.qHeads, d.length), d.dim);
    RowAt(s, d.dim, HeadMajor(d, q, p))
  }

  /** The row of key head `h` at position `p` in the plain cache. */
  function PlainRow<T>(d: Dims, s: seq<T>, p: nat, h: nat): (r: seq<T>)
    requires PlainOk(d, s) && p < d.length && h < d.kvHeads
    ensures |r| == d.dim
  {
    JoinBelow(p, d.length, d.kvHeads, h);
    RowsBelow(PositionMajor(d, p, h), Times(d.length, d.kvHeads), d.dim);
    RowAt(s, d.dim, PositionMajor(d, p, h))
  }

  /** New rows, `n` positions of them: heads first, as the repeated cache takes them, or positions first. */
  predicate HeadInput<T>(d: Dims, s: seq<T>, n: nat) { d.Valid() && |s| == Times(Times(d.kvHeads, n), d.dim) }
  predicate PositionInput<T>(d: Dims, s: seq<T>, n: nat) { d.Valid() && |s| == Times(Times(n, d.kvHeads), d.dim) }

  function HeadInputRow<T>(d: Dims, s: seq<T>, n: nat, h: nat, i: nat): (r: seq<T>)
    requires HeadInput(d, s, n) && h < d.kvHeads && i < n
    ensures |r| == d.dim
  {
    JoinBelow(h, d.kvHeads, n, i);
    RowsBelow(Join(h, n, i), Times(d.kvHeads, n), d.dim);
    RowAt(s, d.dim, Join(h, n, i))
  }

  function PositionInputRow<T>(d: Dims, s: seq<T>, n: nat, i: nat, h: nat): (r: seq<T>)
    requires PositionInput(d, s, n) && h < d.kvHeads && i < n
    ensures |r| == d.dim
  {
    JoinBelow(i, n, d.kvHeads, h);
    RowsBelow(Join(i, d.kvHeads, h), Times(n, d.kvHeads), d.dim);
    RowAt(s, d.dim, Join(i, d.kvHeads, h))
  }

  ghost predicate PositionsOk(d: Dims, pos: seq<nat>) { forall i :: 0 <= i < |pos| ==> pos[i] < d.length }

  /** `t` is the repeated cache `s` after writing the input to the positions: the last write to a position wins. */
  ghost predicate WrittenRepeated<T>(d: Dims, s: seq<T>, t: seq<T>, input: seq<T>, pos: seq<nat>)
    requires RepeatedOk(d, s) && HeadInput(d, input, |pos|)
  {
    RepeatedOk(d, t) &&
    forall q: nat, p: nat :: q < d.qHeads && p < d.length ==>
      RepeatedRow(d, t, q, p) ==
      if LastIndex(pos, p) >= 0 then HeadInputRow(d, input, |pos|, KvHead(d, q), LastIndex(pos, p)) else RepeatedRow(d, s, q, p)
  }

  /** The same for the plain cache. */
  ghost predicate WrittenPlain<T>(d: Dims, s: seq<T>, t: seq<T>, input: seq<T>, pos: seq<nat>)
    requires PlainOk(d, s) && PositionInput(d, input, |pos|)
  {
    PlainOk(d, t) &&
    forall p: nat, h: nat :: p < d.length && h < d.kvHeads ==>
      PlainRow(d, t, p, h) ==
      if LastIndex(pos, p) >= 0 then PositionInputRow(d, input, |pos|, LastIndex(pos, p), h) else PlainRow(d, s, p, h)
  }

  // ---- the two layouts agree -----------------------------------------------------------------------------

  /** On the positions `w`, every query head of the repeated cache holds the row of its key head in the plain one. */
  ghost predicate Agree<T>(d: Dims, s: seq<T>, u: seq<T>, w: set<nat>)
    requires RepeatedOk(d, s) && PlainOk(d, u)
  {
    forall q: nat, p: nat :: q < d.qHeads && p < d.length && p in w ==> RepeatedRow(d, s, q, p) == PlainRow(d, u, p, KvHead(d, q))
  }

  /** The same new rows in the two input layouts. */
  ghost predicate SameInput<T>(d: Dims, a: seq<T>, b: seq<T>, n: nat)
    requires HeadInput(d, a, n) && PositionInput(d, b, n)
  {
    forall h: nat, i: nat :: h < d.kvHeads && i < n ==> HeadInputRow(d, a, n, h, i) == PositionInputRow(d, b, n, i, h)
  }

  lemma AgreeStep<T>(d: Dims, s: seq<T>, s': seq<T>, u: seq<T>, u': seq<T>, a: seq<T>, b: seq<T>, pos: seq<nat>, w: set<nat>)
    requires RepeatedOk(d, s) && PlainOk(d, u) && HeadInput(d, a, |pos|) && PositionInput(d, b, |pos|)
    requires WrittenRepeated(d, s, s', a, pos) && WrittenPlain(d, u, u', b, pos) && SameInput(d, a, b, |pos|) && Agree(d, s, u, w)
    ensures Agree(d, s', u', w + Elements(pos))
  {
    hide RepeatedRow, PlainRow, HeadInputRow, PositionInputRow, KvHead, LastIndex;
    forall q: nat, p: nat | q < d.qHeads && p < d.length && (p in w || p in pos)
      ensures RepeatedRow(d, s', q, p) == PlainRow(d, u', p, KvHead(d, q))
    {
      LastIndexIn(pos, p);
    }
  }

  /** One update, in the layout that each cache takes. */
  datatype Update<T> = Update(pos: seq<nat>, forRepeated: seq<T>, forPlain: seq<T>)

  ghost predicate UpdateOk<T>(d: Dims, u: Update<T>) {
    && HeadInput(d, u.forRepeated, |u.pos|) && PositionInput(d, u.forPlain, |u.pos|)
    && SameInput(d, u.forRepeated, u.forPlain, |u.pos|)
  }

  /** The states that a run of updates goes through, in both caches. */
  ghost predicate IsRun<T>(d: Dims, ups: seq<Update<T>>, ss: seq<seq<T>>, us: seq<seq<T>>) {
    && |ss| == |us| == |ups| + 1
    && (forall i :: 0 <= i <= |ups| ==> RepeatedOk(d, ss[i]) && PlainOk(d, us[i]))
    && (forall i :: 0 <= i < |ups| ==> UpdateOk(d, ups[i]))
    && (forall i :: 0 <= i < |ups| ==> WrittenRepeated(d, ss[i], ss[i + 1], ups[i].forRepeated, ups[i].pos))
    && (forall i :: 0 <= i < |ups| ==> WrittenPlain(d, us[i], us[i + 1], ups[i].forPlain, ups[i].pos))
  }

  /** The positions written by the first `n` updates. */
  function Touched<T>(ups: seq<Update<T>>, n: nat): set<nat>
    requires n <= |ups|
  {
    if n == 0 then {} else Touched(ups, n - 1) + Elements(ups[n - 1].pos)
  }

  /** After any run of updates the two caches agree on every position that the run has written. */
  lemma {:induction false} RunsAgree<T>(d: Dims, ups: seq<Update<T>>, ss: seq<seq<T>>, us: seq<seq<T>>, n: nat)
    requires IsRun(d, ups, ss, us) && n <= |ups|
    ensures Agree(d, ss[n], us[n], Touched(ups, n))
  {
    hide RepeatedOk, PlainOk, WrittenRepeated, WrittenPlain, Agree, UpdateOk;
    if n == 0 {
      AgreeNowhere(d, ss[0], us[0]);
    } else {
      RunsAgree(d, ups, ss, us, n - 1);
      RunStep(d, ups[n - 1], ss[n - 1], ss[n], us[n - 1], us[n], Touched(ups, n - 1));
    }
  }

  lemma AgreeNowhere<T>(d: Dims, s: seq<T>, u: seq<T>)
    requires RepeatedOk(d, s) && PlainOk(d, u)
    ensures Agree(d, s, u, {})
  {
  }

  lemma RunStep<T>(d: Dims, up: Update<T>, s: seq<T>, s': seq<T>, u: seq<T>, u': seq<T>, w: set<nat>)
    requires RepeatedOk(d, s) && PlainOk(d, u) && UpdateOk(d, up) && Agree(d, s, u, w)
    requires WrittenRepeated(d, s, s', up.forRepeated, up.pos) && WrittenPlain(d, u, u', up.forPlain, up.pos)
    ensures Agree(d, s', u', w + Elements(up.pos))
  {
    AgreeStep(d, s, s', u, u', up.forRepeated, up.forPlain, up.pos, w);
  }
}
