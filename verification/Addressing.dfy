/**
  Strided tensors of any rank: the strides a fresh tensor gets address every element exactly once,
  inside its storage; what `isContiguous` accepts; and when a view's address is the right block.
 */
module Addressing {
  import opened Positions

  function Numel(shape: seq<nat>): nat { if shape == [] then 1 else Times(shape[0], Numel(shape[1..])) }

  predicate Positive(shape: seq<nat>) { forall i :: 0 <= i < |shape| ==> shape[i] > 0 }

  lemma {:induction false} NumelPositive(shape: seq<nat>)
    requires Positive(shape)
    ensures Numel(shape) > 0
  {
    if shape != [] {
      NumelPositive(shape[1..]);
      assert shape[0] * Numel(shape[1..]) >= 1 * Numel(shape[1..]) by { MulLe(1, shape[0], Numel(shape[1..])); }
    }
  }

  /** Row-major strides: each is the number of elements below its dimension. */
  function Strides(shape: seq<nat>): (s: seq<nat>)
    ensures |s| == |shape|
  {
    if shape == [] then [] else [Numel(shape[1..])] + Strides(shape[1..])
  }

  lemma {:induction false} StrideAt(shape: seq<nat>, i: nat)
    requires i < |shape|
    ensures Strides(shape)[i] == Numel(shape[i + 1..])
  {
    if i > 0 {
      StrideAt(shape[1..], i - 1);
      assert shape[1..][i..] == shape[i + 1..];
    }
  }

  lemma NumelFrom(shape: seq<nat>, i: nat)
    requires i < |shape|
    ensures Numel(shape[i..]) == Times(shape[i], Numel(shape[i + 1..]))
  {
    assert shape[i..][1..] == shape[i + 1..];
  }

  lemma StridesAre(shape: seq<nat>, strides: seq<nat>)
    requires |strides| == |shape| && forall i :: 0 <= i < |shape| ==> strides[i] == Numel(shape[i + 1..])
    ensures strides == Strides(shape)
  {
    forall i | 0 <= i < |shape| ensures strides[i] == Strides(shape)[i] { StrideAt(shape, i); }
  }

  /** The strides as the constructor computes them, from the last dimension to the first. */
  method CreateStrides(shape: seq<nat>) returns (strides: array<nat>)
    requires shape != []
    ensures strides[..] == Strides(shape)
  {
    strides := new nat[|shape|];
    var acc := 1;
    strides[|shape| - 1] := 1;
    var i := |shape| - 1;
    assert shape[|shape|..] == [];
    while i > 0
      invariant 0 <= i < |shape| && acc == Numel(shape[i + 1..])
      invariant forall j :: i <= j < |shape| ==> strides[j] == Numel(shape[j + 1..])
    {
      NumelFrom(shape, i);
      strides[i - 1] := Times(shape[i], acc);
      acc := Times(shape[i], acc);
      i := i - 1;
    }
    StridesAre(shape, strides[..]);
  }

  // ---- indices ---------------------------------------------------------------------------------------------

  predicate InBounds(shape: seq<nat>, index: seq<nat>) { |index| == |shape| && forall i :: 0 <= i < |index| ==> index[i] < shape[i] }

  /** The element offset of a multi-index under given strides. */
  function OffsetOf(strides: seq<nat>, index: seq<nat>): nat
    requires |index| == |strides|
  {
    if index == [] then 0 else Times(index[0], strides[0]) + OffsetOf(strides[1..], index[1..])
  }

  /** The multi-index at an element offset. */
  function IndexAt(shape: seq<nat>, n: nat): (index: seq<nat>)
    requires Positive(shape)
    ensures |index| == |shape|
  {
    if shape == [] then []
    else
      NumelPositive(shape[1..]);
      [Rest(n, Numel(shape[1..]))] + IndexAt(shape[1..], Last(n, Numel(shape[1..])))
  }

  lemma {:induction false} OffsetBelowNumel(shape: seq<nat>, index: seq<nat>)
    requires InBounds(shape, index)
    ensures OffsetOf(Strides(shape), index) < Numel(shape)
  {
    if shape != [] {
      OffsetBelowNumel(shape[1..], index[1..]);
      JoinBelow(index[0], shape[0], Numel(shape[1..]), OffsetOf(Strides(shape[1..]), index[1..]));
    }
  }

  /** The index at the offset of an index is that index. */
  lemma {:induction false} IndexOfOffset(shape: seq<nat>, index: seq<nat>)
    requires Positive(shape) && InBounds(shape, index)
    ensures IndexAt(shape, OffsetOf(Strides(shape), index)) == index
  {
    if shape != [] {
      IndexOfOffset(shape[1..], index[1..]);
      OffsetBelowNumel(shape[1..], index[1..]);
      JoinDigits(index[0], Numel(shape[1..]), OffsetOf(Strides(shape[1..]), index[1..]));
    }
  }

  /** Every offset below the element count is that of exactly one index, and that index is in bounds. */
  lemma {:induction false} OffsetOfIndex(shape: seq<nat>, n: nat)
    requires Positive(shape) && n < Numel(shape)
    ensures InBounds(shape, IndexAt(shape, n)) && OffsetOf(Strides(shape), IndexAt(shape, n)) == n
  {
    if shape != [] {
      NumelPositive(shape[1..]);
      DigitsJoin(n, shape[0], Numel(shape[1..]));
      OffsetOfIndex(shape[1..], Last(n, Numel(shape[1..])));
    }
  }

  /** Created strides address every element exactly once. */
  lemma StridesAreOneToOne(shape: seq<nat>, a: seq<nat>, b: seq<nat>)
    requires Positive(shape) && InBounds(shape, a) && InBounds(shape, b)
    ensures OffsetOf(Strides(shape), a) == OffsetOf(Strides(shape), b) <==> a == b
  {
    IndexOfOffset(shape, a);
    IndexOfOffset(shape, b);
  }

  /** The offset as the accessor accumulates it. */
  method Accumulate(strides: seq<nat>, index: seq<nat>) returns (offset: nat)
    requires |index| == |strides|
    ensures offset == OffsetOf(strides, index)
  {
    offset := 0;
    assert strides[0..] == strides && index[0..] == index;
    for i := 0 to |index|
      invariant offset + OffsetOf(strides[i..], index[i..]) == OffsetOf(strides, index)
    {
      assert strides[i..][1..] == strides[i + 1..] && index[i..][1..] == index[i + 1..];
      offset := offset + Times(index[i], strides[i]);
    }
  }

  // ---- contiguity ------------------------------------------------------------------------------------------

  /** The last `n` strides are the row-major ones. */
  ghost predicate ContiguousLast(shape: seq<nat>, strides: seq<nat>, n: nat)
    requires |strides| == |shape| && n <= |shape|
  {
    forall i :: |shape| - n <= i < |shape| ==> strides[i] == Numel(shape[i + 1..])
  }

  /** How many dimensions a request for `n` looks at. */
  function Clamp(n: int, rank: nat): (k: nat)
    ensures k <= rank
  {
    if n <= 0 then 0 else if n > rank then rank else n
  }

  method IsContiguousN(shape: seq<nat>, strides: seq<nat>, n: int) returns (ok: bool)
    requires |strides| == |shape|
    ensures ok == ContiguousLast(shape, strides, Clamp(n, |shape|))
  {
    if n <= 0 { return true; }
    if |shape| == 0 { return true; }
    var m: nat := n;
    if m > |shape| { m := |shape|; }
    var expected := 1;
    var i: int := |shape| - 1;
    assert shape[|shape|..] == [];
    while i >= |shape| - m
      invariant |shape| - m - 1 <= i < |shape| && expected == Numel(shape[i + 1..])
      invariant forall j :: i < j < |shape| ==> strides[j] == Numel(shape[j + 1..])
    {
      if strides[i] != expected { return false; }
      NumelFrom(shape, i);
      expected := Times(shape[i], expected);
      i := i - 1;
    }
    ok := true;
  }

  /** Looking at more dimensions never accepts more. */
  lemma ContiguousIsMonotone(shape: seq<nat>, strides: seq<nat>, n: int, m: int)
    requires |strides| == |shape| && n <= m && ContiguousLast(shape, strides, Clamp(m, |shape|))
    ensures ContiguousLast(shape, strides, Clamp(n, |shape|))
  {
  }

  /** The full check accepts exactly the strides that a fresh tensor of the shape has. */
  method IsContiguous(shape: seq<nat>, strides: seq<nat>) returns (ok: bool)
    requires |strides| == |shape|
    ensures ok == (strides == Strides(shape))
  {
    ContiguousIsStrides(shape, strides);
    if |shape| == 0 { return true; }
    var expected := 1;
    var i: int := |shape| - 1;
    assert shape[|shape|..] == [];
    while i >= 0
      invariant -1 <= i < |shape| && expected == Numel(shape[i + 1..])
      invariant forall j :: i < j < |shape| ==> strides[j] == Numel(shape[j + 1..])
    {
      if strides[i] != expected { return false; }
      NumelFrom(shape, i);
      expected := Times(shape[i], expected);
      i := i - 1;
    }
    ok := true;
  }

  lemma ContiguousIsStrides(shape: seq<nat>, strides: seq<nat>)
    requires |strides| == |shape|
    ensures ContiguousLast(shape, strides, |shape|) <==> strides == Strides(shape)
  {
    if ContiguousLast(shape, strides, |shape|) { StridesAre(shape, strides); }
    if strides == Strides(shape) {
      forall i | 0 <= i < |shape| ensures strides[i] == Numel(shape[i + 1..]) { StrideAt(shape, i); }
    }
  }

  // ---- blocks ----------------------------------------------------------------------------------------------

  /** Elements are stored in blocks of `lanes` elements and `bytes` bytes. */
  datatype Block = Block(lanes: nat, bytes: nat) {
    predicate Valid() { lanes > 0 && bytes > 0 }
  }

  /** Where the block of an element starts. */
  function BlockAddress(b: Block, element: nat): nat
    requires b.Valid()
  {
    Times(Rest(element, b.lanes), b.bytes)
  }

  /** Elements number `k * lanes` to `k * lanes + lanes - 1` share the block that starts at byte `k * bytes`. */
  lemma BlockAddressIs(b: Block, k: nat, r: nat)
    requires b.Valid() && r < b.lanes
    ensures BlockAddress(b, k * b.lanes + r) == k * b.bytes
  {
    JoinDigits(k, b.lanes, r);
  }

  /** The storage a fresh tensor gets; not `ok` when its volume is not whole blocks, which aborts. */
  method CreateStorage(shape: seq<nat>, b: Block) returns (ok: bool, size: nat)
    requires b.Valid()
    ensures ok == (Last(Numel(shape), b.lanes) == 0)
    ensures ok ==> size == BlockAddress(b, Numel(shape))
  {
    var count := 1;
    assert shape[0..] == shape;
    for i := 0 to |shape|
      invariant Times(count, Numel(shape[i..])) == Numel(shape)
    {
      NumelFrom(shape, i);
      Regroup(count, shape[i], Numel(shape[i + 1..]));
      count := Times(count, shape[i]);
    }
    assert shape[|shape|..] == [];
    ok := Last(count, b.lanes) == 0;
    size := BlockAddress(b, count);
  }

  lemma Regroup(a: nat, b: nat, c: nat)
    ensures Times(a, Times(b, c)) == Times(Times(a, b), c)
  {
  }

  /** The block of every element lies inside the storage. */
  lemma BlockInStorage(shape: seq<nat>, b: Block, index: seq<nat>)
    requires b.Valid() && InBounds(shape, index) && Last(Numel(shape), b.lanes) == 0
    ensures BlockAddress(b, OffsetOf(Strides(shape), index)) + b.bytes <= BlockAddress(b, Numel(shape))
  {
    var n, total := OffsetOf(Strides(shape), index), Numel(shape);
    OffsetBelowNumel(shape, index);
    RestBelow(n, total, b.lanes);
    MulLe(Rest(n, b.lanes) + 1, Rest(total, b.lanes), b.bytes);
    NextTimes(Rest(n, b.lanes), b.bytes);
  }

  lemma NextTimes(a: nat, b: nat)
    ensures Times(a + 1, b) == Times(a, b) + b
  {
  }

  lemma RestBelow(n: nat, total: nat, lanes: nat)
    requires lanes > 0 && n < total && Last(total, lanes) == 0
    ensures Rest(n, lanes) + 1 <= Rest(total, lanes)
  {
    var q, r := n / lanes, total / lanes;
    assert n == q * lanes + n % lanes && total == r * lanes;
    if r <= q { MulLe(r, q, lanes); }
  }

  /** The address an accessor computes through a view: the view's start and the offset, each rounded to its block. */
  function ViewAddress(b: Block, start: nat, offset: nat): nat
    requires b.Valid()
  {
    BlockAddress(b, start) + BlockAddress(b, offset)
  }

  /**
    A view's address is the block of the absolute element exactly when rounding the two parts
    separately loses no carry.
   */
  lemma ViewAddressIsExact(b: Block, start: nat, offset: nat)
    requires b.Valid()
    ensures ViewAddress(b, start, offset) == BlockAddress(b, start + offset) <==> Last(start, b.lanes) + Last(offset, b.lanes) < b.lanes
  {
    var p, q, r := Rest(start, b.lanes), Rest(offset, b.lanes), Rest(start + offset, b.lanes);
    CarryOver(start, offset, b.lanes);
    assert Times(p, b.bytes) + Times(q, b.bytes) == Times(p + q, b.bytes) by { Distribute(p, q, b.bytes); }
    if r != p + q { NextTimes(p + q, b.bytes); }
  }

  lemma Distribute(p: nat, q: nat, b: nat)
    ensures Times(p, b) + Times(q, b) == Times(p + q, b)
  {
  }

  lemma CarryOver(m: nat, n: nat, lanes: nat)
    requires lanes > 0
    ensures Last(m, lanes) + Last(n, lanes) < lanes ==> Rest(m + n, lanes) == Rest(m, lanes) + Rest(n, lanes)
    ensures Last(m, lanes) + Last(n, lanes) >= lanes ==> Rest(m + n, lanes) == Rest(m, lanes) + Rest(n, lanes) + 1
  {
    hide Join, Rest, Last;
    var p, q, s := Rest(m, lanes), Rest(n, lanes), Last(m, lanes) + Last(n, lanes);
    Digits(m, lanes);
    Digits(n, lanes);
    JoinSum(p, q, lanes, Last(m, lanes), Last(n, lanes));
    if s < lanes {
      JoinDigits(p + q, lanes, s);
    } else {
      JoinCarry(p + q, lanes, s);
      JoinDigits(p + q + 1, lanes, s - lanes);
    }
  }

  lemma JoinSum(p: nat, q: nat, d: nat, a: nat, b: nat)
    ensures Join(p, d, a) + Join(q, d, b) == Join(p + q, d, a + b)
  {
  }

  lemma JoinCarry(p: nat, d: nat, s: nat)
    requires s >= d
    ensures Join(p, d, s) == Join(p + 1, d, s - d)
  {
  }

  // ---- shapes ----------------------------------------------------------------------------------------------

  const ALL: int := 0x7FFF_FFFF

  /** The dimension that a possibly negative number names. */
  function Wrap(dim: int, rank: nat): int { if dim < 0 then dim + rank else dim }

  function Inserted(shape: seq<nat>, d: nat): (r: seq<nat>)
    requires d <= |shape|
    ensures |r| == |shape| + 1
  {
    shape[..d] + [1] + shape[d..]
  }

  function Removed(shape: seq<nat>, d: nat): (r: seq<nat>)
    requires d < |shape|
    ensures |r| == |shape| - 1
  {
    shape[..d] + shape[d + 1..]
  }

  /** Insert a dimension of size one; a negative number counts from behind the last. */
  function Unsqueezed(shape: seq<nat>, dim: int): seq<nat>
    requires -|shape| - 1 <= dim <= |shape|
  {
    Inserted(shape, Wrap(dim, |shape| + 1))
  }

  /** Remove a dimension of size one; a dimension out of range or of another size changes nothing. */
  function Squeezed(shape: seq<nat>, dim: int): seq<nat> {
    var d := Wrap(dim, |shape|);
    if d < 0 || d >= |shape| || shape[d] != 1 then shape else Removed(shape, d)
  }

  /** Remove every dimension of size one; a shape of ones only keeps one of them. */
  function SqueezedAll(shape: seq<nat>): seq<nat> {
    var kept := Kept(shape);
    if kept == [] && shape != [] then [1] else kept
  }

  function Kept(shape: seq<nat>): seq<nat> {
    if shape == [] then [] else if shape[|shape| - 1] == 1 then Kept(shape[..|shape| - 1]) else Kept(shape[..|shape| - 1]) + [shape[|shape| - 1]]
  }

  lemma {:induction false} NumelConcat(a: seq<nat>, b: seq<nat>)
    ensures Numel(a + b) == Times(Numel(a), Numel(b))
  {
    if a == [] {
      assert a + b == b;
    } else {
      assert (a + b)[1..] == a[1..] + b;
      NumelConcat(a[1..], b);
      Regroup(a[0], Numel(a[1..]), Numel(b));
    }
  }

  lemma NumelOfOne(n: nat)
    ensures Numel([n]) == n
  {
    assert [n][1..] == [];
  }

  lemma InsertRemove(shape: seq<nat>, d: nat)
    requires d <= |shape|
    ensures Inserted(shape, d)[d] == 1 && Removed(Inserted(shape, d), d) == shape
  {
  }

  lemma RemoveInsert(shape: seq<nat>, d: nat)
    requires d < |shape| && shape[d] == 1
    ensures Inserted(Removed(shape, d), d) == shape
  {
  }

  lemma InsertNumel(shape: seq<nat>, d: nat)
    requires d <= |shape|
    ensures Numel(Inserted(shape, d)) == Numel(shape)
  {
    hide Numel, Times;
    var a, b := shape[..d], shape[d..];
    assert a + b == shape;
    NumelConcat(a + [1], b);
    NumelConcat(a, [1]);
    NumelConcat(a, b);
    NumelOfOne(1);
    TimesOne(Numel(a));
  }

  lemma TimesOne(n: nat)
    ensures Times(n, 1) == n
  {
  }

  /** Squeezing takes out what unsqueezing put in, counted from either end. */
  lemma SqueezeUndoesUnsqueeze(shape: seq<nat>, dim: int)
    requires -|shape| - 1 <= dim <= |shape|
    ensures Squeezed(Unsqueezed(shape, dim), dim) == shape
    ensures Numel(Unsqueezed(shape, dim)) == Numel(shape)
  {
    hide Numel, Inserted, Removed;
    InsertRemove(shape, Wrap(dim, |shape| + 1));
    InsertNumel(shape, Wrap(dim, |shape| + 1));
  }

  /** Unsqueezing puts back what squeezing took out exactly when there was something to take out. */
  lemma UnsqueezeUndoesSqueeze(shape: seq<nat>, dim: int)
    requires -|shape| <= dim < |shape|
    ensures Unsqueezed(Squeezed(shape, dim), dim) == shape <==> shape[Wrap(dim, |shape|)] == 1
    ensures Numel(Squeezed(shape, dim)) == Numel(shape)
  {
    hide Numel, Inserted, Removed;
    var d := Wrap(dim, |shape|);
    if shape[d] == 1 {
      RemoveInsert(shape, d);
      InsertNumel(Squeezed(shape, dim), d);
    } else {
      InsertRemove(shape, Wrap(dim, |shape| + 1));
    }
  }

  lemma {:induction false} KeptNumel(shape: seq<nat>)
    ensures Numel(Kept(shape)) == Numel(shape)
    decreases |shape|
  {
    if shape != [] {
      var t, x := shape[..|shape| - 1], shape[|shape| - 1];
      KeptNumel(t);
      assert t + [x] == shape;
      NumelConcat(t, [x]);
      NumelConcat(Kept(t), [x]);
      NumelOfOne(x);
    }
  }

  /** Squeezing all dimensions keeps the element count, and never leaves a shape without dimensions. */
  lemma SqueezeAllKeeps(shape: seq<nat>)
    ensures Numel(SqueezedAll(shape)) == Numel(shape) && (shape != [] ==> SqueezedAll(shape) != [])
  {
    KeptNumel(shape);
    NumelOfOne(1);
  }

  /** The shape that squeezing asks for, by its loops over the dimensions. */
  method Squeeze(shape: seq<nat>, dim: int) returns (r: seq<nat>)
    ensures r == if dim == ALL then SqueezedAll(shape) else Squeezed(shape, dim)
  {
    r := [];
    if dim == ALL {
      for i := 0 to |shape|
        invariant r == Kept(shape[..i])
      {
        assert shape[..i + 1][..i] == shape[..i];
        if shape[i] != 1 { r := r + [shape[i]]; }
      }
      assert shape[..|shape|] == shape;
      if r == [] && shape != [] { r := r + [1]; }
    } else {
      var d := Wrap(dim, |shape|);
      if d < 0 || d >= |shape| { return shape; }
      if shape[d] == 1 {
        for i := 0 to |shape|
          invariant r == if i <= d then shape[..i] else shape[..d] + shape[d + 1..i]
        {
          if i != d { r := r + [shape[i]]; }
        }
        assert shape[d + 1..|shape|] == shape[d + 1..];
      } else {
        r := shape;
      }
    }
  }

  /** Why flattening fails. */
  datatype Flattened = Shape(dims: seq<nat>) | OutOfRange

  function FlattenedShape(shape: seq<nat>, dim: int): Flattened {
    if dim == ALL then Shape([Numel(shape)])
    else if shape == [] then Shape([1])
    else
      var d := Wrap(dim, |shape|);
      if d < 0 || d >= |shape| then OutOfRange else Shape(shape[..d] + [Numel(shape[d..])])
  }

  /** Flattening keeps the element count. */
  lemma FlattenKeeps(shape: seq<nat>, dim: int)
    ensures FlattenedShape(shape, dim).Shape? ==> Numel(FlattenedShape(shape, dim).dims) == Numel(shape)
    ensures FlattenedShape(shape, dim).OutOfRange? <==> dim != ALL && shape != [] && !(-|shape| <= dim < |shape|)
  {
    NumelOfOne(Numel(shape));
    NumelOfOne(1);
    var d := Wrap(dim, |shape|);
    if 0 <= d < |shape| {
      assert shape[..d] + shape[d..] == shape;
      NumelConcat(shape[..d], shape[d..]);
      NumelConcat(shape[..d], [Numel(shape[d..])]);
      NumelOfOne(Numel(shape[d..]));
    }
  }

  method Flatten(shape: seq<nat>, dim: int) returns (r: Flattened)
    ensures r == FlattenedShape(shape, dim)
  {
    if dim == ALL {
      var total := VolumeFrom(shape, 0);
      assert shape[0..] == shape;
      return Shape([total]);
    }
    if |shape| == 0 { return Shape([1]); }
    var d := Wrap(dim, |shape|);
    if d < 0 || d >= |shape| { return OutOfRange; }
    var dims: seq<nat> := [];
    for i := 0 to d
      invariant dims == shape[..i]
    {
      dims := dims + [shape[i]];
    }
    var size := VolumeFrom(shape, d);
    r := Shape(dims + [size]);
  }

  /** The product of the dimensions from `from` on. */
  method VolumeFrom(shape: seq<nat>, from: nat) returns (total: nat)
    requires from <= |shape|
    ensures total == Numel(shape[from..])
  {
    total := 1;
    for i := from to |shape|
      invariant Times(total, Numel(shape[i..])) == Numel(shape[from..])
    {
      NumelFrom(shape, i);
      Regroup(total, shape[i], Numel(shape[i + 1..]));
      total := Times(total, shape[i]);
    }
    assert shape[|shape|..] == [];
  }

  // ---- what the shape operations mean ----------------------------------------------------------------------

  /** The places of the dimensions that are not one, in increasing order. */
  ghost predicate OthersAt(shape: seq<nat>, at: seq<nat>) {
    && (forall k, m :: 0 <= k < m < |at| ==> at[k] < at[m])
    && (forall k :: 0 <= k < |at| ==> at[k] < |shape| && shape[at[k]] != 1)
    && (forall i :: 0 <= i < |shape| && shape[i] != 1 ==> i in at)
  }

  /** Squeezing everything leaves exactly the dimensions that are not one, in their order; of ones only, a single one. */
  lemma SqueezedAllIs(shape: seq<nat>) returns (at: seq<nat>)
    ensures OthersAt(shape, at)
    ensures at == [] ==> SqueezedAll(shape) == if shape == [] then [] else [1]
    ensures at != [] ==> |SqueezedAll(shape)| == |at| && forall k :: 0 <= k < |at| ==> SqueezedAll(shape)[k] == shape[at[k]]
  {
    at := KeptIs(shape);
  }

  lemma {:induction false} KeptIs(shape: seq<nat>) returns (at: seq<nat>)
    ensures OthersAt(shape, at)
    ensures |Kept(shape)| == |at| && forall k :: 0 <= k < |at| ==> at[k] < |shape| && Kept(shape)[k] == shape[at[k]]
    decreases |shape|
  {
    hide OthersAt;
    if shape == [] {
      at := [];
      NoOthers();
    } else {
      var n := |shape| - 1;
      var before := KeptIs(shape[..n]);
      OthersMore(shape, before);
      at := if shape[n] == 1 then before else before + [n];
    }
  }

  lemma NoOthers()
    ensures OthersAt([], [])
  {
  }

  lemma OthersMore(shape: seq<nat>, before: seq<nat>)
    requires shape != [] && OthersAt(shape[..|shape| - 1], before)
    ensures OthersAt(shape, if shape[|shape| - 1] == 1 then before else before + [|shape| - 1])
  {
    var n := |shape| - 1;
    var at := if shape[n] == 1 then before else before + [n];
    forall i | 0 <= i < |shape| && shape[i] != 1 ensures i in at {
      if i < n { assert shape[..n][i] != 1; }
    }
  }

  lemma {:induction false} StridesConcat(a: seq<nat>, b: seq<nat>, ia: seq<nat>, ib: seq<nat>)
    requires |ia| == |a| && |ib| == |b|
    ensures OffsetOf(Strides(a + b), ia + ib) == Join(OffsetOf(Strides(a), ia), Numel(b), OffsetOf(Strides(b), ib))
  {
    if a == [] {
      assert a + b == b && ia + ib == ib;
    } else {
      hide Numel;
      assert (a + b)[1..] == a[1..] + b && (ia + ib)[1..] == ia[1..] + ib;
      StridesConcat(a[1..], b, ia[1..], ib);
      NumelConcat(a[1..], b);
      Regroup(ia[0], Numel(a[1..]), Numel(b));
      Distribute(Times(ia[0], Numel(a[1..])), OffsetOf(Strides(a[1..]), ia[1..]), Numel(b));
    }
  }

  lemma OneDimension(n: nat, i: nat)
    ensures OffsetOf(Strides([n]), [i]) == i
  {
    assert [n][1..] == [] && [i][1..] == [];
  }

  /** The dimension from which flattening folds. */
  function FoldFrom(shape: seq<nat>, dim: int): int {
    if dim == 0x7FFF_FFFF || shape == [] then 0 else if dim < 0 then dim + |shape| else dim
  }

  /**
    Flattening keeps the dimensions before the first one folded, and every element in its place: the element at
    an index is found under the same first indices and its row-major position among the folded dimensions.
   */
  lemma FlattenKeepsPlaces(shape: seq<nat>, dim: int, index: seq<nat>)
    requires FlattenedShape(shape, dim).Shape? && InBounds(shape, index)
    ensures var d, flat := FoldFrom(shape, dim), FlattenedShape(shape, dim).dims;
            && 0 <= d <= |shape| && |flat| == d + 1 && flat[..d] == shape[..d]
            && var at := index[..d] + [OffsetOf(Strides(shape[d..]), index[d..])];
            InBounds(flat, at) && OffsetOf(Strides(flat), at) == OffsetOf(Strides(shape), index)
  {
    hide Numel, OffsetOf, Strides, Join;
    var d := FoldFrom(shape, dim);
    var a, b, ia, ib := shape[..d], shape[d..], index[..d], index[d..];
    var place := OffsetOf(Strides(b), ib);
    assert a + b == shape && ia + ib == index;
    if shape == [] || dim == ALL { Whole(shape, d); }
    assert FlattenedShape(shape, dim).dims == a + [Numel(b)];
    OffsetBelowNumel(b, ib);
    StridesConcat(a, b, ia, ib);
    StridesConcat(a, [Numel(b)], ia, [place]);
    OneDimension(Numel(b), place);
    NumelOfOne(Numel(b));
  }

  lemma Whole(shape: seq<nat>, d: nat)
    requires d == 0
    ensures shape[d..] == shape && shape[..d] == [] && (shape == [] ==> Numel(shape) == 1) && [] + [Numel(shape)] == [Numel(shape)]
  {
  }

  /** Inserting a dimension of one keeps every element in its place, under a zero in the new dimension. */
  lemma UnsqueezeKeepsPlaces(shape: seq<nat>, dim: int, index: seq<nat>)
    requires -|shape| - 1 <= dim <= |shape| && InBounds(shape, index)
    ensures var d := if dim < 0 then dim + |shape| + 1 else dim;
            var at := index[..d] + [0] + index[d..];
            InBounds(Unsqueezed(shape, dim), at) && OffsetOf(Strides(Unsqueezed(shape, dim)), at) == OffsetOf(Strides(shape), index)
  {
    hide Numel, OffsetOf, Strides, Join;
    var d := Wrap(dim, |shape| + 1);
    var a, b, ia, ib := shape[..d], shape[d..], index[..d], index[d..];
    assert a + b == shape && ia + ib == index;
    StridesConcat(a, b, ia, ib);
    StridesConcat(a + [1], b, ia + [0], ib);
    StridesConcat(a, [1], ia, [0]);
    OneDimension(1, 0);
    NumelOfOne(1);
    JoinOne(OffsetOf(Strides(a), ia));
  }

  lemma JoinOne(n: nat)
    ensures Join(n, 1, 0) == n
  {
  }
}
