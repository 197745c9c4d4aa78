/**
  The independent check that a converted model's parameters lie one after another: sort by offset,
  then walk.  It accepts exactly the exact tilings, and every table that the version 2 writer makes.
 */
module ModelLayout {
  import opened Bytes
  import opened Positions
  import opened ModelFileV1
  import opened ModelFileV2

  /** Where one parameter lies, and its place in the table. */
  datatype Range = Range(offset: nat, size: nat, index: nat) {
    function End(): nat { offset + size }
  }

  /** The order of the walk: by offset, and in table order among equals. */
  predicate Sooner(a: Range, b: Range) { a.offset < b.offset || (a.offset == b.offset && a.index < b.index) }

  ghost predicate InOrder(t: seq<Range>) { forall i, j :: 0 <= i < j < |t| ==> Sooner(t[i], t[j]) }

  ghost predicate Indexed(t: seq<Range>) { forall i, j :: 0 <= i < j < |t| ==> t[i].index < t[j].index }

  /** Put `x`, which comes before all of `t` in the table, in front of the first that does not start before it. */
  function Place(x: Range, t: seq<Range>): (r: seq<Range>)
    ensures forall y :: y in r <==> y == x || y in t
    ensures |r| == |t| + 1
  {
    if t == [] then [x] else if x.offset <= t[0].offset then [x] + t else [t[0]] + Place(x, t[1..])
  }

  /** A stable sort by offset. */
  function ByOffset(t: seq<Range>): (r: seq<Range>)
    ensures forall y :: y in r <==> y in t
    ensures |r| == |t|
  {
    if t == [] then [] else Place(t[0], ByOffset(t[1..]))
  }

  lemma {:induction false} PlaceInOrder(x: Range, t: seq<Range>)
    requires InOrder(t) && forall y :: y in t ==> x.index < y.index
    ensures InOrder(Place(x, t))
  {
    if t != [] {
      if x.offset <= t[0].offset {
        forall j | 0 < j < |[x] + t| ensures Sooner(x, ([x] + t)[j]) {
          if j > 1 { assert Sooner(t[0], t[j - 1]); }
          assert t[j - 1] in t;
        }
      } else {
        PlaceInOrder(x, t[1..]);
        var r := Place(x, t[1..]);
        forall j | 0 <= j < |r| ensures Sooner(t[0], r[j]) {
          assert r[j] in r;
          if r[j] in t[1..] { var k :| 0 <= k < |t[1..]| && t[1..][k] == r[j]; assert t[1..][k] == t[k + 1]; }
        }
      }
    }
  }

  lemma {:induction false} ByOffsetInOrder(t: seq<Range>)
    requires Indexed(t)
    ensures InOrder(ByOffset(t))
  {
    if t != [] {
      ByOffsetInOrder(t[1..]);
      forall y | y in ByOffset(t[1..]) ensures t[0].index < y.index {
        assert y in t[1..];
        var k :| 0 <= k < |t[1..]| && t[1..][k] == y;
        assert t[k + 1] == y;
      }
      PlaceInOrder(t[0], ByOffset(t[1..]));
    }
  }

  /** The walk: each range starts where the one before ended, and the last ends at `end`. */
  predicate Walks(t: seq<Range>, start: nat, end: nat) {
    if t == [] then start == end else t[0].offset == start && Walks(t[1..], t[0].End(), end)
  }

  /** The check as a loop: the next offset to expect moves from range to range. */
  method ValidateLayout(table: seq<Range>, dataStart: nat, fileSize: nat) returns (ok: bool)
    ensures ok == Walks(ByOffset(table), dataStart, fileSize)
  {
    var sorted := ByOffset(table);
    var next: nat := dataStart;
    assert sorted[0..] == sorted;
    for i := 0 to |sorted|
      invariant Walks(sorted, dataStart, fileSize) == Walks(sorted[i..], next, fileSize)
    {
      assert sorted[i..][0] == sorted[i] && sorted[i..][1..] == sorted[i + 1..];
      if sorted[i].offset != next { return false; }
      next := next + sorted[i].size;
    }
    ok := next == fileSize;
  }

  // ---- what the check accepts ------------------------------------------------------------------------------

  predicate RangesApart(a: Range, b: Range) { a.End() <= b.offset || b.End() <= a.offset }

  ghost predicate Inside(t: seq<Range>, start: nat, end: nat) { forall i :: 0 <= i < |t| ==> start <= t[i].offset && t[i].End() <= end }

  ghost predicate AllApart(t: seq<Range>) { forall i, j :: 0 <= i < j < |t| ==> RangesApart(t[i], t[j]) }

  predicate Holds(a: Range, x: int) { a.offset <= x < a.End() }

  ghost predicate Covered(t: seq<Range>, x: int) { exists i :: 0 <= i < |t| && Holds(t[i], x) }

  ghost predicate AllCovered(t: seq<Range>, start: nat, end: nat) { forall x :: start <= x < end ==> Covered(t, x) }

  /** Among ranges that start together, all but the last in the table are empty. */
  ghost predicate EmptyFirst(t: seq<Range>) { forall i, j :: 0 <= i < j < |t| && t[i].offset == t[j].offset ==> t[i].size == 0 }

  /** The ranges tile `[start, end)`: they lie inside, are pairwise apart, and leave no byte out. */
  ghost predicate Tiles(t: seq<Range>, start: nat, end: nat) {
    start <= end && Inside(t, start, end) && AllApart(t) && AllCovered(t, start, end) && EmptyFirst(t)
  }

  lemma {:induction false} WalksTiles(t: seq<Range>, start: nat, end: nat)
    requires Walks(t, start, end)
    ensures Tiles(t, start, end)
  {
    if t != [] {
      var mid := t[0].End();
      WalksTiles(t[1..], mid, end);
      forall i | 0 <= i < |t| ensures start <= t[i].offset && t[i].End() <= end && (i > 0 ==> mid <= t[i].offset) {
        if i > 0 { assert t[i] == t[1..][i - 1]; }
      }
      forall i, j | 0 <= i < j < |t| ensures RangesApart(t[i], t[j]) && (t[i].offset == t[j].offset ==> t[i].size == 0) {
        if i > 0 { assert t[i] == t[1..][i - 1] && t[j] == t[1..][j - 1]; }
      }
      forall x | start <= x < end ensures Covered(t, x) {
        if x < mid {
          assert Holds(t[0], x);
        } else {
          assert Covered(t[1..], x);
          var i :| 0 <= i < |t[1..]| && Holds(t[1..][i], x);
          assert Holds(t[i + 1], x);
        }
      }
    }
  }

  lemma NothingCovered(x: int)
    ensures !Covered([], x)
  {
  }

  lemma {:induction false} TilesWalk(t: seq<Range>, start: nat, end: nat)
    requires InOrder(t) && Tiles(t, start, end)
    ensures Walks(t, start, end)
  {
    if t == [] {
      NothingCovered(start);
    } else {
      FirstStarts(t, start, end);
      var mid := t[0].End();
      forall i | 0 < i < |t| ensures mid <= t[i].offset {
        assert RangesApart(t[0], t[i]) && Sooner(t[0], t[i]);
      }
      forall i | 0 <= i < |t[1..]| ensures mid <= t[1..][i].offset && t[1..][i].End() <= end { assert t[1..][i] == t[i + 1]; }
      assert AllApart(t[1..]) by {
        forall i, j | 0 <= i < j < |t[1..]| ensures RangesApart(t[1..][i], t[1..][j]) { assert RangesApart(t[i + 1], t[j + 1]); }
      }
      forall x | mid <= x < end ensures Covered(t[1..], x) {
        assert Covered(t, x);
        var i :| 0 <= i < |t| && Holds(t[i], x);
        assert Holds(t[1..][i - 1], x);
      }
      assert InOrder(t[1..]) by {
        forall i, j | 0 <= i < j < |t[1..]| ensures Sooner(t[1..][i], t[1..][j]) { assert Sooner(t[i + 1], t[j + 1]); }
      }
      TilesWalk(t[1..], mid, end);
    }
  }

  lemma FirstStarts(t: seq<Range>, start: nat, end: nat)
    requires t != [] && InOrder(t) && Tiles(t, start, end)
    ensures t[0].offset == start
  {
    if start < end {
      assert Covered(t, start);
      var i :| 0 <= i < |t| && Holds(t[i], start);
      if i > 0 { assert Sooner(t[0], t[i]); }
    }
  }

  /** Being a tiling does not depend on the order of the walk. */
  lemma TilesAnyOrder(t: seq<Range>, r: seq<Range>, start: nat, end: nat)
    requires Indexed(t) && InOrder(r) && |r| == |t| && forall y :: y in r <==> y in t
    ensures Tiles(t, start, end) <==> Tiles(r, start, end)
  {
    if Tiles(t, start, end) {
      forall i | 0 <= i < |r| ensures start <= r[i].offset && r[i].End() <= end { assert r[i] in t; }
      forall i, j | 0 <= i < j < |r| ensures RangesApart(r[i], r[j]) && (r[i].offset == r[j].offset ==> r[i].size == 0) {
        assert r[i] in t && r[j] in t && Sooner(r[i], r[j]);
        var k :| 0 <= k < |t| && t[k] == r[i];
        var l :| 0 <= l < |t| && t[l] == r[j];
        assert k != l && (l < k ==> t[l].index < t[k].index);
      }
      forall x | start <= x < end ensures Covered(r, x) {
        assert Covered(t, x);
        var i :| 0 <= i < |t| && Holds(t[i], x);
        assert t[i] in r;
      }
    }
    if Tiles(r, start, end) {
      forall i | 0 <= i < |t| ensures start <= t[i].offset && t[i].End() <= end { assert t[i] in r; }
      forall i, j | 0 <= i < j < |t| ensures RangesApart(t[i], t[j]) && (t[i].offset == t[j].offset ==> t[i].size == 0) {
        assert t[i] in r && t[j] in r && t[i].index < t[j].index;
        var k :| 0 <= k < |r| && r[k] == t[i];
        var l :| 0 <= l < |r| && r[l] == t[j];
        assert k != l && (l < k ==> Sooner(r[l], r[k]));
      }
      forall x | start <= x < end ensures Covered(t, x) {
        assert Covered(r, x);
        var i :| 0 <= i < |r| && Holds(r[i], x);
        assert r[i] in t;
      }
    }
  }

  /**
    The check is exact: it accepts a table exactly when its ranges tile the data, and of ranges that
    start together all but the last in the table are empty.
   */
  lemma LayoutIsExact(table: seq<Range>, dataStart: nat, fileSize: nat)
    requires Indexed(table)
    ensures Walks(ByOffset(table), dataStart, fileSize) <==> Tiles(table, dataStart, fileSize)
  {
    var r := ByOffset(table);
    ByOffsetInOrder(table);
    TilesAnyOrder(table, r, dataStart, fileSize);
    if Walks(r, dataStart, fileSize) { WalksTiles(r, dataStart, fileSize); }
    if Tiles(r, dataStart, fileSize) { TilesWalk(r, dataStart, fileSize); }
  }

  // ---- the writer's tables ---------------------------------------------------------------------------------

  function RangesOf(ds: seq<Descriptor>, first: nat): seq<Range> {
    if ds == [] then [] else [Range(ds[0].offset, ds[0].size, first)] + RangesOf(ds[1..], first + 1)
  }

  lemma {:induction false} RangesIndexed(ds: seq<Descriptor>, first: nat)
    ensures |RangesOf(ds, first)| == |ds| && Indexed(RangesOf(ds, first))
    ensures forall i :: 0 <= i < |ds| ==> RangesOf(ds, first)[i].index == first + i
  {
    if ds != [] { RangesIndexed(ds[1..], first + 1); }
  }

  lemma {:induction false} WriterWalks(ps: seq<Parameter>, ids: seq<nat>, at: nat, first: nat)
    requires |ids| == |ps|
    ensures Walks(RangesOf(DescriptorsOf(ps, ids, at), first), at, at + |DataV2(ps)|)
    decreases |ps|
  {
    if ps != [] {
      var ds := DescriptorsOf(ps, ids, at);
      WriterWalks(ps[1..], ids[1..], at + |ps[0].data|, first + 1);
      assert ds[1..] == DescriptorsOf(ps[1..], ids[1..], at + |ps[0].data|);
    }
  }

  /** The check accepts the offsets and sizes of every file that the version 2 writer produces. */
  lemma WriterIsAccepted(ps: seq<Parameter>, ids: seq<nat>)
    requires |ids| == |ps|
    ensures var table := RangesOf(DescriptorsOf(ps, ids, DataStart(|ps|)), 0);
            Walks(ByOffset(table), DataStart(|ps|), |WrittenV2(ps, ids)|)
  {
    hide DataV2, DescriptorsOf, RangesOf, Walks, ByOffset, Header, TableV2;
    var ds := DescriptorsOf(ps, ids, DataStart(|ps|));
    var table := RangesOf(ds, 0);
    WriterWalks(ps, ids, DataStart(|ps|), 0);
    WalksTiles(table, DataStart(|ps|), DataStart(|ps|) + |DataV2(ps)|);
    RangesIndexed(ds, 0);
    LayoutIsExact(table, DataStart(|ps|), |WrittenV2(ps, ids)|);
  }
}
