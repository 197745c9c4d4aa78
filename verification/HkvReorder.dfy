/** The two caches as objects, and the compaction of the repeated one to the positions visited. */
module HkvReorder {
  import opened Distinct
  import opened Positions
  import opened Tensors
  import opened KvRows
  import opened HkvCache

  // ---- the order of visited positions ----------------------------------------------------------------------

  /** `std::unique`: each run of equal neighbours becomes one. */
  function Unique(s: seq<nat>): (u: seq<nat>)
    ensures forall x :: x in u <==> x in s
    ensures s != [] ==> u != [] && u[|u| - 1] == s[|s| - 1]
    ensures |u| <= |s|
  {
    if |s| <= 1 then s
    else
      var rest := Unique(s[..|s| - 1]);
      assert s == s[..|s| - 1] + [s[|s| - 1]];
      if s[|s| - 1] == s[|s| - 2] then rest else rest + [s[|s| - 1]]
  }

  function InsertInto(x: nat, s: seq<nat>): (r: seq<nat>)
    ensures multiset(r) == multiset(s) + multiset{x} && |r| == |s| + 1
    ensures Ascending(s) ==> Ascending(r)
    ensures s != [] && x <= s[0] ==> r == [x] + s
    ensures s != [] && x > s[0] ==> r[0] == s[0]
  {
    if s == [] then [x]
    else if x <= s[0] then [x] + s
    else
      assert s == [s[0]] + s[1..];
      [s[0]] + InsertInto(x, s[1..])
  }

  predicate Ascending(s: seq<nat>) { forall i :: 0 < i < |s| ==> s[i - 1] <= s[i] }

  function Sorted(s: seq<nat>): (r: seq<nat>)
    ensures multiset(r) == multiset(s) && |r| == |s| && Ascending(r)
  {
    if s == [] then []
    else
      assert s == [s[0]] + s[1..];
      InsertInto(s[0], Sorted(s[1..]))
  }

  /** The order in which compaction lays the visited positions out. */
  function OrderOf(visited: seq<nat>): (r: seq<nat>)
    ensures Ascending(r) && |r| <= |visited|
    ensures forall x :: x in r <==> x in visited
  {
    var u := Unique(visited);
    SortedSame(u);
    Sorted(u)
  }

  lemma SortedSame(s: seq<nat>)
    ensures forall x :: x in Sorted(s) <==> x in s
  {
    forall x ensures x in Sorted(s) <==> x in s {
      assert x in multiset(Sorted(s)) <==> x in multiset(s);
    }
  }

  /** A position that is visited again after another one has been. */
  ghost predicate Revisits(visited: seq<nat>) {
    exists i, j, k :: 0 <= i < k < j < |visited| && visited[i] == visited[j] && visited[k] != visited[i]
  }

  lemma {:induction false} UniqueRepeats(v: seq<nat>)
    ensures NoRepeats(Unique(v)) <==> !Revisits(v)
    decreases |v|
  {
    if |v| > 1 {
      var t, x, u := v[..|v| - 1], v[|v| - 1], Unique(v[..|v| - 1]);
      UniqueRepeats(t);
      assert v == t + [x];
      if x == v[|v| - 2] {
        LastSame(v);
      } else {
        LastNew(v);
        if x in u {
          var i :| 0 <= i < |u| && u[i] == x;
          assert Unique(v)[i] == Unique(v)[|u|];
        } else {
          assert NoRepeats(u + [x]) <==> NoRepeats(u) by {
            if NoRepeats(u + [x]) { forall i, j | 0 <= i < j < |u| ensures u[i] != u[j] { assert (u + [x])[i] != (u + [x])[j]; } }
          }
        }
      }
    } else {
      assert NoRepeats(v);
    }
  }

  lemma LastSame(v: seq<nat>)
    requires |v| > 1 && v[|v| - 1] == v[|v| - 2]
    ensures Revisits(v) <==> Revisits(v[..|v| - 1])
  {
    var t := v[..|v| - 1];
    if Revisits(v) {
      var i, j, k :| 0 <= i < k < j < |v| && v[i] == v[j] && v[k] != v[i];
      var j' := if j == |v| - 1 then |v| - 2 else j;
      assert k != |v| - 2 || j != |v| - 1;
      assert 0 <= i < k < j' < |t| && t[i] == t[j'] && t[k] != t[i];
    }
    if Revisits(t) {
      var i, j, k :| 0 <= i < k < j < |t| && t[i] == t[j] && t[k] != t[i];
      assert v[i] == v[j] && v[k] != v[i];
    }
  }

  lemma LastNew(v: seq<nat>)
    requires |v| > 1 && v[|v| - 1] != v[|v| - 2]
    ensures Revisits(v) <==> Revisits(v[..|v| - 1]) || v[|v| - 1] in v[..|v| - 1]
  {
    var t, x := v[..|v| - 1], v[|v| - 1];
    if Revisits(v) {
      var i, j, k :| 0 <= i < k < j < |v| && v[i] == v[j] && v[k] != v[i];
      if j < |t| { assert t[i] == t[j] && t[k] != t[i]; } else { assert t[i] == x; }
    }
    if Revisits(t) {
      var i, j, k :| 0 <= i < k < j < |t| && t[i] == t[j] && t[k] != t[i];
      assert v[i] == v[j] && v[k] != v[i];
    }
    if x in t {
      var i :| 0 <= i < |t| && t[i] == x;
      assert v[i] == v[|v| - 1] && v[|v| - 2] != v[i] && i < |v| - 2;
    }
  }

  /**
    Compaction counts each visited position once, and lays them out in strictly increasing order,
    exactly when no position was visited again after another had been: neighbours are dropped before
    the sort, not after it.
   */
  lemma OrderIsExact(visited: seq<nat>)
    ensures |OrderOf(visited)| == |Elements(visited)| <==> !Revisits(visited)
    ensures !Revisits(visited) <==> forall i, j :: 0 <= i < j < |OrderOf(visited)| ==> OrderOf(visited)[i] < OrderOf(visited)[j]
  {
    var u, r := Unique(visited), OrderOf(visited);
    UniqueRepeats(visited);
    DistinctCount(u);
    assert Elements(u) == Elements(visited);
    DistinctCount(r);
    assert Elements(r) == Elements(visited);
    if NoRepeats(r) { AscendingStrict(r); }
  }

  lemma AscendingStrict(r: seq<nat>)
    requires Ascending(r) && NoRepeats(r)
    ensures forall i, j :: 0 <= i < j < |r| ==> r[i] < r[j]
  {
    if r != [] {
      var t := r[..|r| - 1];
      AscendingStrict(t);
      forall i, j | 0 <= i < j < |r| ensures r[i] < r[j] {
        if j == |r| - 1 {
          assert r[j - 1] <= r[j] && r[j - 1] != r[j];
          if i < j - 1 { assert t[i] < t[j - 1]; }
        } else {
          assert t[i] < t[j];
        }
      }
    }
  }

  /** A run that returns to a position: its row is laid out twice, and the count is too high. */
  lemma RevisitIsCountedTwice()
    ensures |OrderOf([0, 1, 0])| > |Elements([0, 1, 0])|
  {
    var v: seq<nat> := [0, 1, 0];
    assert v[0] == v[2] && v[1] != v[0];
    OrderIsExact(v);
    DistinctCount(OrderOf(v));
    assert Elements(OrderOf(v)) == Elements(v);
  }

  // ---- compaction in place ---------------------------------------------------------------------------------

  /** Whether position `m` of head `q` comes before position `to` of head `h` in the copying order. */
  predicate Before(q: nat, m: nat, h: nat, to: nat) { q < h || (q == h && m < to) }

  ghost predicate Compacting<T>(d: Dims, s: seq<T>, t: seq<T>, order: seq<nat>, h: nat, to: nat)
    requires RepeatedOk(d, s) && PositionsOk(d, order)
  {
    RepeatedOk(d, t) &&
    forall q: nat, p: nat :: q < d.qHeads && p < d.length ==>
      RepeatedRow(d, t, q, p) == if p < |order| && Before(q, p, h, to) then RepeatedRow(d, s, q, order[p]) else RepeatedRow(d, s, q, p)
  }

  /** After compaction, row `i` of every head is the old row at the `i`-th position of the order; later rows stay. */
  ghost predicate Compacted<T>(d: Dims, s: seq<T>, t: seq<T>, order: seq<nat>)
    requires RepeatedOk(d, s) && PositionsOk(d, order)
  {
    RepeatedOk(d, t) &&
    forall q: nat, p: nat :: q < d.qHeads && p < d.length ==>
      RepeatedRow(d, t, q, p) == RepeatedRow(d, s, q, if p < |order| then order[p] else p)
  }

  lemma CompactingStarts<T>(d: Dims, s: seq<T>, order: seq<nat>)
    requires RepeatedOk(d, s) && PositionsOk(d, order)
    ensures Compacting(d, s, s, order, 0, 0)
  {
  }

  lemma CompactOne<T>(d: Dims, s: seq<T>, t: seq<T>, t': seq<T>, order: seq<nat>, h: nat, i: nat)
    requires RepeatedOk(d, s) && RepeatedOk(d, t) && PositionsOk(d, order) && h < d.qHeads && i < |order| <= d.length
    requires Compacting(d, s, t, order, h, i) && RowReplaced(d, t, t', h, i, RepeatedRow(d, s, h, order[i]))
    ensures Compacting(d, s, t', order, h, i + 1)
  {
    hide RepeatedRow;
  }

  lemma NextHead<T>(d: Dims, s: seq<T>, t: seq<T>, order: seq<nat>, h: nat)
    requires RepeatedOk(d, s) && PositionsOk(d, order) && Compacting(d, s, t, order, h, |order|)
    ensures Compacting(d, s, t, order, h + 1, 0)
  {
    hide RepeatedRow;
  }

  lemma CompactedAll<T>(d: Dims, s: seq<T>, t: seq<T>, order: seq<nat>)
    requires RepeatedOk(d, s) && PositionsOk(d, order) && Compacting(d, s, t, order, d.qHeads, 0)
    ensures Compacted(d, s, t, order)
  {
    hide RepeatedRow;
  }

  /** Copy the rows gathered from one cache tensor back to its front; `s` is the tensor gathered from. */
  method CompactRows<T>(d: Dims, cache: array<T>, order: seq<nat>)
    requires RepeatedOk(d, cache[..]) && PositionsOk(d, order) && |order| <= d.length
    modifies cache
    ensures Compacted(d, old(cache[..]), cache[..], order)
  {
    hide Compacting, Compacted, RowReplaced, RepeatedRow;
    var s := cache[..];
    CompactingStarts(d, s, order);
    for h := 0 to d.qHeads
      invariant RepeatedOk(d, cache[..]) && Compacting(d, s, cache[..], order, h, 0)
    {
      for i := 0 to |order|
        invariant RepeatedOk(d, cache[..]) && Compacting(d, s, cache[..], order, h, i)
      {
        ghost var before := cache[..];
        WriteRow(d, cache, h, i, RepeatedRow(d, s, h, order[i]));
        ReplacedOk(d, before, cache[..], h, i, RepeatedRow(d, s, h, order[i]));
        CompactOne(d, s, before, cache[..], order, h, i);
      }
      NextHead(d, s, cache[..], order, h);
    }
    CompactedAll(d, s, cache[..], order);
  }

  lemma ReplacedOk<T>(d: Dims, s: seq<T>, t: seq<T>, q: nat, p: nat, row: seq<T>)
    requires RepeatedOk(d, s) && q < d.qHeads && p < d.length && RowReplaced(d, s, t, q, p, row)
    ensures RepeatedOk(d, t)
  {
  }

  // ---- the caches --------------------------------------------------------------------------------------------

  /** One layer of the cache that repeats key heads. */
  class HKVCache<T> {
    const d: Dims
    const k: array<T>
    const v: array<T>
    var count: nat
    var visited: seq<nat>

    ghost predicate Valid()
      reads this, k, v
    {
      k != v && RepeatedOk(d, k[..]) && RepeatedOk(d, v[..]) && PositionsOk(d, visited)
    }

    constructor (d: Dims, k: array<T>, v: array<T>)
      requires k != v && RepeatedOk(d, k[..]) && RepeatedOk(d, v[..])
      ensures Valid() && this.d == d && this.k == k && this.v == v && count == 0 && visited == []
    {
      this.d, this.k, this.v, count, visited := d, k, v, 0, [];
    }

    method VisitRange(n: nat)
      requires Valid() && count + n <= d.length
      modifies this`visited
      ensures visited == old(visited) + Range(count, n) && PositionsOk(d, visited)
    {
      for i := 0 to n
        invariant visited == old(visited) + Range(count, i) && PositionsOk(d, visited)
      {
        visited := visited + [count + i];
      }
    }

    /** Append `n` new rows after the ones counted. */
    method Append(n: nat, keys: seq<T>, values: seq<T>)
      requires Valid() && HeadInput(d, keys, n) && HeadInput(d, values, n) && count + n <= d.length
      modifies this, k, v
      ensures Valid() && count == old(count) + n && visited == old(visited) + Range(old(count), n)
      ensures WrittenRepeated(d, old(k[..]), k[..], keys, Range(old(count), n))
      ensures WrittenRepeated(d, old(v[..]), v[..], values, Range(old(count), n))
    {
      hide WrittenRepeated, RepeatedOk, HeadInput, Range, PositionsOk;
      ghost var ks, vs := k[..], v[..];
      AppendRows(d, k, keys, n, count);
      AppendRows(d, v, values, n, count);
      WrittenOk(d, ks, k[..], keys, Range(count, n));
      WrittenOk(d, vs, v[..], values, Range(count, n));
      VisitRange(n);
      count := count + n;
    }

    /** Write new rows to given positions; not `ok` when their numbers differ, which aborts. */
    method Insert(n: nat, keys: seq<T>, values: seq<T>, pos: seq<nat>) returns (ok: bool)
      requires Valid() && HeadInput(d, keys, n) && HeadInput(d, values, n) && PositionsOk(d, pos)
      modifies this, k, v
      ensures Valid() && ok == (|pos| == n) && count == old(count)
      ensures !ok ==> visited == old(visited) && k[..] == old(k[..]) && v[..] == old(v[..])
      ensures ok ==> visited == old(visited) + pos
      ensures ok ==> WrittenRepeated(d, old(k[..]), k[..], keys, pos) && WrittenRepeated(d, old(v[..]), v[..], values, pos)
    {
      hide WrittenRepeated, RepeatedOk, HeadInput;
      ok := |pos| == n;
      if ok {
        ghost var ks, vs := k[..], v[..];
        InsertRows(d, k, keys, pos);
        InsertRows(d, v, values, pos);
        WrittenOk(d, ks, k[..], keys, pos);
        WrittenOk(d, vs, v[..], values, pos);
        visited := visited + pos;
      }
    }

    /** The rows of all heads at given positions, of the keys and of the values. */
    method Query(pos: seq<nat>) returns (keys: seq<seq<seq<T>>>, values: seq<seq<seq<T>>>)
      requires Valid() && PositionsOk(d, pos)
      ensures |keys| == |values| == d.qHeads
      ensures forall q: nat :: q < d.qHeads ==> |keys[q]| == |values[q]| == |pos|
      ensures forall q: nat, i: nat :: q < d.qHeads && i < |pos| ==>
                keys[q][i] == RepeatedRow(d, k[..], q, pos[i]) && values[q][i] == RepeatedRow(d, v[..], q, pos[i])
    {
      hide RepeatedRow;
      var ks, vs := k[..], v[..];
      keys := seq(d.qHeads, q requires 0 <= q < d.qHeads => Gather(d, ks, q, pos));
      values := seq(d.qHeads, q requires 0 <= q < d.qHeads => Gather(d, vs, q, pos));
    }

    /** Lay the rows of the visited positions out at the front, in increasing order, and count them. */
    method Reorder()
      requires Valid() && |OrderOf(visited)| <= d.length
      modifies this`count, k, v
      ensures Valid() && visited == old(visited) && count == |OrderOf(visited)|
      ensures PositionsOk(d, OrderOf(visited))
      ensures Compacted(d, old(k[..]), k[..], OrderOf(visited)) && Compacted(d, old(v[..]), v[..], OrderOf(visited))
    {
      hide Compacted, RepeatedOk, OrderOf;
      OrderPositions(d, visited);
      var order := OrderOf(visited);
      count := |order|;
      ghost var ks, vs := k[..], v[..];
      CompactRows(d, k, order);
      CompactRows(d, v, order);
      CompactedOk(d, ks, k[..], order);
      CompactedOk(d, vs, v[..], order);
    }
  }

  function Gather<T>(d: Dims, s: seq<T>, q: nat, pos: seq<nat>): (r: seq<seq<T>>)
    requires RepeatedOk(d, s) && q < d.qHeads && PositionsOk(d, pos)
    ensures |r| == |pos| && forall i :: 0 <= i < |pos| ==> r[i] == RepeatedRow(d, s, q, pos[i])
  {
    seq(|pos|, i requires 0 <= i < |pos| => RepeatedRow(d, s, q, pos[i]))
  }

  lemma WrittenOk<T>(d: Dims, s: seq<T>, t: seq<T>, input: seq<T>, pos: seq<nat>)
    requires RepeatedOk(d, s) && HeadInput(d, input, |pos|) && WrittenRepeated(d, s, t, input, pos)
    ensures RepeatedOk(d, t)
  {
  }

  lemma CompactedOk<T>(d: Dims, s: seq<T>, t: seq<T>, order: seq<nat>)
    requires RepeatedOk(d, s) && PositionsOk(d, order) && Compacted(d, s, t, order)
    ensures RepeatedOk(d, t)
  {
  }

  lemma OrderPositions(d: Dims, visited: seq<nat>)
    requires PositionsOk(d, visited)
    ensures PositionsOk(d, OrderOf(visited))
  {
    var r := OrderOf(visited);
    forall i | 0 <= i < |r| ensures r[i] < d.length {
      assert r[i] in r;
      var j :| 0 <= j < |visited| && visited[j] == r[i];
    }
  }

  /** One layer of the plain cache. */
  class HKVCacheFast<T> {
    const d: Dims
    const k: array<T>
    const v: array<T>

    ghost predicate Valid()
      reads k, v
    {
      k != v && PlainOk(d, k[..]) && PlainOk(d, v[..])
    }

    constructor (d: Dims, k: array<T>, v: array<T>)
      requires k != v && PlainOk(d, k[..]) && PlainOk(d, v[..])
      ensures Valid() && this.d == d && this.k == k && this.v == v
    {
      this.d, this.k, this.v := d, k, v;
    }

    /** Write new rows to given positions; not `ok` when their numbers differ, which aborts. */
    method Update(n: nat, keys: seq<T>, values: seq<T>, pos: seq<nat>) returns (ok: bool)
      requires Valid() && PositionInput(d, keys, n) && PositionInput(d, values, n) && PositionsOk(d, pos)
      modifies k, v
      ensures Valid() && ok == (|pos| == n)
      ensures !ok ==> k[..] == old(k[..]) && v[..] == old(v[..])
      ensures ok ==> WrittenPlain(d, old(k[..]), k[..], keys, pos) && WrittenPlain(d, old(v[..]), v[..], values, pos)
    {
      hide WrittenPlain, PlainOk, PositionInput;
      ok := |pos| == n;
      if ok {
        ghost var ks, vs := k[..], v[..];
        PlaceRows(d, k, keys, pos);
        PlaceRows(d, v, values, pos);
        PlainWrittenOk(d, ks, k[..], keys, pos);
        PlainWrittenOk(d, vs, v[..], values, pos);
      }
    }
  }

  lemma PlainWrittenOk<T>(d: Dims, s: seq<T>, t: seq<T>, input: seq<T>, pos: seq<nat>)
    requires PlainOk(d, s) && PositionInput(d, input, |pos|) && WrittenPlain(d, s, t, input, pos)
    ensures PlainOk(d, t)
  {
  }
}
