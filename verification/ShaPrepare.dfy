/**
  Preparing a parameter file for the per-head form: the weights and scales of each projection are
  cut into heads, and the quantization parameters of each node are copied to every head, under new
  names.  Entering a name twice, or copying a zero point that is not there, aborts.
 */
module ShaPrepare {
  import opened Positions
  import opened Tensors
  import opened TensorHeads
  import opened ShaAttention
  import opened ShaTheorem
  import opened ShaNames

  type Dict<T> = map<string, Tensor<T>>

  datatype Entry<T> = Entry(key: Key, value: Tensor<T>)

  // ---- entering parameters -------------------------------------------------------------------------------

  /** Enter the parameters of a plan one by one; a name that is already there aborts. */
  function PushAll<T>(d: Dict<T>, plan: seq<Entry<T>>): Option<Dict<T>>
    decreases |plan|
  {
    if plan == [] then Some(d)
    else
      var n := NameOf(plan[0].key);
      if n in d then None else PushAll(d[n := plan[0].value], plan[1..])
  }

  ghost predicate Distinct<T>(plan: seq<Entry<T>>) {
    forall i, j :: 0 <= i < j < |plan| ==> plan[i].key != plan[j].key
  }

  ghost predicate AllProper<T>(plan: seq<Entry<T>>) { forall i :: 0 <= i < |plan| ==> Proper(plan[i].key) }

  ghost predicate NoneEntered<T>(d: Dict<T>, plan: seq<Entry<T>>) {
    forall i :: 0 <= i < |plan| ==> NameOf(plan[i].key) !in d
  }

  /** A plan of distinct parameters goes through exactly when none of their names is taken. */
  lemma {:induction false} PushAllIff<T>(d: Dict<T>, plan: seq<Entry<T>>)
    requires Distinct(plan) && AllProper(plan)
    ensures PushAll(d, plan).Some? <==> NoneEntered(d, plan)
    decreases |plan|
  {
    hide NameOf, Proper;
    if plan != [] {
      var n, e := NameOf(plan[0].key), d[NameOf(plan[0].key) := plan[0].value];
      PushAllIff(e, plan[1..]);
      if NoneEntered(d, plan) {
        forall i | 0 <= i < |plan[1..]| ensures NameOf(plan[1..][i].key) !in e {
          assert plan[1..][i] == plan[i + 1];
          if NameOf(plan[i + 1].key) == n { NamesApart(plan[0].key, plan[i + 1].key); }
        }
      }
      if n !in d && NoneEntered(e, plan[1..]) {
        forall i | 0 <= i < |plan| ensures NameOf(plan[i].key) !in d {
          if i > 0 { assert plan[i] == plan[1..][i - 1]; }
        }
      }
    }
  }

  /** What is in the dictionary afterwards: what was there, and the plan. */
  lemma {:induction false} PushAllHolds<T>(d: Dict<T>, plan: seq<Entry<T>>)
    requires PushAll(d, plan).Some?
    ensures var e := PushAll(d, plan).value;
            && (forall n :: n in d ==> n in e && e[n] == d[n])
            && (forall i :: 0 <= i < |plan| ==> NameOf(plan[i].key) in e && e[NameOf(plan[i].key)] == plan[i].value)
            && (forall n :: n in e ==> n in d || exists i :: 0 <= i < |plan| && n == NameOf(plan[i].key))
    decreases |plan|
  {
    hide NameOf;
    if plan != [] {
      var n, f := NameOf(plan[0].key), d[NameOf(plan[0].key) := plan[0].value];
      PushAllHolds(f, plan[1..]);
      var e := PushAll(f, plan[1..]).value;
      assert n in f && n in e && e[n] == plan[0].value;
      forall i | 0 <= i < |plan| ensures NameOf(plan[i].key) in e && e[NameOf(plan[i].key)] == plan[i].value {
        if i > 0 { assert plan[i] == plan[1..][i - 1]; }
      }
      forall k | k in e ensures k in d || exists i :: 0 <= i < |plan| && k == NameOf(plan[i].key) {
        if k !in d && k != n {
          var i :| 0 <= i < |plan[1..]| && k == NameOf(plan[1..][i].key);
          assert plan[i + 1] == plan[1..][i];
        }
      }
    }
  }

  lemma {:induction false} PushAllConcat<T>(d: Dict<T>, a: seq<Entry<T>>, b: seq<Entry<T>>)
    ensures PushAll(d, a + b) == if PushAll(d, a).Some? then PushAll(PushAll(d, a).value, b) else None
    decreases |a|
  {
    hide NameOf;
    if a == [] {
      assert a + b == b;
    } else {
      assert (a + b)[0] == a[0] && (a + b)[1..] == a[1..] + b;
      if NameOf(a[0].key) !in d { PushAllConcat(d[NameOf(a[0].key) := a[0].value], a[1..], b); }
    }
  }

  // ---- the steps of the preparation ----------------------------------------------------------------------

  /** One stretch of pushes: a projection's weights, one of its scales, a norm's weights, a node's quantization. */
  datatype Step = WeightStep(proj: string, count: nat) | ScaleStep(proj: string, count: nat, suffix: string)
                | NormStep(norm: string, count: nat) | QdqStep(node: string, count: nat)

  datatype Placed = Placed(layer: nat, step: Step)

  predicate StepOk(s: Step) {
    match s
    case WeightStep(p, n) => IsPlain(p) && n > 0
    case ScaleStep(p, n, suffix) => IsPlain(p) && n > 0 && (suffix == SCALE1 || suffix == SCALE2)
    case NormStep(p, n) => IsPlain(p) && n > 0
    case QdqStep(p, n) => IsPlain(p) && n > 0
  }

  function BaseOf(s: Step): string {
    match s
    case WeightStep(p, _) => p + "."
    case ScaleStep(p, _, _) => p + "."
    case NormStep(p, _) => p + "."
    case QdqStep(p, _) => p + "_h"
  }

  predicate SuffixOf(s: Step, suffix: string) {
    match s
    case WeightStep(_, _) => suffix == WEIGHT
    case ScaleStep(_, _, x) => suffix == x
    case NormStep(_, _) => suffix == WEIGHT || suffix == SCALE || suffix == ZERO
    case QdqStep(_, _) => suffix == FAKE_SCALE || suffix == FAKE_ZERO
  }

  /** What a projection's weight must look like to be cut into heads. */
  predicate Cuttable<T>(d: Dict<T>, dim: nat, p: Placed) {
    p.step.WeightStep? ==>
      var n := PlainName(p.layer, p.step.proj, WEIGHT);
      n in d ==> d[n].WF() && d[n].d3 == Times(p.step.count, dim)
  }

  /** A node whose scale is there and whose zero point is not. */
  predicate Aborts<T>(d: Dict<T>, p: Placed) {
    p.step.QdqStep? && PlainName(p.layer, p.step.node, FAKE_SCALE) in d && PlainName(p.layer, p.step.node, FAKE_ZERO) !in d
  }

  function HeadWeight<T>(w: Tensor<T>, h: nat, count: nat, dim: nat): Tensor<T>
    requires w.WF() && w.d3 == Times(count, dim) && h < count
  {
    HeadBounds(h, count, dim);
    Slice3(w, Times(h, dim), Times(h + 1, dim))
  }

  function WeightEntries<T>(w: Tensor<T>, layer: nat, base: string, count: nat, dim: nat, n: nat): seq<Entry<T>>
    requires w.WF() && w.d3 == Times(count, dim) && n <= count
  {
    seq(n, h requires 0 <= h < n => Entry(Key(layer, base, h, WEIGHT), HeadWeight(w, h, count, dim)))
  }

  function ScaleEntries<T>(w: Tensor<T>, layer: nat, base: string, suffix: string, count: nat, n: nat): seq<Entry<T>>
    requires count > 0 && n <= count
  {
    seq(n, h requires 0 <= h < n => Entry(Key(layer, base, h, suffix), Flat(Part(w.data, count, h))))
  }

  function OptionalEntry<T>(t: Option<Tensor<T>>, key: Key): seq<Entry<T>> {
    if t.Some? then [Entry(key, t.value)] else []
  }

  /** What a norm adds for head `k`. */
  function HeadNormEntries<T>(w: NormWeight<T>, layer: nat, base: string, k: nat): seq<Entry<T>> {
    [Entry(Key(layer, base, k, WEIGHT), w.weight)] + OptionalEntry(w.scale, Key(layer, base, k, SCALE))
    + OptionalEntry(w.zeroPoint, Key(layer, base, k, ZERO))
  }

  function NormEntries<T>(w: NormWeight<T>, layer: nat, base: string, n: nat): seq<Entry<T>> {
    if n == 0 then []
    else NormEntries(w, layer, base, n - 1) + HeadNormEntries(w, layer, base, n - 1)
  }

  function QdqEntries<T>(q: Quant<T>, layer: nat, base: string, n: nat): seq<Entry<T>> {
    if n == 0 then []
    else QdqEntries(q, layer, base, n - 1)
         + [Entry(Key(layer, base, n - 1, FAKE_SCALE), q.scale), Entry(Key(layer, base, n - 1, FAKE_ZERO), q.zeroPoint)]
  }

  function Lookup<T>(d: Dict<T>, n: string): Option<Tensor<T>> { if n in d then Some(d[n]) else None }

  /** The pushes of one step, given the parameters without heads. */
  function Entries<T>(d: Dict<T>, dim: nat, p: Placed): seq<Entry<T>>
    requires StepOk(p.step) && Cuttable(d, dim, p) && !Aborts(d, p)
  {
    var l, base := p.layer, BaseOf(p.step);
    match p.step
    case WeightStep(proj, count) =>
      var n := PlainName(l, proj, WEIGHT);
      if n in d then WeightEntries(d[n], l, base, count, dim, count) else []
    case ScaleStep(proj, count, suffix) =>
      var n := PlainName(l, proj, suffix);
      if n in d then ScaleEntries(d[n], l, base, suffix, count, count) else []
    case NormStep(norm, count) =>
      var n := PlainName(l, norm, WEIGHT);
      if n in d then NormEntries(NormWeight(d[n], Lookup(d, PlainName(l, norm, SCALE)), Lookup(d, PlainName(l, norm, ZERO))), l, base, count)
      else []
    case QdqStep(node, count) =>
      var n := PlainName(l, node, FAKE_SCALE);
      if n in d then QdqEntries(Quant(d[n], d[PlainName(l, node, FAKE_ZERO)]), l, base, count) else []
  }

  /** The entries of a list belong to one layer, one node, and some of its suffixes. */
  ghost predicate From<T>(es: seq<Entry<T>>, p: Placed, heads: nat) {
    forall i :: 0 <= i < |es| ==>
      es[i].key.layer == p.layer && es[i].key.base == BaseOf(p.step) && es[i].key.head < heads && SuffixOf(p.step, es[i].key.suffix)
  }

  lemma DistinctConcat<T>(a: seq<Entry<T>>, b: seq<Entry<T>>)
    requires Distinct(a) && Distinct(b)
    requires forall i, j :: 0 <= i < |a| && 0 <= j < |b| ==> a[i].key != b[j].key
    ensures Distinct(a + b)
  {
    forall i, j | 0 <= i < j < |a + b| ensures (a + b)[i].key != (a + b)[j].key {
      if i < |a| <= j { assert a[i].key != b[j - |a|].key; }
      else if |a| <= i { assert b[i - |a|].key != b[j - |a|].key; }
    }
  }

  lemma NormMore<T>(w: NormWeight<T>, p: Placed, k: nat)
    requires p.step.NormStep?
    ensures var more := HeadNormEntries(w, p.layer, BaseOf(p.step), k);
            From(more, p, k + 1) && Distinct(more) && forall i :: 0 <= i < |more| ==> more[i].key.head == k
  {
  }

  lemma {:induction false} NormFrom<T>(w: NormWeight<T>, p: Placed, n: nat)
    requires p.step.NormStep?
    ensures var es := NormEntries(w, p.layer, BaseOf(p.step), n);
            From(es, p, n) && Distinct(es)
  {
    hide HeadNormEntries;
    if n > 0 {
      NormFrom(w, p, n - 1);
      NormMore(w, p, n - 1);
      var es, more := NormEntries(w, p.layer, BaseOf(p.step), n - 1), HeadNormEntries(w, p.layer, BaseOf(p.step), n - 1);
      DistinctConcat(es, more);
    }
  }

  lemma {:induction false} QdqFrom<T>(q: Quant<T>, p: Placed, n: nat)
    requires p.step.QdqStep?
    ensures var es := QdqEntries(q, p.layer, BaseOf(p.step), n);
            From(es, p, n) && Distinct(es)
  {
    if n > 0 {
      QdqFrom(q, p, n - 1);
      var es, k := QdqEntries(q, p.layer, BaseOf(p.step), n - 1), n - 1;
      DistinctConcat(es, [Entry(Key(p.layer, BaseOf(p.step), k, FAKE_SCALE), q.scale), Entry(Key(p.layer, BaseOf(p.step), k, FAKE_ZERO), q.zeroPoint)]);
    }
  }

  lemma EntriesFrom<T>(d: Dict<T>, dim: nat, p: Placed)
    requires StepOk(p.step) && Cuttable(d, dim, p) && !Aborts(d, p)
    ensures From(Entries(d, dim, p), p, p.step.count) && Distinct(Entries(d, dim, p))
  {
    hide PlainName;
    match p.step
    case WeightStep(_, _) =>
    case ScaleStep(_, _, _) =>
    case NormStep(norm, count) =>
      var n := PlainName(p.layer, norm, WEIGHT);
      if n in d { NormFrom(NormWeight(d[n], Lookup(d, PlainName(p.layer, norm, SCALE)), Lookup(d, PlainName(p.layer, norm, ZERO))), p, count); }
    case QdqStep(node, count) =>
      var n := PlainName(p.layer, node, FAKE_SCALE);
      if n in d { QdqFrom(Quant(d[n], d[PlainName(p.layer, node, FAKE_ZERO)]), p, count); }
  }

  lemma FromProper<T>(es: seq<Entry<T>>, p: Placed, heads: nat)
    requires StepOk(p.step) && From(es, p, heads)
    ensures AllProper(es)
  {
    forall i | 0 <= i < |es| ensures Proper(es[i].key) {
      var b := BaseOf(p.step);
      assert b[|b| - 1] == '.' || b[|b| - 1] == 'h';
    }
  }

  // ---- the whole preparation -------------------------------------------------------------------------------

  ghost predicate StepsFit<T>(d: Dict<T>, dim: nat, ps: seq<Placed>) {
    forall i :: 0 <= i < |ps| ==> StepOk(ps[i].step) && Cuttable(d, dim, ps[i])
  }

  ghost predicate NoneAborts<T>(d: Dict<T>, ps: seq<Placed>) { forall i :: 0 <= i < |ps| ==> !Aborts(d, ps[i]) }

  /** The dictionaries agree on every parameter without heads. */
  ghost predicate SamePlain<T>(d: Dict<T>, e: Dict<T>) {
    forall l: nat, b: string, s: string :: IsPlain(b) && IsSuffix(s) ==> Lookup(d, PlainName(l, b, s)) == Lookup(e, PlainName(l, b, s))
  }

  /** The steps one after another, each reading what is there by then. */
  ghost function Prepared<T>(d: Dict<T>, dim: nat, ps: seq<Placed>): Option<Dict<T>>
    requires StepsFit(d, dim, ps)
    decreases |ps|
  {
    if ps == [] then Some(d)
    else if Aborts(d, ps[0]) then None
    else
      var e := PushAll(d, Entries(d, dim, ps[0]));
      if e.None? then None
      else
        StepKeepsPlain(d, dim, ps[0]);
        FitsStill(d, e.value, dim, ps);
        Prepared(e.value, dim, ps[1..])
  }

  lemma StepKeepsPlain<T>(d: Dict<T>, dim: nat, p: Placed)
    requires StepOk(p.step) && Cuttable(d, dim, p) && !Aborts(d, p) && PushAll(d, Entries(d, dim, p)).Some?
    ensures SamePlain(d, PushAll(d, Entries(d, dim, p)).value)
  {
    hide PlainName, Entries, NameOf, Proper, From;
    var es, e := Entries(d, dim, p), PushAll(d, Entries(d, dim, p)).value;
    EntriesFrom(d, dim, p);
    FromProper(es, p, p.step.count);
    PushAllHolds(d, es);
    forall l: nat, b: string, s: string | IsPlain(b) && IsSuffix(s) ensures Lookup(d, PlainName(l, b, s)) == Lookup(e, PlainName(l, b, s)) {
      if PlainName(l, b, s) in e && PlainName(l, b, s) !in d {
        var i :| 0 <= i < |es| && PlainName(l, b, s) == NameOf(es[i].key);
        PlainApart(es[i].key, l, b, s);
      }
    }
  }

  lemma FitsStill<T>(d: Dict<T>, e: Dict<T>, dim: nat, ps: seq<Placed>)
    requires StepsFit(d, dim, ps) && SamePlain(d, e)
    ensures StepsFit(e, dim, ps) && (ps != [] ==> StepsFit(e, dim, ps[1..]) && StepsFit(d, dim, ps[1..]))
  {
    hide PlainName;
    forall i | 0 <= i < |ps| ensures StepOk(ps[i].step) && Cuttable(e, dim, ps[i]) {
      if ps[i].step.WeightStep? {
        assert Lookup(d, PlainName(ps[i].layer, ps[i].step.proj, WEIGHT)) == Lookup(e, PlainName(ps[i].layer, ps[i].step.proj, WEIGHT));
      }
    }
  }

  /** A step depends only on parameters without heads. */
  lemma SameEntries<T>(d: Dict<T>, e: Dict<T>, dim: nat, p: Placed)
    requires SamePlain(d, e) && StepOk(p.step) && Cuttable(d, dim, p)
    ensures Cuttable(e, dim, p) && Aborts(d, p) == Aborts(e, p)
    ensures !Aborts(d, p) ==> Entries(d, dim, p) == Entries(e, dim, p)
  {
    hide PlainName, WeightEntries, ScaleEntries, NormEntries, QdqEntries;
    match p.step
    case WeightStep(proj, _) => SameLookup(d, e, p.layer, proj, WEIGHT);
    case ScaleStep(proj, _, suffix) => SameLookup(d, e, p.layer, proj, suffix);
    case NormStep(norm, _) =>
      SameLookup(d, e, p.layer, norm, WEIGHT);
      SameLookup(d, e, p.layer, norm, SCALE);
      SameLookup(d, e, p.layer, norm, ZERO);
    case QdqStep(node, _) =>
      SameLookup(d, e, p.layer, node, FAKE_SCALE);
      SameLookup(d, e, p.layer, node, FAKE_ZERO);
  }

  lemma SameLookup<T>(d: Dict<T>, e: Dict<T>, l: nat, b: string, s: string)
    requires SamePlain(d, e) && IsPlain(b) && IsSuffix(s)
    ensures var n := PlainName(l, b, s);
            (n in d <==> n in e) && (n in d ==> d[n] == e[n])
  {
    assert Lookup(d, PlainName(l, b, s)) == Lookup(e, PlainName(l, b, s));
  }

  /** All pushes of all steps, given the parameters without heads. */
  ghost function Plan<T>(d: Dict<T>, dim: nat, ps: seq<Placed>): seq<Entry<T>>
    requires StepsFit(d, dim, ps) && NoneAborts(d, ps)
    decreases |ps|
  {
    if ps == [] then []
    else
      TailFits(d, dim, ps);
      Entries(d, dim, ps[0]) + Plan(d, dim, ps[1..])
  }

  lemma TailFits<T>(d: Dict<T>, dim: nat, ps: seq<Placed>)
    requires ps != [] && StepsFit(d, dim, ps)
    ensures StepsFit(d, dim, ps[1..]) && (NoneAborts(d, ps) <==> !Aborts(d, ps[0]) && NoneAborts(d, ps[1..]))
  {
    hide Cuttable, Aborts;
    if !Aborts(d, ps[0]) && NoneAborts(d, ps[1..]) {
      forall i | 0 <= i < |ps| ensures !Aborts(d, ps[i]) {
        if i > 0 { assert ps[i] == ps[1..][i - 1]; }
      }
    }
    if NoneAborts(d, ps) {
      forall i | 0 <= i < |ps[1..]| ensures !Aborts(d, ps[1..][i]) { assert ps[1..][i] == ps[i + 1]; }
    }
  }

  /** Reading as the steps go along, or all before the first: the pushes are the same. */
  lemma {:induction false} PreparedIsPlan<T>(d0: Dict<T>, d: Dict<T>, dim: nat, ps: seq<Placed>)
    requires StepsFit(d0, dim, ps) && StepsFit(d, dim, ps) && SamePlain(d0, d)
    ensures Prepared(d, dim, ps) == if NoneAborts(d0, ps) then PushAll(d, Plan(d0, dim, ps)) else None
    decreases |ps|
  {
    hide SamePlain, Cuttable, Aborts, Entries, NoneAborts;
    if ps == [] {
      NothingAborts(d0);
    } else {
      TailFits(d0, dim, ps);
      SameEntries(d0, d, dim, ps[0]);
      if !Aborts(d, ps[0]) {
        var es := Entries(d, dim, ps[0]);
        var e := PushAll(d, es);
        if NoneAborts(d0, ps) { PushAllConcat(d, es, Plan(d0, dim, ps[1..])); }
        if e.Some? {
          StepKeepsPlain(d, dim, ps[0]);
          FitsStill(d, e.value, dim, ps);
          SamePlainTrans(d0, d, e.value);
          PreparedIsPlan(d0, e.value, dim, ps[1..]);
        }
      }
    }
  }

  lemma NothingAborts<T>(d: Dict<T>)
    ensures NoneAborts(d, [])
  {
  }

  lemma SamePlainTrans<T>(d: Dict<T>, e: Dict<T>, f: Dict<T>)
    requires SamePlain(d, e) && SamePlain(e, f)
    ensures SamePlain(d, f)
  {
    hide PlainName, Lookup;
  }

  /** No two steps make a parameter of the same layer, node and suffix. */
  ghost predicate StepsApart(a: Placed, b: Placed) {
    a.layer != b.layer || BaseOf(a.step) != BaseOf(b.step) || forall s :: !(SuffixOf(a.step, s) && SuffixOf(b.step, s))
  }

  ghost predicate AllApart(ps: seq<Placed>) { forall i, j :: 0 <= i < j < |ps| ==> StepsApart(ps[i], ps[j]) }

  lemma {:induction false} PlanFrom<T>(d: Dict<T>, dim: nat, ps: seq<Placed>) returns (at: seq<nat>)
    requires StepsFit(d, dim, ps) && NoneAborts(d, ps)
    ensures var plan := Plan(d, dim, ps);
            && |at| == |plan|
            && (forall i :: 0 <= i < |plan| ==> at[i] < |ps| && plan[i] in Entries(d, dim, ps[at[i]]))
    decreases |ps|
  {
    hide Entries, Cuttable, Aborts;
    at := [];
    if ps != [] {
      TailFits(d, dim, ps);
      var tail := PlanFrom(d, dim, ps[1..]);
      var es, rest := Entries(d, dim, ps[0]), Plan(d, dim, ps[1..]);
      at := seq(|es| + |rest|, i requires 0 <= i < |es| + |rest| => if i < |es| then 0 else tail[i - |es|] + 1);
      var plan := Plan(d, dim, ps);
      forall i | 0 <= i < |plan| ensures at[i] < |ps| && plan[i] in Entries(d, dim, ps[at[i]]) {
        if i >= |es| { assert plan[i] == rest[i - |es|] && ps[1..][tail[i - |es|]] == ps[at[i]]; }
      }
    }
  }

  lemma ApartKeys<T>(d: Dict<T>, dim: nat, a: Placed, b: Placed, x: Entry<T>, y: Entry<T>)
    requires StepOk(a.step) && Cuttable(d, dim, a) && !Aborts(d, a) && StepOk(b.step) && Cuttable(d, dim, b) && !Aborts(d, b)
    requires StepsApart(a, b) && x in Entries(d, dim, a) && y in Entries(d, dim, b)
    ensures x.key != y.key
  {
    hide Entries, Cuttable, Aborts;
    EntriesFrom(d, dim, a);
    EntriesFrom(d, dim, b);
  }

  /** The names that the preparation makes are all different. */
  lemma {:induction false} PlanDistinct<T>(d: Dict<T>, dim: nat, ps: seq<Placed>)
    requires StepsFit(d, dim, ps) && NoneAborts(d, ps) && AllApart(ps)
    ensures Distinct(Plan(d, dim, ps)) && AllProper(Plan(d, dim, ps))
    decreases |ps|
  {
    hide Entries, Cuttable, Aborts, Proper, From, StepsApart;
    if ps != [] {
      TailFits(d, dim, ps);
      TailApart(ps);
      PlanDistinct(d, dim, ps[1..]);
      EntriesFrom(d, dim, ps[0]);
      FromProper(Entries(d, dim, ps[0]), ps[0], ps[0].step.count);
      var es, rest := Entries(d, dim, ps[0]), Plan(d, dim, ps[1..]);
      var at := PlanFrom(d, dim, ps[1..]);
      forall i, j | 0 <= i < |es| && 0 <= j < |rest| ensures es[i].key != rest[j].key {
        assert StepsApart(ps[0], ps[at[j] + 1]);
        ApartKeys(d, dim, ps[0], ps[1..][at[j]], es[i], rest[j]);
      }
      DistinctConcat(es, rest);
    }
  }

  lemma TailApart(ps: seq<Placed>)
    requires ps != [] && AllApart(ps)
    ensures AllApart(ps[1..])
  {
    hide StepsApart;
    forall i, j | 0 <= i < j < |ps[1..]| ensures StepsApart(ps[1..][i], ps[1..][j]) { assert StepsApart(ps[i + 1], ps[j + 1]); }
  }

  /**
    The preparation goes through exactly when every scale to be copied has its zero point and no
    name it makes was in the file before; never because it makes a name twice.
   */
  lemma PreparationTotal<T>(d: Dict<T>, dim: nat, ps: seq<Placed>)
    requires StepsFit(d, dim, ps) && AllApart(ps)
    ensures Prepared(d, dim, ps).Some? <==> NoneAborts(d, ps) && NoneEntered(d, Plan(d, dim, ps))
  {
    hide Plan, Prepared, Distinct, AllProper, NoneEntered, AllApart;
    PreparedIsPlan(d, d, dim, ps);
    if NoneAborts(d, ps) {
      PlanDistinct(d, dim, ps);
      PushAllIff(d, Plan(d, dim, ps));
    }
  }

  /** Everything a step makes is there after the preparation, and everything that was there still is. */
  lemma PreparedHolds<T>(d: Dict<T>, dim: nat, ps: seq<Placed>, i: nat)
    requires StepsFit(d, dim, ps) && Prepared(d, dim, ps).Some? && i < |ps|
    ensures !Aborts(d, ps[i])
    ensures var e := Prepared(d, dim, ps).value;
            && (forall n :: n in d ==> n in e && e[n] == d[n])
            && (forall x :: x in Entries(d, dim, ps[i]) ==> NameOf(x.key) in e && e[NameOf(x.key)] == x.value)
  {
    hide Prepared, Entries, NameOf;
    PreparedIsPlan(d, d, dim, ps);
    PushAllHolds(d, Plan(d, dim, ps));
    var plan, e := Plan(d, dim, ps), Prepared(d, dim, ps).value;
    forall x | x in Entries(d, dim, ps[i]) ensures NameOf(x.key) in e && e[NameOf(x.key)] == x.value {
      InPlan(d, dim, ps, i, x);
      var j :| 0 <= j < |plan| && plan[j] == x;
    }
  }

  lemma {:induction false} InPlan<T>(d: Dict<T>, dim: nat, ps: seq<Placed>, i: nat, x: Entry<T>)
    requires StepsFit(d, dim, ps) && NoneAborts(d, ps) && i < |ps| && x in Entries(d, dim, ps[i])
    ensures x in Plan(d, dim, ps)
    decreases |ps|
  {
    hide Entries, Cuttable, Aborts;
    TailFits(d, dim, ps);
    if i > 0 {
      assert ps[1..][i - 1] == ps[i];
      InPlan(d, dim, ps[1..], i - 1, x);
    }
  }
}
