/** The parameter file as an object that refuses a name it already has, and the loops that prepare it. */
module ShaParameterFile {
  import opened Positions
  import opened Tensors
  import opened ShaAttention
  import opened ShaTheorem
  import opened ShaNames
  import opened ShaPrepare

  class ParameterFile<T> {
    var data: Dict<T>

    constructor (data: Dict<T>)
      ensures this.data == data
    {
      this.data := data;
    }

    /** Enter a parameter; not `ok` means that the process aborts. */
    method Push(name: string, value: Tensor<T>) returns (ok: bool)
      modifies this
      ensures ok == (name !in old(data))
      ensures data == if ok then old(data)[name := value] else old(data)
    {
      ok := name !in data;
      if ok { data := data[name := value]; }
    }
  }

  /** One more push: the plan goes through so far, and is either stuck here or goes on. */
  lemma PushOneMore<T>(d: Dict<T>, a: seq<Entry<T>>, x: Entry<T>, e: Dict<T>)
    requires PushAll(d, a) == Some(e)
    ensures PushAll(d, a + [x]) == if NameOf(x.key) in e then None else Some(e[NameOf(x.key) := x.value])
  {
    hide NameOf;
    PushAllConcat(d, a, [x]);
    assert [x][1..] == [];
  }

  /** Once stuck, always stuck. */
  lemma StuckStays<T>(d: Dict<T>, a: seq<Entry<T>>, b: seq<Entry<T>>)
    requires PushAll(d, a).None? && |a| <= |b| && a == b[..|a|]
    ensures PushAll(d, b).None?
  {
    hide NameOf;
    assert b == a + b[|a|..];
    PushAllConcat(d, a, b[|a|..]);
  }

  /** Cut a projection's weight into heads. */
  method CutWeight<T>(f: ParameterFile<T>, dim: nat, layer: nat, proj: string, count: nat) returns (ok: bool)
    requires StepOk(WeightStep(proj, count)) && Cuttable(f.data, dim, Placed(layer, WeightStep(proj, count)))
    modifies f
    ensures var e := PushAll(old(f.data), Entries(old(f.data), dim, Placed(layer, WeightStep(proj, count))));
            ok == e.Some? && (ok ==> f.data == e.value)
  {
    hide PlainName, NameOf;
    var name := PlainName(layer, proj, WEIGHT);
    if name !in f.data { return true; }
    var weight := f.data[name];
    ghost var d, base := f.data, BaseOf(WeightStep(proj, count));
    ghost var es := WeightEntries(weight, layer, base, count, dim, count);
    for h := 0 to count
      invariant PushAll(d, WeightEntries(weight, layer, base, count, dim, h)) == Some(f.data)
    {
      ghost var now := WeightEntries(weight, layer, base, count, dim, h);
      ghost var x := Entry(Key(layer, base, h, WEIGHT), HeadWeight(weight, h, count, dim));
      PushOneMore(d, now, x, f.data);
      assert now + [x] == WeightEntries(weight, layer, base, count, dim, h + 1);
      ok := f.Push(NameOf(Key(layer, proj + ".", h, WEIGHT)), HeadWeight(weight, h, count, dim));
      if !ok { StuckStays(d, now + [x], es); return; }
    }
    ok := true;
  }

  /** Cut one of a projection's scales into heads. */
  method CutScale<T>(f: ParameterFile<T>, dim: nat, layer: nat, proj: string, count: nat, suffix: string) returns (ok: bool)
    requires StepOk(ScaleStep(proj, count, suffix))
    modifies f
    ensures var e := PushAll(old(f.data), Entries(old(f.data), dim, Placed(layer, ScaleStep(proj, count, suffix))));
            ok == e.Some? && (ok ==> f.data == e.value)
  {
    hide PlainName, NameOf;
    var name := PlainName(layer, proj, suffix);
    if name !in f.data { return true; }
    var scale := f.data[name];
    ghost var d, base := f.data, BaseOf(ScaleStep(proj, count, suffix));
    ghost var es := ScaleEntries(scale, layer, base, suffix, count, count);
    for h := 0 to count
      invariant PushAll(d, ScaleEntries(scale, layer, base, suffix, count, h)) == Some(f.data)
    {
      ghost var now := ScaleEntries(scale, layer, base, suffix, count, h);
      ghost var x := Entry(Key(layer, base, h, suffix), Flat(Part(scale.data, count, h)));
      PushOneMore(d, now, x, f.data);
      assert now + [x] == ScaleEntries(scale, layer, base, suffix, count, h + 1);
      ok := f.Push(NameOf(Key(layer, proj + ".", h, suffix)), Flat(Part(scale.data, count, h)));
      if !ok { StuckStays(d, now + [x], es); return; }
    }
    ok := true;
  }

  lemma {:induction false} QdqPrefix<T>(q: Quant<T>, layer: nat, base: string, m: nat, n: nat)
    requires m <= n
    ensures var a, b := QdqEntries(q, layer, base, m), QdqEntries(q, layer, base, n);
            |a| <= |b| && a == b[..|a|]
    decreases n
  {
    if m < n { QdqPrefix(q, layer, base, m, n - 1); }
  }

  /** Copy a node's scale and zero point to every head. */
  method CopyQdq<T>(f: ParameterFile<T>, dim: nat, layer: nat, node: string, count: nat) returns (ok: bool)
    requires StepOk(QdqStep(node, count))
    modifies f
    ensures Aborts(old(f.data), Placed(layer, QdqStep(node, count))) ==> !ok
    ensures !Aborts(old(f.data), Placed(layer, QdqStep(node, count))) ==>
              var e := PushAll(old(f.data), Entries(old(f.data), dim, Placed(layer, QdqStep(node, count))));
              ok == e.Some? && (ok ==> f.data == e.value)
  {
    hide PlainName, NameOf;
    var scaleName, zeroName := PlainName(layer, node, FAKE_SCALE), PlainName(layer, node, FAKE_ZERO);
    if scaleName !in f.data { return true; }
    if zeroName !in f.data { return false; }
    var scale, zero := f.data[scaleName], f.data[zeroName];
    ghost var d, base, q := f.data, BaseOf(QdqStep(node, count)), Quant(scale, zero);
    for h := 0 to count
      invariant PushAll(d, QdqEntries(q, layer, base, h)) == Some(f.data)
    {
      ghost var now := QdqEntries(q, layer, base, h);
      ghost var x, y := Entry(Key(layer, base, h, FAKE_SCALE), scale), Entry(Key(layer, base, h, FAKE_ZERO), zero);
      assert QdqEntries(q, layer, base, h + 1) == now + [x, y] == now + [x] + [y];
      QdqPrefix(q, layer, base, h + 1, count);
      PushOneMore(d, now, x, f.data);
      ok := f.Push(NameOf(Key(layer, node + "_h", h, FAKE_SCALE)), scale);
      if !ok {
        StuckStays(d, now + [x], now + [x] + [y]);
        StuckStays(d, now + [x] + [y], QdqEntries(q, layer, base, count));
        return;
      }
      PushOneMore(d, now + [x], y, f.data);
      ok := f.Push(NameOf(Key(layer, node + "_h", h, FAKE_ZERO)), zero);
      if !ok { StuckStays(d, now + [x] + [y], QdqEntries(q, layer, base, count)); return; }
    }
    ok := true;
  }

  lemma {:induction false} NormPrefix<T>(w: NormWeight<T>, layer: nat, base: string, m: nat, n: nat)
    requires m <= n
    ensures var a, b := NormEntries(w, layer, base, m), NormEntries(w, layer, base, n);
            |a| <= |b| && a == b[..|a|]
    decreases n
  {
    if m < n { NormPrefix(w, layer, base, m, n - 1); }
  }

  /** Enter a parameter that may be missing. */
  method PushOptional<T>(f: ParameterFile<T>, t: Option<Tensor<T>>, key: Key, ghost d: Dict<T>, ghost now: seq<Entry<T>>) returns (ok: bool)
    requires PushAll(d, now) == Some(f.data)
    modifies f
    ensures var e := PushAll(d, now + OptionalEntry(t, key)); ok == e.Some? && (ok ==> f.data == e.value)
  {
    hide NameOf;
    if t.None? {
      assert now + OptionalEntry(t, key) == now;
      return true;
    }
    PushOneMore(d, now, Entry(key, t.value), f.data);
    ok := f.Push(NameOf(key), t.value);
  }

  /** Copy a norm's parameters to every head. */
  method CopyNorm<T>(f: ParameterFile<T>, dim: nat, layer: nat, norm: string, count: nat) returns (ok: bool)
    requires StepOk(NormStep(norm, count))
    modifies f
    ensures var e := PushAll(old(f.data), Entries(old(f.data), dim, Placed(layer, NormStep(norm, count))));
            ok == e.Some? && (ok ==> f.data == e.value)
  {
    hide PlainName, NameOf, OptionalEntry;
    var name := PlainName(layer, norm, WEIGHT);
    if name !in f.data { return true; }
    var w := NormWeight(f.data[name], Lookup(f.data, PlainName(layer, norm, SCALE)), Lookup(f.data, PlainName(layer, norm, ZERO)));
    ghost var d, base := f.data, BaseOf(NormStep(norm, count));
    for h := 0 to count
      invariant PushAll(d, NormEntries(w, layer, base, h)) == Some(f.data)
    {
      ghost var now := NormEntries(w, layer, base, h);
      ghost var one := now + OptionalEntry(Some(w.weight), Key(layer, base, h, WEIGHT));
      ghost var two := one + OptionalEntry(w.scale, Key(layer, base, h, SCALE));
      ghost var three := two + OptionalEntry(w.zeroPoint, Key(layer, base, h, ZERO));
      WeightFirst(w, layer, base, h);
      NormPrefix(w, layer, base, h + 1, count);
      ok := PushOptional(f, Some(w.weight), Key(layer, norm + ".", h, WEIGHT), d, now);
      if !ok { StuckStays(d, one, three); StuckStays(d, three, NormEntries(w, layer, base, count)); return; }
      ok := PushOptional(f, w.scale, Key(layer, norm + ".", h, SCALE), d, one);
      if !ok { StuckStays(d, two, three); StuckStays(d, three, NormEntries(w, layer, base, count)); return; }
      ok := PushOptional(f, w.zeroPoint, Key(layer, norm + ".", h, ZERO), d, two);
      if !ok { StuckStays(d, three, NormEntries(w, layer, base, count)); return; }
    }
    ok := true;
  }

  lemma WeightFirst<T>(w: NormWeight<T>, layer: nat, base: string, h: nat)
    ensures NormEntries(w, layer, base, h + 1)
            == NormEntries(w, layer, base, h) + OptionalEntry(Some(w.weight), Key(layer, base, h, WEIGHT))
               + OptionalEntry(w.scale, Key(layer, base, h, SCALE)) + OptionalEntry(w.zeroPoint, Key(layer, base, h, ZERO))
  {
  }

  /** The whole preparation: the steps in the order of the source, layer by layer. */
  method PrepareParametersForSHA<T>(f: ParameterFile<T>, dim: nat, steps: seq<Placed>) returns (ok: bool)
    requires StepsFit(f.data, dim, steps)
    modifies f
    ensures var e := Prepared(old(f.data), dim, steps);
            ok == e.Some? && (ok ==> f.data == e.value)
  {
    hide Entries, Cuttable, Aborts, PlainName, NameOf;
    ghost var d := f.data;
    for i := 0 to |steps|
      invariant StepsFit(f.data, dim, steps[i..]) && Prepared(f.data, dim, steps[i..]) == Prepared(d, dim, steps)
    {
      assert steps[i..][0] == steps[i] && steps[i..][1..] == steps[i + 1..];
      ok := TakeStep(f, dim, steps[i], steps[i..]);
      if !ok { return; }
    }
    ok := true;
  }

  method TakeStep<T>(f: ParameterFile<T>, dim: nat, p: Placed, ghost ps: seq<Placed>) returns (ok: bool)
    requires ps != [] && ps[0] == p && StepsFit(f.data, dim, ps)
    modifies f
    ensures !ok ==> Prepared(old(f.data), dim, ps).None?
    ensures ok ==> StepsFit(f.data, dim, ps[1..]) && Prepared(old(f.data), dim, ps) == Prepared(f.data, dim, ps[1..])
  {
    hide Entries, PlainName, NameOf;
    ghost var d := f.data;
    match p.step {
      case WeightStep(proj, count) => ok := CutWeight(f, dim, p.layer, proj, count);
      case ScaleStep(proj, count, suffix) => ok := CutScale(f, dim, p.layer, proj, count, suffix);
      case NormStep(norm, count) => ok := CopyNorm(f, dim, p.layer, norm, count);
      case QdqStep(node, count) => ok := CopyQdq(f, dim, p.layer, node, count);
    }
    if ok {
      StepKeepsPlain(d, dim, p);
      FitsStill(d, f.data, dim, ps);
    }
  }
}
