/** The names of per-head parameters, and why no two of them are the same. */
module ShaNames {

  function Digit(d: nat): char
    requires d < 10
  {
    "0123456789"[d]
  }

  predicate IsDigit(c: char) { '0' <= c <= '9' }

  /** A number in decimal. */
  function Decimal(n: nat): (s: string)
    ensures |s| > 0 && forall i :: 0 <= i < |s| ==> IsDigit(s[i])
  {
    if n < 10 then [Digit(n)] else Decimal(n / 10) + [Digit(n % 10)]
  }

  lemma DigitInjective(a: nat, b: nat)
    requires a < 10 && b < 10 && Digit(a) == Digit(b)
    ensures a == b
  {
    assert forall d: nat :: d < 10 ==> "0123456789"[d] as int == '0' as int + d;
  }

  lemma {:induction false} DecimalInjective(a: nat, b: nat)
    requires Decimal(a) == Decimal(b)
    ensures a == b
    decreases a
  {
    var s, t := Decimal(a), Decimal(b);
    assert s[|s| - 1] == Digit(a % 10) && t[|t| - 1] == Digit(b % 10) by {
      assert a < 10 ==> a % 10 == a;
      assert b < 10 ==> b % 10 == b;
    }
    DigitInjective(a % 10, b % 10);
    assert (a >= 10 ==> |s| > 1) && (b >= 10 ==> |t| > 1) && (a < 10 ==> |s| == 1) && (b < 10 ==> |t| == 1);
    if a >= 10 {
      assert s[..|s| - 1] == Decimal(a / 10) && t[..|t| - 1] == Decimal(b / 10);
      DecimalInjective(a / 10, b / 10);
    }
  }

  /** A per-head parameter: which layer, which node, which head, and which of the node's parameters. */
  datatype Key = Key(layer: nat, base: string, head: nat, suffix: string)

  const LAYERS := "model.layers."
  const SELF_ATTN := ".self_attn."

  function LayerPrefix(layer: nat): string { LAYERS + Decimal(layer) + SELF_ATTN }

  function NameOf(k: Key): string { LayerPrefix(k.layer) + k.base + Decimal(k.head) + k.suffix }

  /** The name of a parameter that is not per head. */
  function PlainName(layer: nat, base: string, suffix: string): string { LayerPrefix(layer) + base + suffix }

  predicate IsBase(b: string) { |b| > 0 && !IsDigit(b[|b| - 1]) }

  /** The name of a node without heads: it holds no dot. */
  predicate IsPlain(b: string) { IsBase(b) && '.' !in b }

  const WEIGHT := ".weight"
  const SCALE1 := ".scale1"
  const SCALE2 := ".scale2"
  const SCALE := ".scale"
  const ZERO := ".zero_point"
  const FAKE := ".fake_quant"
  const FAKE_SCALE := FAKE + SCALE
  const FAKE_ZERO := FAKE + ZERO

  predicate IsSuffix(s: string) {
    s == WEIGHT || s == SCALE1 || s == SCALE2 || s == SCALE || s == ZERO || s == FAKE_SCALE || s == FAKE_ZERO
  }

  // ---- cancellation --------------------------------------------------------------------------------------

  lemma CancelLeft(p: string, s: string, t: string)
    requires p + s == p + t
    ensures s == t
  {
    assert s == (p + s)[|p|..] && t == (p + t)[|p|..];
  }

  lemma CancelRight(s: string, t: string, p: string)
    requires s + p == t + p
    ensures s == t
  {
    assert |s + p| == |t + p|;
    assert s == (s + p)[..|s|] && t == (t + p)[..|s|];
  }

  /** A run of digits followed by something else is where the first non-digit says it is. */
  lemma SplitDigitsLeft(d: string, r: string, e: string, q: string)
    requires forall i :: 0 <= i < |d| ==> IsDigit(d[i])
    requires forall i :: 0 <= i < |e| ==> IsDigit(e[i])
    requires |r| > 0 && !IsDigit(r[0]) && |q| > 0 && !IsDigit(q[0]) && d + r == e + q
    ensures d == e && r == q
  {
    var s := d + r;
    assert s[|d|] == r[0] && s[|e|] == (e + q)[|e|] == q[0];
    assert d == s[..|d|] && e == (e + q)[..|e|];
    CancelLeft(d, r, q);
  }

  lemma SplitDigitsRight(b: string, d: string, c: string, e: string)
    requires forall i :: 0 <= i < |d| ==> IsDigit(d[i])
    requires forall i :: 0 <= i < |e| ==> IsDigit(e[i])
    requires IsBase(b) && IsBase(c) && b + d == c + e
    ensures b == c && d == e
  {
    var s := b + d;
    assert |b| + |d| == |s| == |c + e| == |c| + |e|;
    assert s[|b| - 1] == b[|b| - 1] && (c + e)[|c| - 1] == c[|c| - 1];
    assert b == s[..|b|] && c == (c + e)[..|c|];
    CancelLeft(b, d, e);
  }

  lemma EndsOf(x: string, s: string)
    requires |s| >= 2
    ensures |x + s| >= 2 && (x + s)[|x + s| - 1] == s[|s| - 1] && (x + s)[|x + s| - 2] == s[|s| - 2]
  {
  }

  /** The suffix that a suffix ends in: with or without the mark of a fake-quantization node. */
  function Core(s: string): string {
    if s == FAKE_SCALE then SCALE else if s == FAKE_ZERO then ZERO else s
  }

  lemma CoresApart(s: string, t: string)
    requires IsSuffix(s) && IsSuffix(t) && s[|s| - 1] == t[|t| - 1] && s[|s| - 2] == t[|t| - 2]
    ensures Core(s) == Core(t)
  {
  }

  /** Suffixes of one name are the same, or the same up to the mark of a fake-quantization node. */
  lemma SuffixesApart(x: string, s: string, y: string, t: string)
    requires IsSuffix(s) && IsSuffix(t) && x + s == y + t
    ensures (s == t && x == y) || (s == FAKE + t && x + FAKE == y) || (FAKE + s == t && x == y + FAKE)
  {
    EndsOf(x, s);
    EndsOf(y, t);
    CoresApart(s, t);
    if s == t {
      CancelRight(x, y, s);
    } else if s == FAKE + t {
      assert x + s == (x + FAKE) + t;
      CancelRight(x + FAKE, y, t);
    } else {
      assert t == FAKE + s;
      assert y + t == (y + FAKE) + s;
      CancelRight(x, y + FAKE, s);
    }
  }

  lemma LayersApart(l: nat, s: string, m: nat, t: string)
    requires LayerPrefix(l) + s == LayerPrefix(m) + t
    ensures l == m && s == t
  {
    assert LayerPrefix(l) + s == LAYERS + (Decimal(l) + (SELF_ATTN + s));
    assert LayerPrefix(m) + t == LAYERS + (Decimal(m) + (SELF_ATTN + t));
    CancelLeft(LAYERS, Decimal(l) + (SELF_ATTN + s), Decimal(m) + (SELF_ATTN + t));
    SplitDigitsLeft(Decimal(l), SELF_ATTN + s, Decimal(m), SELF_ATTN + t);
    DecimalInjective(l, m);
    CancelLeft(SELF_ATTN, s, t);
  }

  predicate Proper(k: Key) { IsBase(k.base) && IsSuffix(k.suffix) }

  function Body(k: Key): (s: string)
    ensures |s| > 0 && IsDigit(s[|s| - 1])
  {
    k.base + Decimal(k.head)
  }

  lemma FakeEnds(x: string)
    ensures |x + FAKE| > 0 && !IsDigit((x + FAKE)[|x + FAKE| - 1]) && '.' in x + FAKE
  {
    assert (x + FAKE)[|x|] == '.';
  }

  /** Two per-head parameters with the same name are the same parameter. */
  lemma NamesApart(j: Key, k: Key)
    requires Proper(j) && Proper(k) && NameOf(j) == NameOf(k)
    ensures j == k
  {
    hide Decimal, LayerPrefix, IsSuffix;
    assert NameOf(j) == LayerPrefix(j.layer) + (Body(j) + j.suffix);
    assert NameOf(k) == LayerPrefix(k.layer) + (Body(k) + k.suffix);
    LayersApart(j.layer, Body(j) + j.suffix, k.layer, Body(k) + k.suffix);
    SuffixesApart(Body(j), j.suffix, Body(k), k.suffix);
    FakeEnds(Body(j));
    FakeEnds(Body(k));
    SplitDigitsRight(j.base, Decimal(j.head), k.base, Decimal(k.head));
    DecimalInjective(j.head, k.head);
  }

  /** A per-head parameter never has the name of one that is not per head. */
  lemma PlainApart(k: Key, layer: nat, base: string, suffix: string)
    requires Proper(k) && IsPlain(base) && IsSuffix(suffix)
    ensures NameOf(k) != PlainName(layer, base, suffix)
  {
    hide Decimal, LayerPrefix, IsSuffix;
    FakeEnds(Body(k));
    FakeEnds(base);
    if NameOf(k) == PlainName(layer, base, suffix) {
      assert NameOf(k) == LayerPrefix(k.layer) + (Body(k) + k.suffix);
      assert PlainName(layer, base, suffix) == LayerPrefix(layer) + (base + suffix);
      LayersApart(k.layer, Body(k) + k.suffix, layer, base + suffix);
      SuffixesApart(Body(k), k.suffix, base, suffix);
    }
  }
}
