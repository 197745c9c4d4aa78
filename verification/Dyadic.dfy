/** Powers of two, bitwise exclusive-or, and the arithmetic of aligned power-of-two intervals. */
module Dyadic {

  function Pow2(n: nat): (r: nat)
    ensures r > 0
  {
    if n == 0 then 1 else 2 * Pow2(n - 1)
  }

  /** Bitwise exclusive-or of two naturals, one bit at a time. */
  function Xor(a: nat, b: nat): nat
    decreases a + b
  {
    if a == 0 then b else if b == 0 then a else 2 * Xor(a / 2, b / 2) + (a % 2 + b % 2) % 2
  }

  /** The least k with n <= 2^k, and 0 for n == 0: the integer reading of `_log2_ceil`. */
  function CeilLog2(n: nat): (k: nat)
    ensures n <= Pow2(k)
    ensures k > 0 ==> Pow2(k - 1) < n
  {
    if n <= 1 then 0 else 1 + CeilLog2((n + 1) / 2)
  }

  lemma {:induction false} Pow2Monotone(i: nat, j: nat)
    requires i <= j
    ensures Pow2(i) <= Pow2(j)
    ensures i < j ==> 2 * Pow2(i) <= Pow2(j)
  {
    if i < j { Pow2Monotone(i, j - 1); }
  }

  lemma CeilLog2Least(n: nat, k: nat)
    requires n <= Pow2(k)
    ensures CeilLog2(n) <= k
  {
    var c := CeilLog2(n);
    Pow2Monotone(k, if c > k then c - 1 else k);
  }

  lemma CeilLog2Monotone(n: nat, m: nat)
    requires n <= m
    ensures CeilLog2(n) <= CeilLog2(m)
  {
    CeilLog2Least(n, CeilLog2(m));
  }

  /** 2^k is reached exactly: the logarithm of a power of two. */
  lemma CeilLog2Exact(k: nat)
    ensures CeilLog2(Pow2(k)) == k
  {
    CeilLog2Least(Pow2(k), k);
    if CeilLog2(Pow2(k)) < k { Pow2Monotone(CeilLog2(Pow2(k)), k); }
  }

  // ---- divisibility --------------------------------------------------------------------------

  lemma {:induction false} MulOrder(a: int, b: int, m: nat)
    requires a <= b
    ensures a * m <= b * m
  {
    if m > 0 { MulOrder(a, b, m - 1); MulStep(a, m); MulStep(b, m); }
  }

  lemma MulStep(a: int, m: int)
    ensures a * m == a * (m - 1) + a
    ensures (a + 1) * m == a * m + m
  {}

  lemma DivUnique(x: int, m: nat, q: int, r: int)
    requires m > 0 && x == q * m + r && 0 <= r < m
    ensures x / m == q && x % m == r
  {
    var d := x / m;
    MulStep(q, m);
    MulStep(d, m);
    if q < d { MulOrder(q + 1, d, m); }
    if d < q { MulOrder(d + 1, q, m); }
  }

  predicate Divides(m: nat, x: int) requires m > 0 { x % m == 0 }

  lemma MultipleDivides(m: nat, q: int)
    requires m > 0
    ensures Divides(m, q * m)
  {
    DivUnique(q * m, m, q, 0);
  }

  lemma SelfDivides(m: nat)
    requires m > 0
    ensures Divides(m, m) && Divides(m, 0)
  {
    DivUnique(m, m, 1, 0);
    DivUnique(0, m, 0, 0);
  }

  lemma Quotient(m: nat, x: int) returns (q: int)
    requires m > 0 && Divides(m, x)
    ensures x == q * m && q == x / m
  {
    q := x / m;
  }

  lemma Distribute(a: int, b: int, m: int)
    ensures (a + b) * m == a * m + b * m
    ensures (a - b) * m == a * m - b * m
  {}

  lemma DividesSum(m: nat, x: int, y: int)
    requires m > 0 && Divides(m, x) && Divides(m, y)
    ensures Divides(m, x + y) && Divides(m, x - y)
  {
    var a := Quotient(m, x);
    var b := Quotient(m, y);
    hide Divides;
    Distribute(a, b, m);
    MultipleDivides(m, a + b);
    MultipleDivides(m, a - b);
  }

  /** Two multiples of m that differ, differ by at least m. */
  lemma MultipleGap(m: nat, x: int, y: int)
    requires m > 0 && Divides(m, x) && Divides(m, y) && x < y
    ensures x + m <= y
  {
    var a := Quotient(m, x);
    var b := Quotient(m, y);
    hide Divides;
    if b <= a { MulOrder(b, a, m); }
    MulOrder(a + 1, b, m);
    MulStep(a, m);
  }

  lemma {:induction false} Pow2Divides(i: nat, j: nat)
    requires i <= j
    ensures Divides(Pow2(i), Pow2(j))
  {
    hide Divides;
    if i < j { Pow2Divides(i, j - 1); DividesSum(Pow2(i), Pow2(j - 1), Pow2(j - 1)); }
    else { SelfDivides(Pow2(i)); }
  }

  lemma MulAssoc(a: int, b: int, c: int)
    ensures (a * b) * c == a * (b * c)
  {}

  lemma DividesTrans(i: nat, j: nat, x: int)
    requires i <= j && Divides(Pow2(j), x)
    ensures Divides(Pow2(i), x)
  {
    Pow2Divides(i, j);
    var q := Quotient(Pow2(j), x);
    var p := Quotient(Pow2(i), Pow2(j));
    hide Divides;
    MulAssoc(q, p, Pow2(i));
    MultipleDivides(Pow2(i), q * p);
  }

  // ---- buddies -------------------------------------------------------------------------------

  /** The offset of the block's buddy, as the pool computes it: flip bit `k` of the offset. */
  function BuddyOff(off: nat, k: nat): nat { Xor(off, Pow2(k)) }

  /** Whether bit `k` of `off` is clear. */
  predicate BitClear(off: nat, k: nat) { (off / Pow2(k)) % 2 == 0 }

  lemma {:induction false} XorPow2(off: nat, k: nat)
    ensures Xor(off, Pow2(k)) == if BitClear(off, k) then off + Pow2(k) else off - Pow2(k)
  {
    if off == 0 {
      DivUnique(0, Pow2(k), 0, 0);
    } else if k == 0 {
      DivUnique(off, 1, off, 0);
    } else {
      XorPow2(off / 2, k - 1);
      HalfDiv(off, Pow2(k - 1));
    }
  }

  lemma HalfDiv(x: nat, m: nat)
    requires m > 0
    ensures (x / 2) / m == x / (2 * m)
  {
    var q, r := (x / 2) / m, (x / 2) % m;
    assert x / 2 == q * m + r;
    MulAssoc(q, 2, m);
    Distribute(q, q, m);
    DivUnique(x, 2 * m, q, 2 * r + x % 2);
  }

  /** For an aligned offset, the bit says which half of its parent the block is. */
  lemma BitOfAligned(off: nat, k: nat)
    requires Divides(Pow2(k), off)
    ensures BitClear(off, k) <==> Divides(Pow2(k + 1), off)
    ensures !BitClear(off, k) ==> off >= Pow2(k) && Divides(Pow2(k + 1), off - Pow2(k))
  {
    var m := Pow2(k);
    var q := Quotient(m, off);
    var h := q / 2;
    Distribute(h, h, m);
    MulAssoc(h, 2, m);
    MulStep(2 * h, m);
    if q % 2 == 0 { DivUnique(off, 2 * m, h, 0); }
    else {
      DivUnique(off, 2 * m, h, m);
      MultipleDivides(2 * m, h);
      if h < 0 { MulOrder(q, -1, m); }
      MulOrder(0, h, m);
    }
  }

  lemma BuddyIsSibling(off: nat, k: nat)
    requires Divides(Pow2(k), off)
    ensures Divides(Pow2(k + 1), off) ==> BuddyOff(off, k) == off + Pow2(k)
    ensures !Divides(Pow2(k + 1), off) ==> BuddyOff(off, k) == off - Pow2(k) && Divides(Pow2(k + 1), off - Pow2(k))
    ensures Divides(Pow2(k), BuddyOff(off, k))
    ensures Divides(Pow2(k + 1), off) <==> !Divides(Pow2(k + 1), BuddyOff(off, k))
    ensures BuddyOff(BuddyOff(off, k), k) == off
  {
    hide Divides, BitClear;
    var m := Pow2(k);
    XorPow2(off, k);
    BitOfAligned(off, k);
    SelfDivides(m);
    DividesSum(m, off, m);
    var b := BuddyOff(off, k);
    XorPow2(b, k);
    BitOfAligned(b, k);
    if Divides(2 * m, off) && Divides(2 * m, b) { MultipleGap(2 * m, off, b); }
    if !Divides(2 * m, off) {
      assert b == off - m && Divides(2 * m, b);
      assert BitClear(b, k);
    } else {
      assert b == off + m && !Divides(2 * m, b);
    }
  }
}
