/** Positions in row-major order: numbers put together from digits, and taken apart again. */
module Positions {

  /** A number with last digit `c` in base `d`, and the digits of a number. */
  function Join(a: nat, d: nat, c: nat): nat { a * d + c }
  function Rest(n: nat, d: nat): nat requires d > 0 { n / d }
  function Last(n: nat, d: nat): nat requires d > 0 { n % d }
  function Times(a: nat, b: nat): nat { a * b }

  function Volume(d0: nat, d1: nat, d2: nat, d3: nat): nat { Times(Times(Times(d0, d1), d2), d3) }

  function Offset(d1: nat, d2: nat, d3: nat, i: nat, j: nat, k: nat, l: nat): nat {
    Join(Join(Join(i, d1, j), d2, k), d3, l)
  }

  lemma MulLe(a: nat, b: nat, d: nat)
    requires a <= b
    ensures a * d <= b * d
  {
  }

  lemma JoinDigits(a: nat, d: nat, c: nat)
    requires c < d
    ensures Rest(Join(a, d, c), d) == a && Last(Join(a, d, c), d) == c
  {
    var n := a * d + c;
    assert n == (n / d) * d + n % d;
    if a < n / d { MulLe(a + 1, n / d, d); }
    if n / d < a { MulLe(n / d + 1, a, d); }
  }

  lemma Digits(n: nat, d: nat)
    requires d > 0
    ensures Join(Rest(n, d), d, Last(n, d)) == n && Last(n, d) < d
  {
  }

  lemma JoinBelow(a: nat, m: nat, d: nat, c: nat)
    requires a < m && c < d
    ensures Join(a, d, c) < Times(m, d)
  {
    MulLe(a + 1, m, d);
    assert (a + 1) * d == a * d + d;
  }

  lemma DigitsJoin(n: nat, m: nat, d: nat)
    requires n < Times(m, d)
    ensures d > 0 && Rest(n, d) < m && Last(n, d) < d && Join(Rest(n, d), d, Last(n, d)) == n
  {
    if d > 0 && m <= n / d { MulLe(m, n / d, d); }
  }

  lemma OffsetBelow(d0: nat, d1: nat, d2: nat, d3: nat, i: nat, j: nat, k: nat, l: nat)
    requires i < d0 && j < d1 && k < d2 && l < d3
    ensures Offset(d1, d2, d3, i, j, k, l) < Volume(d0, d1, d2, d3)
  {
    hide Join, Times;
    JoinBelow(i, d0, d1, j);
    JoinBelow(Join(i, d1, j), Times(d0, d1), d2, k);
    JoinBelow(Join(Join(i, d1, j), d2, k), Times(Times(d0, d1), d2), d3, l);
  }

  /** A position in a tensor of a given shape. */
  datatype Position = Position(i: nat, j: nat, k: nat, l: nat)

  function PositionOf(d1: nat, d2: nat, d3: nat, n: nat): Position
    requires d1 > 0 && d2 > 0 && d3 > 0
  {
    var m := Rest(n, d3);
    Position(Rest(Rest(m, d2), d1), Last(Rest(m, d2), d1), Last(m, d2), Last(n, d3))
  }

  lemma OffsetPosition(d1: nat, d2: nat, d3: nat, i: nat, j: nat, k: nat, l: nat)
    requires j < d1 && k < d2 && l < d3
    ensures PositionOf(d1, d2, d3, Offset(d1, d2, d3, i, j, k, l)) == Position(i, j, k, l)
  {
    hide Join, Rest, Last;
    JoinDigits(Join(Join(i, d1, j), d2, k), d3, l);
    JoinDigits(Join(i, d1, j), d2, k);
    JoinDigits(i, d1, j);
  }

  lemma PositionOffset(d0: nat, d1: nat, d2: nat, d3: nat, n: nat)
    requires n < Volume(d0, d1, d2, d3)
    ensures d1 > 0 && d2 > 0 && d3 > 0
    ensures var p := PositionOf(d1, d2, d3, n);
            p.i < d0 && p.j < d1 && p.k < d2 && p.l < d3 && Offset(d1, d2, d3, p.i, p.j, p.k, p.l) == n
  {
    hide Join, Rest, Last, Times;
    DigitsJoin(n, Times(Times(d0, d1), d2), d3);
    DigitsJoin(Rest(n, d3), Times(d0, d1), d2);
    DigitsJoin(Rest(Rest(n, d3), d2), d0, d1);
  }
}
