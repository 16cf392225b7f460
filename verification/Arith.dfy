/** Facts about products and quotients of naturals, each small enough for the solver's
    nonlinear arithmetic. */
module Arith {

  function Quot(x: nat, y: nat): nat
    requires y > 0
  {
    x / y
  }

  lemma DivBounds(x: nat, y: nat)
    requires y > 0
    ensures Quot(x, y) * y <= x < Quot(x, y) * y + y
  {
    assert x == x / y * y + x % y;
  }

  lemma MulMono(a: nat, b: nat, c: nat)
    requires a <= b
    ensures a * c <= b * c
  {}

  lemma Distribute(a: int, b: int, c: int)
    ensures (a + b) * c == a * c + b * c
  {}

  lemma DivAtMost(x: nat, y: nat, c: nat)
    requires y > 0 && x <= c * y
    ensures Quot(x, y) <= c
  {
    DivBounds(x, y);
    if Quot(x, y) > c { MulMono(c + 1, Quot(x, y), y); }
  }

  lemma DivAtLeast(x: nat, y: nat, c: nat)
    requires y > 0 && c * y <= x
    ensures c <= Quot(x, y)
  {
    DivBounds(x, y);
    if Quot(x, y) < c { MulMono(Quot(x, y) + 1, c, y); }
  }

  /** Dividing a multiple of a multiple is exact. */
  lemma MultipleDivides(p: nat, h: nat, y: nat)
    requires y > 0 && h % y == 0
    ensures Quot(p * h, y) * y == p * h
  {
    var k := h / y;
    assert h == k * y;
    assert p * h == (p * k) * y;
    DivAtLeast(p * h, y, p * k);
    DivBounds(p * h, y);
    MulMono(p * k, Quot(p * h, y), y);
  }

  lemma QuotIsOne(x: nat, y: nat)
    requires 0 < y <= x < y + y
    ensures Quot(x, y) == 1
  {}

  lemma SelfMod(x: nat)
    requires x > 0
    ensures x % x == 0
  {
    assert x == 1 * x + 0;
  }

  lemma QuotZero(y: nat)
    requires y > 0
    ensures Quot(0, y) == 0
  {
    DivAtMost(0, y, 0);
  }

  lemma QuotOfMultiple(e: nat, y: nat)
    requires y > 0
    ensures Quot(e * y, y) == e
  {
    DivAtMost(e * y, y, e);
    DivAtLeast(e * y, y, e);
  }

  /** A quotient found by bracketing. */
  lemma QuotIs(x: nat, y: nat, c: nat)
    requires y > 0 && c * y <= x < c * y + y
    ensures Quot(x, y) == c
  {
    DivAtLeast(x, y, c);
    DivBounds(x, y);
    if c < Quot(x, y) {
      MulMono(c + 1, Quot(x, y), y);
      Distribute(c, 1, y);
    }
  }

  /** What is left of a number that is not a multiple. */
  lemma NotMultiple(x: nat, y: nat)
    requires y > 0 && x % y != 0
    ensures Quot(x, y) * y < x
  {
    DivBounds(x, y);
    if Quot(x, y) * y == x { MultipleMod(Quot(x, y), y); }
  }

  lemma MultipleMod(k: nat, y: nat)
    requires y > 0
    ensures (k * y) % y == 0
  {
    ModIsRest(k * y, y);
    QuotOfMultiple(k, y);
  }

  lemma ModIsRest(x: nat, y: nat)
    requires y > 0
    ensures x % y == x - Quot(x, y) * y
  {}
}
