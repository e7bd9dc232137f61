/** Facts about floor division that the settlement arithmetic relies on. */
module Arithmetic {

  function Min(x: nat, y: nat): nat {
    if x < y then x else y
  }

  function Max(x: nat, y: nat): nat {
    if x < y then y else x
  }

  lemma MulMonotone(a: nat, b: nat, c: nat)
    requires a <= b
    ensures a * c <= b * c
  {
  }

  lemma DivideBack(a: nat, d: nat)
    requires d > 0
    ensures a / d * d <= a < a / d * d + d
  {
  }

  lemma FloorUnique(a: nat, d: nat, q: nat)
    requires d > 0
    requires q * d <= a < q * d + d
    ensures a / d == q
  {
    DivideBack(a, d);
    if a / d < q {
      MulMonotone(a / d + 1, q, d);
    } else if a / d > q {
      MulMonotone(q + 1, a / d, d);
    }
  }

  lemma FloorMonotone(a: nat, b: nat, d: nat)
    requires d > 0
    requires a <= b
    ensures a / d <= b / d
  {
    DivideBack(a, d);
    DivideBack(b, d);
    if b / d < a / d {
      MulMonotone(b / d + 1, a / d, d);
    }
  }

  /** A quotient reaches `q` exactly when the product does. */
  lemma FloorReaches(a: nat, d: nat, q: nat)
    requires d > 0
    ensures a / d >= q <==> q * d <= a
  {
    DivideBack(a, d);
    if a / d >= q {
      MulMonotone(q, a / d, d);
    } else {
      MulMonotone(a / d + 1, q, d);
    }
  }

  lemma Distribute(x: nat, y: nat, d: nat)
    ensures (x + y) * d == x * d + y * d
  {
  }

  /** Splitting an amount before rounding down loses at most one unit, and never gains. */
  lemma FloorSplit(a: nat, b: nat, d: nat)
    requires d > 0
    ensures a / d + b / d <= (a + b) / d <= a / d + b / d + 1
  {
    var x, y := a / d, b / d;
    DivideBack(a, d);
    DivideBack(b, d);
    Distribute(x, y, d);
    Distribute(x + y, 1, d);
    FloorUnique(a + b, d, if a + b < (x + y) * d + d then x + y else x + y + 1);
  }

  /** Nothing is lost when one part divides exactly. */
  lemma FloorSplitExact(a: nat, b: nat, d: nat)
    requires d > 0
    requires a % d == 0
    ensures (a + b) / d == a / d + b / d
  {
    var x, y := a / d, b / d;
    DivideBack(b, d);
    Distribute(x, y, d);
    FloorUnique(a + b, d, x + y);
  }

  lemma FloorBelow(a: nat, k: nat, d: nat)
    requires d > 0
    requires a <= k * d
    ensures a / d <= k
  {
    DivideBack(a, d);
    if k < a / d {
      MulMonotone(k + 1, a / d, d);
    }
  }

  lemma MultipleOfDivisor(a: nat, u: nat, d: nat)
    requires d > 0
    requires u % d == 0
    ensures (a * u) % d == 0
  {
    var q := a * (u / d);
    assert a * u == q * d by {
      assert u == u / d * d;
      assert a * (u / d * d) == a * (u / d) * d;
    }
    FloorUnique(a * u, d, q);
  }

  function Pow10(n: nat): (p: nat)
    ensures p > 0
  {
    if n == 0 then 1 else 10 * Pow10(n - 1)
  }

  lemma {:induction false} Pow10Adds(i: nat, j: nat)
    ensures Pow10(i + j) == Pow10(i) * Pow10(j)
  {
    if i > 0 {
      Pow10Adds(i - 1, j);
      assert 10 * (Pow10(i - 1) * Pow10(j)) == 10 * Pow10(i - 1) * Pow10(j);
    }
  }

  lemma {:induction false} Pow10Grows(i: nat, j: nat)
    requires i < j
    ensures Pow10(i) < Pow10(j)
  {
    if i < j - 1 {
      Pow10Grows(i, j - 1);
    }
  }
}
