/** C integer division and the `mult_frac` helper of `uni_common.h`. */
module Arithmetic {

  function Abs(a: int): nat { if a < 0 then -a else a }

  /** C's `a / b`: truncated toward zero. */
  function TDiv(a: int, b: int): int
    requires b != 0
  {
    if (a < 0) == (b < 0) then Abs(a) / Abs(b) else -(Abs(a) / Abs(b))
  }

  /** C's `a % b`. */
  function TMod(a: int, b: int): int
    requires b != 0
  {
    a - TDiv(a, b) * b
  }

  function MultFrac(x: int, m: int, d: int): int
    requires d != 0
  {
    TDiv(x, d) * m + TDiv(TMod(x, d) * m, d)
  }

  // ---------------------------------------------------------------- division facts

  lemma {:induction false} DivUnique(a: nat, b: nat, q: int)
    requires b > 0 && q * b <= a < (q + 1) * b
    ensures a / b == q
  {
    var k := a / b;
    assert k * b <= a < (k + 1) * b;
    if k < q {
      MulMono(k + 1, q, b);
    } else if k > q {
      MulMono(q + 1, k, b);
    }
  }

  lemma {:induction false} MulMono(x: int, y: int, b: int)
    requires x <= y && b >= 0
    ensures x * b <= y * b
  {
    assert (y - x) * b >= 0;
  }

  lemma {:induction false} DivOfSum(a: nat, b: nat, r: nat)
    requires b > 0
    ensures (a * b + r) / b == a + r / b
  {
    var k := r / b;
    assert k * b <= r < k * b + b;
    assert (a + k) * b == a * b + k * b;
    assert (a + k + 1) * b == a * b + k * b + b;
    DivUnique(a * b + r, b, a + k);
  }

  /** The quotient and remainder of C are the ones of the language standard: they recompose,
      the remainder is smaller than the divisor and has the dividend's sign. */
  lemma {:induction false} TDivStandard(a: int, b: int)
    requires b != 0
    ensures a == TDiv(a, b) * b + TMod(a, b)
    ensures Abs(TMod(a, b)) == Abs(a) % Abs(b) < Abs(b)
    ensures TMod(a, b) == 0 || (TMod(a, b) < 0) == (a < 0)
  {
    var A: int, B: int := Abs(a), Abs(b);
    var q := A / B;
    assert A == q * B + A % B;
    if a < 0 {
      assert TDiv(a, b) * b == -(q * B) by { SignedProduct(q, B, a, b); }
    } else {
      assert TDiv(a, b) * b == q * B by { SignedProduct(q, B, a, b); }
    }
  }

  lemma {:induction false} SignedProduct(q: int, B: int, a: int, b: int)
    requires b != 0 && B == Abs(b) && q == Abs(a) / B
    ensures TDiv(a, b) * b == if a < 0 then -(q * B) else q * B
  {
    if (a < 0) == (b < 0) {
      assert TDiv(a, b) == q;
      assert b < 0 ==> q * b == -(q * B);
    } else {
      assert TDiv(a, b) == -q;
      assert b < 0 ==> (-q) * b == q * B;
      assert b > 0 ==> (-q) * b == -(q * B);
    }
  }

  lemma {:induction false} MultFracNat(X: nat, M: nat, D: nat)
    requires D > 0
    ensures (X * M) / D == (X / D) * M + ((X % D) * M) / D
  {
    var q, r := X / D, X % D;
    calc {
      X * M;
      (q * D + r) * M;
      q * D * M + r * M;
      { assert q * D * M == (q * M) * D; }
      (q * M) * D + r * M;
    }
    DivOfSum(q * M, D, r * M);
  }

  lemma AbsProduct(a: int, b: int)
    ensures Abs(a * b) == Abs(a) * Abs(b)
    ensures a * b == 0 || (a * b < 0) == ((a < 0) != (b < 0))
  {
  }

  /** Two quotients of the same sign add up. */
  lemma {:induction false} AddQuotients(xm: int, sm: int, d: int, a: int, b: int)
    requires a >= 0 && d != 0 && xm != 0
    requires Abs(xm) / Abs(d) == a + b && Abs(sm) / Abs(d) == b
    requires sm == 0 || (sm < 0) == (xm < 0)
    ensures TDiv(xm, d) == (if (xm < 0) == (d < 0) then a else -a) + TDiv(sm, d)
  {
    assert sm == 0 ==> b == 0;
  }

  /** `mult_frac` is the exact truncated quotient, for all signs. */
  lemma {:induction false} MultFracExact(x: int, m: int, d: int)
    requires d != 0
    ensures MultFrac(x, m, d) == TDiv(x * m, d)
  {
    if x * m == 0 {
      ZeroCase(x, m, d);
    } else {
      var s, q := TMod(x, d), Abs(x) / Abs(d);
      RemainderSign(x, m, d);
      SplitQuotient(x, m, d);
      SignOfProduct(q, x, m, d);
      AddQuotients(x * m, s * m, d, q * Abs(m), Abs(s * m) / Abs(d));
    }
  }

  lemma {:induction false} SplitQuotient(x: int, m: int, d: int)
    requires d != 0
    ensures Abs(x * m) / Abs(d) == (Abs(x) / Abs(d)) * Abs(m) + Abs(TMod(x, d) * m) / Abs(d)
    ensures (Abs(x) / Abs(d)) * Abs(m) >= 0
  {
    AbsRemainder(x, m, d);
    AbsOfProduct(x, m);
    SplitNat(Abs(x), Abs(m), Abs(d), Abs(x * m), Abs(TMod(x, d) * m));
  }

  lemma {:induction false} SplitNat(X: nat, M: nat, D: nat, XM: nat, SM: nat)
    requires D > 0 && XM == X * M && SM == (X % D) * M
    ensures XM / D == (X / D) * M + SM / D && (X / D) * M >= 0
  {
    MultFracNat(X, M, D);
    MulMono(0, X / D, M);
  }

  lemma {:induction false} AbsOfProduct(a: int, b: int)
    ensures Abs(a * b) == Abs(a) * Abs(b)
  {
    AbsProduct(a, b);
  }

  lemma {:induction false} AbsRemainder(x: int, m: int, d: int)
    requires d != 0
    ensures Abs(TMod(x, d) * m) == (Abs(x) % Abs(d)) * Abs(m)
  {
    TDivStandard(x, d);
    AbsOfProduct(TMod(x, d), m);
  }

  lemma {:induction false} RemainderSign(x: int, m: int, d: int)
    requires d != 0 && x * m != 0
    ensures var s := TMod(x, d); s * m == 0 || (s * m < 0) == (x * m < 0)
  {
    TDivStandard(x, d);
    AbsProduct(x, m);
    AbsProduct(TMod(x, d), m);
  }

  lemma {:induction false} ZeroCase(x: int, m: int, d: int)
    requires d != 0 && x * m == 0
    ensures MultFrac(x, m, d) == TDiv(x * m, d)
  {
    if x == 0 {
      assert TDiv(0, d) == 0 && TMod(0, d) == 0;
      assert TDiv(0 * m, d) == 0;
    } else {
      assert m == 0;
      assert TMod(x, d) * m == 0;
    }
  }

  lemma {:induction false} SignOfProduct(q: int, x: int, m: int, d: int)
    requires d != 0 && x * m != 0 && q == Abs(x) / Abs(d)
    ensures TDiv(x, d) * m == if (x * m < 0) == (d < 0) then q * Abs(m) else -(q * Abs(m))
  {
    AbsProduct(x, m);
    if m < 0 {
      assert q * m == -(q * Abs(m));
      assert (-q) * m == q * Abs(m);
    } else {
      assert (-q) * m == -(q * Abs(m));
    }
  }

  // ---------------------------------------------------------------- order

  lemma {:induction false} DivMono(a: nat, b: nat, d: nat)
    requires a <= b && d > 0
    ensures a / d <= b / d
  {
    var p, q := a / d, b / d;
    assert p * d <= a && b < (q + 1) * d;
    if p > q {
      MulMono(q + 1, p, d);
    }
  }

  lemma {:induction false} TDivMono(a: int, b: int, d: int)
    requires a <= b && d > 0
    ensures TDiv(a, d) <= TDiv(b, d)
  {
    if a < 0 && b < 0 {
      DivMono(-b, -a, d);
    } else if a >= 0 {
      DivMono(a, b, d);
    } else {
      assert Abs(a) / d >= 0 && Abs(b) / d >= 0;
    }
  }

  /** A multiple of the divisor divides exactly. */
  lemma {:induction false} TDivMultiple(q: int, d: int)
    requires d > 0
    ensures TDiv(q * d, d) == q
  {
    if q >= 0 {
      assert q * d >= 0;
      DivUnique(q * d, d, q);
    } else {
      assert (-q) * d == -(q * d) && q * d < 0;
      DivUnique(-(q * d), d, -q);
    }
  }

  /** Strictly below a multiple, and not below zero, the quotient is strictly below too. */
  lemma {:induction false} TDivBelow(a: int, q: int, d: int)
    requires d > 0 && q > 0 && a < q * d
    ensures TDiv(a, d) < q
  {
    if a >= 0 {
      var k := a / d;
      assert k * d <= a;
      if k >= q {
        MulMono(q, k, d);
      }
    } else {
      assert Abs(a) / d >= 0;
    }
  }

  // ---------------------------------------------------------------- machine widths

  predicate Int16(x: int) { -0x8000 <= x < 0x8000 }
  predicate Int32(x: int) { -0x8000_0000 <= x < 0x8000_0000 }
  predicate Int64(x: int) { -0x8000_0000_0000_0000 <= x < 0x8000_0000_0000_0000 }

  /** With 32-bit arguments no intermediate value of `mult_frac` leaves `intmax_t`. */
  lemma {:induction false} MultFracFits(x: int, m: int, d: int)
    requires d != 0 && Int32(x) && Int32(m) && Int32(d)
    ensures Int64(TDiv(x, d) * m) && Int64(TMod(x, d) * m) && Int64(MultFrac(x, m, d))
  {
    TDivStandard(x, d);
    QuotientShrinks(Abs(x), Abs(d));
    BoundProduct(TDiv(x, d), m);
    BoundProduct(TMod(x, d), m);
    ExactFits(x, m, d);
  }

  lemma {:induction false} ExactFits(x: int, m: int, d: int)
    requires d != 0 && Int32(x) && Int32(m)
    ensures Int64(MultFrac(x, m, d))
  {
    MultFracExact(x, m, d);
    BoundProduct(x, m);
    QuotientBound(x * m, d);
  }

  lemma {:induction false} QuotientBound(a: int, d: int)
    requires d != 0
    ensures Abs(TDiv(a, d)) <= Abs(a)
  {
    QuotientShrinks(Abs(a), Abs(d));
  }

  lemma {:induction false} QuotientShrinks(a: nat, b: nat)
    requires b > 0
    ensures a / b <= a
  {
    var q := a / b;
    assert q * b <= a;
    MulMono(1, b, q);
  }

  lemma {:induction false} BoundProduct(a: int, b: int)
    requires Abs(a) <= 0x8000_0000 && Abs(b) <= 0x8000_0000
    ensures Abs(a * b) <= 0x4000_0000_0000_0000
  {
    AbsProduct(a, b);
    MulMono(Abs(a), 0x8000_0000, Abs(b));
  }
}
