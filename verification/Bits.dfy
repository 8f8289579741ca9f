/** Unsigned 32-bit shift-and-mask arithmetic, bit by bit, and the division facts it amounts to. */
module Bits {

  function Pow2(k: nat): (r: nat)
    ensures r > 0
  {
    if k == 0 then 1 else 2 * Pow2(k - 1)
  }

  function And(a: nat, b: nat): nat {
    if a == 0 || b == 0 then 0 else 2 * And(a / 2, b / 2) + (if a % 2 == 1 && b % 2 == 1 then 1 else 0)
  }

  function Or(a: nat, b: nat): nat
    decreases a + b
  {
    if a == 0 then b else if b == 0 then a
    else 2 * Or(a / 2, b / 2) + (if a % 2 == 1 || b % 2 == 1 then 1 else 0)
  }

  /** `x << k`, read back unsigned. */
  function Shl(x: nat, k: nat): nat { (x * Pow2(k)) % Pow2(32) }

  /** `x >>> k`. */
  function Shr(x: nat, k: nat): nat {
    QuotientNat(x, Pow2(k));
    x / Pow2(k)
  }

  lemma QuotientNat(n: nat, m: nat)
    requires m > 0
    ensures n / m >= 0
  {
  }

  lemma {:induction false} PowAdd(a: nat, b: nat)
    ensures Pow2(a + b) == Pow2(a) * Pow2(b)
  {
    if a > 0 { PowAdd(a - 1, b); }
  }

  lemma {:induction false} PowMono(k: nat, n: nat)
    requires k <= n
    ensures Pow2(k) <= Pow2(n)
  {
    if k < n { PowMono(k, n - 1); }
  }

  lemma HalfMod(n: nat, m: nat)
    requires m > 0
    ensures n % (2 * m) == 2 * ((n / 2) % m) + n % 2
  {
    var q, r := (n / 2) / m, (n / 2) % m;
    assert n == 2 * (n / 2) + n % 2 && n / 2 == m * q + r;
    assert n == (2 * m) * q + (2 * r + n % 2);
    DivModUnique(n, 2 * m, q, 2 * r + n % 2);
  }

  lemma DivModUnique(n: nat, m: nat, q: nat, r: nat)
    requires m > r && n == m * q + r
    ensures n / m == q && n % m == r
  {
    assert n == m * (n / m) + n % m;
    var d: int := q - n / m;
    assert m * d == n % m - r;
    assert (d > 0 ==> m * d >= m) && (d < 0 ==> m * d + m <= 0);
  }

  lemma Regroup(a: nat, b: nat, q: nat, r: nat, t: nat)
    ensures a * (b * q + r) + t == (a * b) * q + (a * r + t)
  {
  }

  lemma MulMono(a: nat, x: nat, y: nat)
    requires x <= y
    ensures a * x <= a * y
  {
  }

  lemma MulFits(a: nat, b: nat, r: nat, t: nat)
    requires r < b && t < a
    ensures a * r + t < a * b
  {
    MulMono(a, r + 1, b);
    assert a * (r + 1) == a * r + a;
  }

  lemma DivTwice(n: nat, a: nat, b: nat)
    requires a > 0 && b > 0
    ensures a * b > 0 && n / (a * b) == n / a / b
  {
    MulFits(a, b, 0, 0);
    QuotientNat(n, a);
    var m: nat, t: nat := n / a, n % a;
    QuotientNat(m, b);
    SplitTwice(n, a, b, m, t, m / b, m % b);
  }

  lemma SplitTwice(n: nat, a: nat, b: nat, m: nat, t: nat, q: nat, r: nat)
    requires n == a * m + t && m == b * q + r && t < a && r < b
    ensures a * b > 0 && n / (a * b) == q
  {
    Regroup(a, b, q, r, t);
    MulFits(a, b, r, t);
    DivModUnique(n, a * b, q, a * r + t);
  }

  /** Dropping the remainder keeps the quotient, and is determined by it. */
  function DropLow(n: nat, m: nat): (r: nat)
    requires m > 0
    ensures r <= n
  {
    n - n % m
  }

  lemma DropLowIsQuotient(x: nat, y: nat, m: nat)
    requires m > 0
    ensures DropLow(x, m) == DropLow(y, m) <==> x / m == y / m
  {
    assert DropLow(x, m) == m * (x / m) && DropLow(y, m) == m * (y / m);
    if DropLow(x, m) == DropLow(y, m) {
      DivModUnique(DropLow(x, m), m, x / m, 0);
      DivModUnique(DropLow(y, m), m, y / m, 0);
    }
  }

  lemma DropLowHalf(n: nat, m: nat)
    requires m > 0
    ensures DropLow(n, 2 * m) == 2 * DropLow(n / 2, m)
  {
    HalfMod(n, m);
  }

  lemma {:induction false} AndAll(n: nat, w: nat)
    requires n < Pow2(w)
    ensures And(n, Pow2(w) - 1) == n
  {
    if w > 0 {
      AndAll(n / 2, w - 1);
      var m := Pow2(w) - 1;
      assert m % 2 == 1 && m / 2 == Pow2(w - 1) - 1;
    }
  }

  lemma AndEven(n: nat, m: nat)
    ensures And(n, 2 * m) == 2 * And(n / 2, m)
  {
    if n == 0 {
      assert n / 2 == 0;
    } else if m == 0 {
      assert 2 * m == 0;
    } else {
      assert (2 * m) / 2 == m && (2 * m) % 2 == 0;
    }
  }

  /** Masking with all but the low `k` bits drops the remainder. */
  lemma {:induction false} AndHigh(n: nat, k: nat, w: nat)
    requires k <= w && n < Pow2(w)
    ensures Pow2(k) <= Pow2(w) && And(n, Pow2(w) - Pow2(k)) == DropLow(n, Pow2(k))
    decreases w
  {
    if k == 0 {
      AndAll(n, w);
    } else {
      AndHigh(n / 2, k - 1, w - 1);
      DropLowHalf(n, Pow2(k - 1));
      AndEven(n, Pow2(w - 1) - Pow2(k - 1));
    }
  }

  /** Masking with the low `k` bits keeps the remainder. */
  lemma {:induction false} AndLow(n: nat, k: nat)
    ensures And(n, Pow2(k) - 1) == n % Pow2(k)
  {
    if k > 0 {
      AndLow(n / 2, k - 1);
      HalfMod(n, Pow2(k - 1));
      var m := Pow2(k) - 1;
      assert m % 2 == 1 && m / 2 == Pow2(k - 1) - 1;
    }
  }

  lemma OrDouble(a: nat, y: nat)
    ensures Or(2 * a, y) == 2 * Or(a, y / 2) + y % 2
  {
    assert y == 2 * (y / 2) + y % 2;
    if a > 0 && y > 0 {
      assert (2 * a) / 2 == a && (2 * a) % 2 == 0;
    }
  }

  lemma DoubleShift(x: nat, k: nat)
    requires k > 0
    ensures x * Pow2(k) == 2 * (x * Pow2(k - 1))
  {
  }

  /** Or of parts that do not overlap is their sum. */
  lemma {:induction false} OrDisjoint(x: nat, y: nat, k: nat)
    requires y < Pow2(k)
    ensures Or(x * Pow2(k), y) == x * Pow2(k) + y
  {
    if k > 0 {
      OrDisjoint(x, y / 2, k - 1);
      DoubleShift(x, k);
      OrDouble(x * Pow2(k - 1), y);
    }
  }
}
