/** Powers of two and the division facts that shifts and masks rest on. */
module Arith {

  function Pow2(n: nat): (r: nat)
    ensures r >= 1
  {
    if n == 0 then 1 else 2 * Pow2(n - 1)
  }

  lemma {:induction false} Pow2Add(a: nat, b: nat)
    ensures Pow2(a + b) == Pow2(a) * Pow2(b)
  {
    if a > 0 {
      Pow2Add(a - 1, b);
      MulAssoc(2, Pow2(a - 1), Pow2(b));
    }
  }

  lemma {:induction false} Pow2Mono(a: nat, b: nat)
    requires a <= b
    ensures Pow2(a) <= Pow2(b)
  {
    if a < b {
      Pow2Mono(a, b - 1);
    }
  }

  lemma Pow2Strict(a: nat, b: nat)
    requires a < b
    ensures Pow2(a) < Pow2(b)
  {
    Pow2Mono(a, b - 1);
  }

  lemma Pow2Eight()
    ensures Pow2(8) == 256
    ensures Pow2(1) == 2 && Pow2(2) == 4 && Pow2(4) == 16
  {
    assert Pow2(4) == 16;
    Pow2Add(4, 4);
  }

  lemma MulAssoc(a: int, b: int, c: int)
    ensures a * (b * c) == (a * b) * c
  {
  }

  lemma MulMono(a: int, b: int, c: int)
    requires a <= b && 0 <= c
    ensures a * c <= b * c
  {
  }

  /** Quotient and remainder are determined by the division equation. */
  lemma DivUnique(x: int, d: int, q: int, r: int)
    requires d > 0 && x == q * d + r && 0 <= r < d
    ensures x / d == q && x % d == r
  {
    var q', r' := x / d, x % d;
    assert x == q' * d + r';
    assert (q - q') * d == r' - r;
    if q - q' >= 1 {
      MulMono(1, q - q', d);
    } else if q - q' <= -1 {
      MulMono(q - q', -1, d);
    }
  }

  lemma DivBounds(x: int, d: int)
    requires d > 0 && x >= 0
    ensures x == (x / d) * d + x % d && 0 <= x % d < d && 0 <= x / d <= x
  {
    if x / d < 0 {
      MulMono(x / d, -1, d);
    }
    MulMono(1, d, x / d);
  }

  lemma DivAddMul(q: int, d: int, r: int)
    requires d > 0
    ensures (q * d + r) / d == q + r / d
    ensures (q * d + r) % d == r % d
  {
    var q', r' := r / d, r % d;
    assert r == q' * d + r';
    assert (q + q') * d == q * d + q' * d;
    DivUnique(q * d + r, d, q + q', r');
  }

  lemma DivDiv(x: nat, a: nat, b: nat)
    requires a > 0 && b > 0
    ensures a * b > 0 && x / (a * b) == (x / a) / b
  {
    MulMono(1, a, b);
    var q, r := x / a, x % a;
    var q2, r2 := q / b, q % b;
    DivBounds(x, a);
    DivBounds(q, b);
    calc {
      x;
      (q2 * b + r2) * a + r;
      { MulAssoc(q2, b, a); assert (q2 * b + r2) * a == q2 * b * a + r2 * a; }
      q2 * (b * a) + (r2 * a + r);
    }
    MulMono(r2, b - 1, a);
    assert (b - 1) * a + a == b * a;
    DivUnique(x, a * b, q2, r2 * a + r);
  }

  lemma DivMono(x: nat, y: nat, d: nat)
    requires d > 0 && x <= y
    ensures x / d <= y / d
  {
    DivBounds(x, d);
    DivBounds(y, d);
    if x / d > y / d {
      MulMono(y / d + 1, x / d, d);
    }
  }

  /** A value below a * b has a quotient by a below b. */
  lemma DivLess(x: nat, a: nat, b: nat)
    requires a > 0 && x < a * b
    ensures x / a < b
  {
    DivBounds(x, a);
    if x / a >= b {
      MulMono(b, x / a, a);
    }
  }

  lemma SameQuotientAndRemainder(x: nat, y: nat, d: nat)
    requires d > 0 && x / d == y / d && x % d == y % d
    ensures x == y
  {
    DivBounds(x, d);
    DivBounds(y, d);
  }

  lemma ModSmall(x: nat, d: nat)
    requires x < d
    ensures x % d == x && x / d == 0
  {
    DivUnique(x, d, 0, x);
  }

  /** Reducing modulo a multiple first changes nothing. */
  lemma ModMod(x: nat, a: nat, b: nat)
    requires a > 0 && b > 0
    ensures a * b > 0 && (x % (a * b)) % a == x % a
  {
    MulMono(1, a, b);
    var ab := a * b;
    DivBounds(x, ab);
    ModModStep(a, b, x / ab, x % ab);
  }

  lemma ModModStep(a: nat, b: nat, q: nat, r: nat)
    requires a > 0 && b > 0
    ensures (q * (a * b) + r) % a == r % a
  {
    MulAssoc(q, b, a);
    DivAddMul(q * b, a, r);
  }

  /** Record `i` of `n` equal records of length `l` ends within them. */
  lemma RecordFits(i: nat, n: nat, l: nat)
    requires i < n
    ensures i * l + l <= n * l && (i + 1) * l == i * l + l
  {
    MulMono(i + 1, n, l);
  }

  /** Shifting commutes with masking: (x mod a*b) / a == (x / a) mod b. */
  lemma ModDiv(x: nat, a: nat, b: nat)
    requires a > 0 && b > 0
    ensures a * b > 0 && (x % (a * b)) / a == (x / a) % b
  {
    MulMono(1, a, b);
    var ab := a * b;
    DivBounds(x, ab);
    var q, r := x / ab, x % ab;
    ModDivStep(x, a, b, q, r);
  }

  lemma ModDivStep(x: nat, a: nat, b: nat, q: nat, r: nat)
    requires a > 0 && b > 0 && x == q * (a * b) + r && r < a * b
    ensures r / a == (x / a) % b
  {
    MulAssoc(q, b, a);
    DivAddMul(q * b, a, r);
    DivLess(r, a, b);
    DivBounds(r, a);
    DivUnique(x / a, b, q, r / a);
  }

  /** n records of length l, added up one at a time. */
  function Span(l: nat, n: nat): nat
  {
    if n == 0 then 0 else Span(l, n - 1) + l
  }

  lemma {:induction false} SpanIsProduct(l: nat, n: nat)
    ensures Span(l, n) == n * l
  {
    if n > 0 {
      SpanIsProduct(l, n - 1);
    }
  }

  function Min(a: int, b: int): int { if a <= b then a else b }

  function Max(a: int, b: int): int { if a >= b then a else b }

  /** x / d, rounded up. */
  function CeilDiv(x: nat, d: nat): nat
    requires d > 0
  {
    DivBounds(x + d - 1, d);
    (x + d - 1) / d
  }

  lemma CeilDivBounds(x: nat, d: nat)
    requires d > 0
    ensures CeilDiv(x, d) * d >= x
    ensures x > 0 ==> CeilDiv(x, d) > 0 && (CeilDiv(x, d) - 1) * d < x
    ensures x == 0 ==> CeilDiv(x, d) == 0
  {
    DivBounds(x + d - 1, d);
    if x == 0 {
      ModSmall(d - 1, d);
    } else {
      DivAddMul(1, d, x - 1);
    }
  }

  /** x >> n. */
  function Shr(x: nat, n: nat): nat
  {
    DivBounds(x, Pow2(n));
    x / Pow2(n)
  }

  lemma ShrZero(n: nat)
    ensures Shr(n, 0) == n
  {
  }

  lemma ShrTwice(n: nat, a: nat, b: nat)
    ensures Shr(Shr(n, a), b) == Shr(n, a + b)
  {
    Pow2Add(a, b);
    DivDiv(n, Pow2(a), Pow2(b));
  }

  /** The low n bits of x. */
  function Low(x: nat, n: nat): (r: nat)
    ensures r < Pow2(n)
  {
    DivBounds(x, Pow2(n));
    x % Pow2(n)
  }

  /** A few values the parameter sets use. */
  lemma Pow2Table()
    ensures Pow2(7) == 128 && Pow2(9) == 512 && Pow2(12) == 4096 && Pow2(14) == 16384 && Pow2(15) == 32768
    ensures Pow2(22) == 4194304 && Pow2(23) == 8388608 && Pow2(24) == 16777216 && Pow2(31) == 2147483648
  {
    Pow2Eight();
    assert Pow2(3) == 8;
    assert Pow2(6) == 64 by { Pow2Add(2, 4); }
    assert Pow2(7) == 128 by { Pow2Add(4, 3); }
    Pow2Add(8, 1);
    Pow2Add(8, 4);
    Pow2Add(8, 6);
    Pow2Add(8, 7);
    Pow2Add(15, 7);
    Pow2Add(15, 8);
    Pow2Add(23, 1);
    Pow2Add(23, 8);
  }
}
