/** Byte strings, fixed-width integers in both byte orders, and bit fields. */
module Bytes {
  import opened Arith

  type Byte = b: int | 0 <= b < 256
  type Bytes = seq<Byte>

  function Zeros(n: nat): (z: Bytes)
    ensures |z| == n && forall i :: 0 <= i < n ==> z[i] == 0
  {
    seq(n, _ => 0)
  }

  /** All of them, in order. */
  function Concat(parts: seq<Bytes>): Bytes
  {
    if |parts| == 0 then [] else parts[0] + Concat(parts[1..])
  }

  /** Big-endian value. */
  function Be(x: Bytes): nat
  {
    if |x| == 0 then 0 else Be(x[..|x| - 1]) * 256 + x[|x| - 1]
  }

  /** The low w bytes of n, most significant first. */
  function ToBe(n: nat, w: nat): (r: Bytes)
    ensures |r| == w
  {
    if w == 0 then [] else ToBe(n / 256, w - 1) + [n % 256]
  }

  /** The low w bytes of n, least significant first. */
  function ToLe(n: nat, w: nat): (r: Bytes)
    ensures |r| == w
  {
    if w == 0 then [] else [n % 256] + ToLe(n / 256, w - 1)
  }

  lemma {:induction false} BeAppend(x: Bytes, y: Bytes)
    ensures Be(x + y) == Be(x) * Pow2(8 * |y|) + Be(y)
  {
    if |y| == 0 {
      assert x + y == x;
    } else {
      var y' := y[..|y| - 1];
      assert (x + y)[..|x + y| - 1] == x + y';
      BeAppend(x, y');
      Pow2Eight();
      Pow2Add(8 * |y'|, 8);
      calc {
        Be(x + y);
        (Be(x) * Pow2(8 * |y'|) + Be(y')) * 256 + y[|y| - 1];
        Be(x) * Pow2(8 * |y'|) * 256 + (Be(y') * 256 + y[|y| - 1]);
        { MulAssoc(Be(x), Pow2(8 * |y'|), 256); }
        Be(x) * Pow2(8 * |y|) + Be(y);
      }
    }
  }

  lemma {:induction false} BeBound(x: Bytes)
    ensures Be(x) < Pow2(8 * |x|)
  {
    if |x| > 0 {
      var x' := x[..|x| - 1];
      BeBound(x');
      Pow2Eight();
      Pow2Add(8 * |x'|, 8);
      MulMono(Be(x'), Pow2(8 * |x'|) - 1, 256);
    }
  }

  lemma {:induction false} BeToBe(n: nat, w: nat)
    requires n < Pow2(8 * w)
    ensures Be(ToBe(n, w)) == n
  {
    if w > 0 {
      Pow2Eight();
      Pow2Add(8, 8 * (w - 1));
      DivLess(n, 256, Pow2(8 * (w - 1)));
      BeToBe(n / 256, w - 1);
      DivBounds(n, 256);
      assert ToBe(n, w)[..w - 1] == ToBe(n / 256, w - 1);
    }
  }

  /** Equal encodings of two in-range integers come from equal integers. */
  lemma ToBeInjective(m: nat, n: nat, w: nat)
    requires m < Pow2(8 * w) && n < Pow2(8 * w)
    requires ToBe(m, w) == ToBe(n, w)
    ensures m == n
  {
    BeToBe(m, w);
    BeToBe(n, w);
  }

  /** The high bytes of a value that needs only w bytes are zero. */
  lemma {:induction false} ToBeHighZeros(n: nat, w: nat, extra: nat)
    requires n < Pow2(8 * w)
    ensures ToBe(n, extra + w) == Zeros(extra) + ToBe(n, w)
  {
    if w == 0 {
      ToBeZero(extra);
    } else {
      Pow2Eight();
      Pow2Add(8, 8 * (w - 1));
      DivLess(n, 256, Pow2(8 * (w - 1)));
      ToBeHighZeros(n / 256, w - 1, extra);
      assert extra + w - 1 == extra + (w - 1);
      calc {
        ToBe(n, extra + w);
        ToBe(n / 256, extra + (w - 1)) + [n % 256];
        Zeros(extra) + ToBe(n / 256, w - 1) + [n % 256];
        Zeros(extra) + (ToBe(n / 256, w - 1) + [n % 256]);
      }
    }
  }

  lemma {:induction false} ToBeZero(w: nat)
    ensures ToBe(0, w) == Zeros(w)
  {
    if w > 0 {
      ToBeZero(w - 1);
    }
  }

  /** Reading byte i of the little-endian form. */
  lemma {:induction false} ToLeByte(n: nat, w: nat, i: nat)
    requires i < w
    ensures ToLe(n, w)[i] == (n / Pow2(8 * i)) % 256
  {
    if i > 0 {
      ToLeByte(n / 256, w - 1, i - 1);
      Pow2Eight();
      Pow2Add(8, 8 * (i - 1));
      DivDiv(n, 256, Pow2(8 * (i - 1)));
    }
  }

  /** The bits [off, off + width) of x, counted from its most significant bit. */
  function Field(x: Bytes, off: nat, width: nat): nat
    requires off + width <= 8 * |x|
  {
    (Be(x) / Pow2(8 * |x| - off - width)) % Pow2(width)
  }

  lemma FieldBound(x: Bytes, off: nat, width: nat)
    requires off + width <= 8 * |x|
    ensures Field(x, off, width) < Pow2(width)
  {
    var shifted := Be(x) / Pow2(8 * |x| - off - width);
    DivBounds(Be(x), Pow2(8 * |x| - off - width));
    DivBounds(shifted, Pow2(width));
    hide Pow2, Be;
  }

  /** Bytes after the field do not matter. */
  lemma FieldPrefix(x: Bytes, e: nat, off: nat, width: nat)
    requires e <= |x| && off + width <= 8 * e
    ensures Field(x, off, width) == Field(x[..e], off, width)
  {
    var lo := x[e..];
    assert x == x[..e] + lo;
    BeAppend(x[..e], lo);
    BeBound(lo);
    var p, q := Pow2(8 * |lo|), Pow2(8 * e - off - width);
    Pow2Add(8 * |lo|, 8 * e - off - width);
    DivDiv(Be(x), p, q);
    DivUnique(Be(x), p, Be(x[..e]), Be(lo));
  }

  /** Bytes before the field do not matter. */
  lemma FieldSuffix(x: Bytes, s: nat, off: nat, width: nat)
    requires s <= |x| && 8 * s <= off && off + width <= 8 * |x|
    ensures Field(x, off, width) == Field(x[s..], off - 8 * s, width)
  {
    var hi, lo := x[..s], x[s..];
    assert x == hi + lo;
    BeAppend(hi, lo);
    var d := 8 * |x| - off - width;
    var t := off - 8 * s;
    Pow2Add(width + t, d);
    Pow2Add(t, width);
    MulAssoc(Be(hi), Pow2(width + t), Pow2(d));
    assert Be(x) == (Be(hi) * Pow2(width + t)) * Pow2(d) + Be(lo);
    DivAddMul(Be(hi) * Pow2(width + t), Pow2(d), Be(lo));
    MulAssoc(Be(hi), Pow2(t), Pow2(width));
    DivAddMul(Be(hi) * Pow2(t), Pow2(width), Be(lo) / Pow2(d));
  }

  /** A field can be read from any byte window that contains it. */
  lemma FieldWindow(x: Bytes, s: nat, e: nat, off: nat, width: nat)
    requires s <= e <= |x| && 8 * s <= off && off + width <= 8 * e
    ensures Field(x, off, width) == Field(x[s..e], off - 8 * s, width)
  {
    FieldPrefix(x, e, off, width);
    FieldSuffix(x[..e], s, off, width);
    assert x[..e][s..] == x[s..e];
  }

  /** Two strings of equal length that agree on every field of a tiling are equal. */
  lemma FieldsDetermine(x: Bytes, y: Bytes, b: nat)
    requires |x| == |y| && b in {1, 2, 4, 8}
    requires forall i: nat :: b * i + b <= 8 * |x| ==> Field(x, b * i, b) == Field(y, b * i, b)
    ensures x == y
  {
    forall j | 0 <= j < |x|
      ensures x[j] == y[j]
    {
      ByteFromFields(x, y, b, j);
    }
  }

  lemma OneByteField(v: Byte, off: nat, width: nat)
    requires off + width <= 8
    ensures Field([v], off, width) == (v / Pow2(8 - off - width)) % Pow2(width)
  {
    assert [v][..0] == [];
    assert Be([v]) == v;
  }

  lemma ByteFromFields(x: Bytes, y: Bytes, b: nat, j: nat)
    requires |x| == |y| && j < |x| && b in {1, 2, 4, 8}
    requires forall i: nat :: b * i + b <= 8 * |x| ==> Field(x, b * i, b) == Field(y, b * i, b)
    ensures x[j] == y[j]
  {
    var per := if b == 1 then 8 else if b == 2 then 4 else if b == 4 then 2 else 1;
    LeadingBits(x, y, b, j, per);
    assert Pow2(0) == 1;
  }

  /** The first t fields of byte j fix its leading b * t bits. */
  lemma {:induction false} LeadingBits(x: Bytes, y: Bytes, b: nat, j: nat, t: nat)
    requires |x| == |y| && j < |x| && b in {1, 2, 4, 8} && b * t <= 8
    requires forall i: nat :: b * i + b <= 8 * |x| ==> Field(x, b * i, b) == Field(y, b * i, b)
    ensures x[j] / Pow2(8 - b * t) == y[j] / Pow2(8 - b * t)
  {
    if t == 0 {
      Pow2Eight();
      ModSmall(x[j], 256);
      ModSmall(y[j], 256);
    } else {
      assert b * t == b * (t - 1) + b;
      LeadingBits(x, y, b, j, t - 1);
      FieldOfByte(x, y, b, j, t - 1);
      NextBits(x[j], y[j], 8 - b * t, b);
    }
  }

  lemma FieldOfByte(x: Bytes, y: Bytes, b: nat, j: nat, t: nat)
    requires |x| == |y| && j < |x| && b in {1, 2, 4, 8} && b * t + b <= 8
    requires forall i: nat :: b * i + b <= 8 * |x| ==> Field(x, b * i, b) == Field(y, b * i, b)
    ensures (x[j] / Pow2(8 - b * t - b)) % Pow2(b) == (y[j] / Pow2(8 - b * t - b)) % Pow2(b)
  {
    hide Field, Pow2;
    var per := 8 / b;
    var i := per * j + t;
    assert b * i == 8 * j + b * t by {
      assert b * per == 8;
      MulAssoc(b, per, j);
    }
    assert Field(x, b * i, b) == Field(y, b * i, b);
    FieldWindow(x, j, j + 1, b * i, b);
    FieldWindow(y, j, j + 1, b * i, b);
    assert x[j..j + 1] == [x[j]] && y[j..j + 1] == [y[j]];
    OneByteField(x[j], b * t, b);
    OneByteField(y[j], b * t, b);
  }

  lemma NextBits(v: nat, u: nat, c: nat, b: nat)
    requires v / Pow2(c + b) == u / Pow2(c + b)
    requires (v / Pow2(c)) % Pow2(b) == (u / Pow2(c)) % Pow2(b)
    ensures v / Pow2(c) == u / Pow2(c)
  {
    Pow2Add(c, b);
    SplitQuotient(v, u, Pow2(c), Pow2(b));
  }

  lemma SplitQuotient(v: nat, u: nat, p: nat, q: nat)
    requires p > 0 && q > 0 && p * q > 0
    requires v / (p * q) == u / (p * q) && (v / p) % q == (u / p) % q
    ensures v / p == u / p
  {
    DivDiv(v, p, q);
    DivDiv(u, p, q);
    DivBounds(v, p);
    DivBounds(u, p);
    SameQuotientAndRemainder(v / p, u / p, q);
  }
}
