/**
 * Why a checksum is appended: of two different messages neither digit string dominates the other, so no signature can be
 * turned into another by walking chains forward only.
 */
module NoDomination {
  import opened Arith
  import opened Bytes
  import opened Params
  import opened Reference
  import opened Lms

  /** Digit j of `count` digits of `lgw` bits, most significant first. */
  function Digit(c: nat, count: nat, lgw: nat, j: nat): nat
    requires j < count
  {
    Low(Shr(c, Place(count, lgw, j)), lgw)
  }

  /** How far digit j sits from the bottom. */
  function Place(count: nat, lgw: nat, j: nat): nat
    requires j < count
  {
    (count - 1 - j) * lgw
  }

  /** The value above digit j is rebuilt from the value above it and the digit. */
  lemma TopDigits(c: nat, lgw: nat, k: nat)
    ensures Shr(c, k * lgw) == Shr(c, (k + 1) * lgw) * Pow2(lgw) + Low(Shr(c, k * lgw), lgw)
  {
    assert (k + 1) * lgw == k * lgw + lgw;
    ShrTwice(c, k * lgw, lgw);
    DivBounds(Shr(c, k * lgw), Pow2(lgw));
  }

  /** If no leading digit of c is below that of d, the leading part of c is not below that of d. */
  lemma {:induction false} LeadingOrder(c: nat, d: nat, count: nat, lgw: nat, k: nat)
    requires k <= count && c < Pow2(count * lgw) && d < Pow2(count * lgw)
    requires forall j: nat :: j < count - k ==> Digit(c, count, lgw, j) >= Digit(d, count, lgw, j)
    ensures Shr(c, k * lgw) >= Shr(d, k * lgw)
    decreases count - k
  {
    hide Shr, Low, Pow2;
    if k == count {
      OutOfDigits(c, count * lgw);
      OutOfDigits(d, count * lgw);
    } else {
      LeadingOrder(c, d, count, lgw, k + 1);
      TopDigits(c, lgw, k);
      TopDigits(d, lgw, k);
      var j: nat := count - 1 - k;
      assert Digit(c, count, lgw, j) >= Digit(d, count, lgw, j);
      MulMono(Shr(d, (k + 1) * lgw), Shr(c, (k + 1) * lgw), Pow2(lgw));
    }
  }

  lemma OutOfDigits(c: nat, bits: nat)
    requires c < Pow2(bits)
    ensures Shr(c, bits) == 0
  {
    ModSmall(c, Pow2(bits));
  }

  /** A smaller number has a smaller digit somewhere. */
  lemma SmallerHasSmallerDigit(c: nat, d: nat, count: nat, lgw: nat) returns (j: nat)
    requires c < d < Pow2(count * lgw) && count > 0
    ensures j < count && Digit(c, count, lgw, j) < Digit(d, count, lgw, j)
  {
    if j0: nat :| j0 < count && Digit(c, count, lgw, j0) < Digit(d, count, lgw, j0) {
      j := j0;
    } else {
      ShrZero(c);
      ShrZero(d);
      assert 0 * lgw == 0;
      LeadingOrder(c, d, count, lgw, 0);
    }
  }

  /** Distances from the top shrink when digits grow. */
  lemma {:induction false} ChecksumOrder(a: seq<nat>, b: seq<nat>, w: nat)
    requires |a| == |b| && forall i :: 0 <= i < |a| ==> b[i] <= a[i] < w
    ensures Checksum(a, w) <= Checksum(b, w)
    ensures a != b ==> Checksum(a, w) < Checksum(b, w)
  {
    if |a| > 0 {
      var n := |a| - 1;
      ChecksumOrder(a[..n], b[..n], w);
      if a != b && a[..n] == b[..n] {
        assert a == a[..n] + [a[n]] && b == b[..n] + [b[n]];
      }
    }
  }

  // ---- WOTS+ ---------------------------------------------------------------

  lemma SameDigitsSameNode(p: Params, m: Bytes, n: Bytes)
    requires p.lgw in {1, 2, 4, 8} && |m| == N && |n| == N && DigitsOf(p, m) == DigitsOf(p, n)
    ensures m == n
  {
    hide *;
    DigitCounts(p);
    NodeBytes();
    forall i: nat | p.lgw * i + p.lgw <= 8 * N
      ensures Field(m, p.lgw * i, p.lgw) == Field(n, p.lgw * i, p.lgw)
    {
      InDigits(p.lgw, p.Len1(), i);
      assert DigitsOf(p, m)[i] == DigitsOf(p, n)[i];
    }
    FieldsDetermine(m, n, p.lgw);
  }

  lemma NodeBytes()
    ensures N == 16 && NODE == 32
  {
  }

  lemma InDigits(lgw: nat, len1: nat, i: nat)
    requires lgw in {1, 2, 4, 8} && lgw * len1 == 8 * N && lgw * i + lgw <= 8 * N
    ensures i < len1
  {
    if i >= len1 {
      MulMono(len1, i, lgw);
    }
  }

  lemma ChecksumDigitIs(p: Params, csum: nat, j: nat)
    requires p.lgw in {1, 2, 4, 8} && j < p.Len2()
    ensures ChecksumDigit(p, csum, j) == Digit(csum, p.Len2(), p.lgw, j)
  {
    hide Low, Shr, Params.Len2;
    assert p.CsumBits() - p.lgw * (j + 1) == (p.Len2() - 1 - j) * p.lgw;
  }

  /** For any two different nodes, some WOTS+ digit of the first is strictly below the second's. */
  lemma WotsNoDomination(p: Params, m: Bytes, n: Bytes) returns (i: nat)
    requires p.lgw in {1, 2, 4, 8} && |m| == N && |n| == N && m != n
    ensures i < p.Len() && WotsDigit(p, m, i) < WotsDigit(p, n, i)
  {
    hide *;
    DigitCounts(p);
    ChecksumFits(p, m);
    ChecksumFits(p, n);
    WotsDigits(p, m);
    WotsDigits(p, n);
    var a, b := DigitsOf(p, m), DigitsOf(p, n);
    if k: nat :| k < |a| && a[k] < b[k] {
      i := k;
    } else {
      if a == b {
        SameDigitsSameNode(p, m, n);
      }
      ChecksumOrder(a, b, p.W());
      var j := SmallerHasSmallerDigit(Checksum(a, p.W()), Checksum(b, p.W()), p.Len2(), p.lgw);
      ChecksumDigitIs(p, Checksum(a, p.W()), j);
      ChecksumDigitIs(p, Checksum(b, p.W()), j);
      i := p.Len1() + j;
      assert i - p.Len1() == j;
    }
  }

  /** The extended digits, by their two halves. */
  lemma WotsDigits(p: Params, m: Bytes)
    requires p.lgw in {1, 2, 4, 8} && |m| == N
    ensures p.Len() == p.Len1() + p.Len2() && p.CsumBits() == p.Len2() * p.lgw
    ensures ChecksumOf(p, m) == Checksum(DigitsOf(p, m), p.W())
    ensures forall i: nat {:trigger WotsDigit(p, m, i)} :: i < p.Len1() ==> WotsDigit(p, m, i) == DigitsOf(p, m)[i]
    ensures forall i: nat {:trigger WotsDigit(p, m, i)} :: p.Len1() <= i < p.Len() ==>
              WotsDigit(p, m, i) == ChecksumDigit(p, ChecksumOf(p, m), i - p.Len1())
  {
    hide Params.Len1, Params.Len2, Params.W, DigitsOf, ChecksumDigit, Checksum;
  }

  // ---- LM-OTS --------------------------------------------------------------

  function LmsDigits(p: LmsParams, q: Bytes, n: nat): (r: seq<nat>)
    requires p.WellFormed() && |q| == NODE && n <= p.u
    ensures |r| == n && forall i :: 0 <= i < n ==> p.w * i + p.w <= 8 * NODE && r[i] == Coef(q, i, p.w) && r[i] < Pow2(p.w)
  {
    if n == 0 then []
    else
      CoefRoom(p, n - 1);
      LmsDigits(p, q, n - 1) + [Coef(q, n - 1, p.w)]
  }

  lemma {:induction false} LmsSumIsChecksum(p: LmsParams, q: Bytes, n: nat)
    requires p.WellFormed() && |q| == NODE && n <= p.u
    ensures SumTo(q, p, n) == Checksum(LmsDigits(p, q, n), Pow2(p.w))
  {
    hide *;
    if n == 0 {
      NoSum(p, q);
    } else {
      LmsSumIsChecksum(p, q, n - 1);
      LmsDigitsSnoc(p, q, n);
      CoefRoom(p, n - 1);
      SumSnoc(p, q, n);
      ChecksumSnoc(LmsDigits(p, q, n - 1), Coef(q, n - 1, p.w), Pow2(p.w));
    }
  }

  lemma NoSum(p: LmsParams, q: Bytes)
    requires p.WellFormed() && |q| == NODE
    ensures SumTo(q, p, 0) == 0 && Checksum(LmsDigits(p, q, 0), Pow2(p.w)) == 0
  {
    hide Pow2;
  }

  lemma SumSnoc(p: LmsParams, q: Bytes, n: nat)
    requires p.WellFormed() && |q| == NODE && 0 < n <= p.u
    ensures p.w in {1, 2, 4, 8} && p.w * (n - 1) + p.w <= 8 * NODE
    ensures SumTo(q, p, n) == SumTo(q, p, n - 1) + (Pow2(p.w) - 1 - Coef(q, n - 1, p.w))
  {
    hide Coef, Pow2, LmsParams.MaxSum;
    CoefRoom(p, n - 1);
  }

  lemma LmsDigitsSnoc(p: LmsParams, q: Bytes, n: nat)
    requires p.WellFormed() && |q| == NODE && 0 < n <= p.u
    ensures p.w in {1, 2, 4, 8} && p.w * (n - 1) + p.w <= 8 * NODE
    ensures LmsDigits(p, q, n) == LmsDigits(p, q, n - 1) + [Coef(q, n - 1, p.w)]
  {
    hide Coef, Pow2, LmsParams.MaxSum;
    CoefRoom(p, n - 1);
  }

  lemma ChecksumSnoc(digits: seq<nat>, d: nat, w: nat)
    requires (forall i :: 0 <= i < |digits| ==> digits[i] < w) && d < w
    ensures Checksum(digits + [d], w) == Checksum(digits, w) + (w - 1 - d)
  {
    assert (digits + [d])[..|digits|] == digits;
  }

  /** The message coefficients are read from the digest, the rest from the checksum. */
  lemma MessageCoef(p: LmsParams, q: Bytes, i: nat)
    requires p.WellFormed() && |q| == NODE && i < p.u
    ensures p.w * i + p.w <= 8 * NODE
    ensures Coef(CoefSource(q, p), i, p.w) == Coef(q, i, p.w)
  {
    CoefRoom(p, i);
    CoefPlace(q, i, p.w);
    hide FullChecksum, LmsParams.WellFormed;
  }

  /** Checksum coefficient j is digit j of the unshifted sum's v digits. */
  lemma ChecksumCoef(p: LmsParams, q: Bytes, j: nat)
    requires p.WellFormed() && |q| == NODE && j < p.v
    ensures p.w * (p.u + j) + p.w <= 8 * (NODE + 2)
    ensures Coef(CoefSource(q, p), p.u + j, p.w) == Digit(SumTo(q, p, p.u), p.v, p.w, j)
  {
    hide *;
    NodeBytes();
    ShapeOf(p);
    CoefRoom(p, p.u + j);
    ChecksumFits16(q, p);
    SourceParts(q, p);
    var source := CoefSource(q, p);
    CoefIsField(source, p.u + j, p.w);
    TailDigit(source, FullChecksum(q, p), SumTo(q, p, p.u), p.w, p.u, p.v, p.ls, j);
  }

  /** A field behind the node bytes is a digit of the unshifted sum. */
  lemma TailDigit(source: Bytes, c: nat, sum: nat, w: nat, u: nat, v: nat, ls: nat, j: nat)
    requires |source| == NODE + 2 && source[NODE..] == ToBe(c, 2) && c < Pow2(16) && c == sum * Pow2(ls)
    requires w * u == 8 * NODE && ls + v * w == 16 && j < v && w * (u + j) + w <= 8 * |source|
    ensures Field(source, w * (u + j), w) == Digit(sum, v, w, j)
  {
    hide *;
    NodeBytes();
    Offsets(w, u, v, ls, j);
    var off := w * j;
    assert w * (u + j) - 8 * NODE == off;
    FieldSuffix(source, NODE, w * (u + j), w);
    WordField(c, off, w, ToBe(c, 2));
    ShiftedDigit(sum, ls, (v - 1 - j) * w, w, c);
    DigitIs(sum, v, w, j);
  }

  lemma DigitIs(c: nat, count: nat, lgw: nat, j: nat)
    requires j < count
    ensures Digit(c, count, lgw, j) == Low(Shr(c, Place(count, lgw, j)), lgw)
    ensures Place(count, lgw, j) == (count - 1 - j) * lgw
  {
    hide Low, Shr, Pow2;
  }

  lemma ShapeOf(p: LmsParams)
    requires p.WellFormed()
    ensures p.w in {1, 2, 4, 8} && p.w * p.u == 8 * NODE && p.ls + p.v * p.w == 16 && p.v > 0 && p.p == p.u + p.v
  {
    hide Pow2, LmsParams.MaxSum;
  }

  lemma SourceParts(q: Bytes, p: LmsParams)
    requires p.WellFormed() && |q| == NODE
    ensures CoefSource(q, p)[NODE..] == ToBe(FullChecksum(q, p), 2)
    ensures FullChecksum(q, p) == SumTo(q, p, p.u) * Pow2(p.ls)
  {
    hide SumTo, Pow2, LmsParams.MaxSum;
    assert q + ToBe(FullChecksum(q, p), 2) == CoefSource(q, p);
  }

  lemma Offsets(w: nat, u: nat, v: nat, ls: nat, j: nat)
    requires w * u == 8 * NODE && ls + v * w == 16 && j < v
    ensures w * (u + j) == 8 * NODE + w * j && w * j + w <= 16
    ensures 16 - w * j - w == ls + (v - 1 - j) * w
  {
    RecordFits(j, v, w);
    assert (v - 1 - j) * w == v * w - j * w - w;
  }

  lemma WordField(c: nat, off: nat, w: nat, x: Bytes)
    requires c < Pow2(16) && off + w <= 16 && x == ToBe(c, 2)
    ensures Field(x, off, w) == Low(Shr(c, 16 - off - w), w)
  {
    BeToBe(c, 2);
  }

  /** The left shift only moves the digits up. */
  lemma ShiftedDigit(sum: nat, ls: nat, at: nat, w: nat, c: nat)
    requires c == sum * Pow2(ls)
    ensures Low(Shr(c, ls + at), w) == Low(Shr(sum, at), w)
  {
    hide Pow2;
    ShrTwice(c, ls, at);
    DivUnique(c, Pow2(ls), sum, 0);
  }

  lemma SameCoefsSameDigest(p: LmsParams, q: Bytes, r: Bytes)
    requires p.WellFormed() && |q| == NODE && |r| == NODE && LmsDigits(p, q, p.u) == LmsDigits(p, r, p.u)
    ensures q == r
  {
    hide LmsParams.MaxSum, Pow2, Field, Coef;
    forall i: nat | p.w * i + p.w <= 8 * NODE
      ensures Field(q, p.w * i, p.w) == Field(r, p.w * i, p.w)
    {
      WithinCoefs(p.w, p.u, i);
      CoefIsField(q, i, p.w);
      CoefIsField(r, i, p.w);
      assert LmsDigits(p, q, p.u)[i] == LmsDigits(p, r, p.u)[i];
    }
    FieldsDetermine(q, r, p.w);
  }

  /** For any two different digests, some LM-OTS coefficient of the first is strictly below the second's. */
  lemma LmsNoDomination(p: LmsParams, q: Bytes, r: Bytes) returns (i: nat)
    requires p.WellFormed() && |q| == NODE && |r| == NODE && q != r
    ensures i < p.p && p.w * i + p.w <= 8 * (NODE + 2)
    ensures Coef(CoefSource(q, p), i, p.w) < Coef(CoefSource(r, p), i, p.w)
  {
    hide *;
    ShapeOf(p);
    ChecksumFits16(q, p);
    ChecksumFits16(r, p);
    LmsSumIsChecksum(p, q, p.u);
    LmsSumIsChecksum(p, r, p.u);
    var a, b := LmsDigits(p, q, p.u), LmsDigits(p, r, p.u);
    if k: nat :| k < p.u && a[k] < b[k] {
      i := k;
      CoefRoom(p, k);
      MessageCoef(p, q, k);
      MessageCoef(p, r, k);
    } else {
      if a == b {
        SameCoefsSameDigest(p, q, r);
      }
      ChecksumOrder(a, b, Pow2(p.w));
      var j := SmallerHasSmallerDigit(SumTo(q, p, p.u), SumTo(r, p, p.u), p.v, p.w);
      ChecksumCoef(p, q, j);
      ChecksumCoef(p, r, j);
      i := p.u + j;
    }
  }
}
