/** SLH-DSA parameter sets: the eight stored numbers and the lengths derived from them. */
module Params {
  import opened Arith

  /** Hash output length in bytes. */
  const N: nat := 16

  /** toByte(0, 64 - n), the rest of the first SHA-256 block. */
  const PAD_LEN: nat := 48

  const WOTS_HASH: nat := 0
  const WOTS_PK: nat := 1
  const TREE: nat := 2
  const FORS_TREE: nat := 3
  const FORS_ROOTS: nat := 4
  const WOTS_PRF: nat := 5
  const FORS_PRF: nat := 6

  /** floor(log2 n). */
  function Log2(n: nat): nat
  {
    if n < 2 then 0 else 1 + Log2(n / 2)
  }

  lemma {:induction false} Log2Bounds(n: nat)
    requires n > 0
    ensures Pow2(Log2(n)) <= n < Pow2(Log2(n) + 1)
  {
    if n >= 2 {
      Log2Bounds(n / 2);
      assert n == 2 * (n / 2) + n % 2;
    }
  }

  lemma Log2Below(n: nat, b: nat)
    requires 0 < n < Pow2(b)
    ensures Log2(n) < b
  {
    Log2Bounds(n);
    if Log2(n) >= b {
      Pow2Mono(b, Log2(n));
    }
  }

  datatype Params = Params(h: nat, d: nat, hp: nat, a: nat, k: nat, lgw: nat, m: nat)
  {
    function W(): nat { Pow2(lgw) }

    function Len1(): nat
      requires lgw > 0
    {
      CeilDiv(8 * N, lgw)
    }

    function MaxChecksum(): nat
      requires lgw > 0
    {
      Len1() * (W() - 1)
    }

    function Len2(): nat
      requires lgw > 0
    {
      Log2(MaxChecksum()) / lgw + 1
    }

    function Len(): nat
      requires lgw > 0
    {
      Len1() + Len2()
    }

    function CsumBits(): nat
      requires lgw > 0
    {
      Len2() * lgw
    }

    function MdLen(): nat { CeilDiv(k * a, 8) }

    function IdxTreeBits(): nat
      requires d > 0
    {
      DivBounds(h, d);
      h - h / d
    }

    function IdxTreeLen(): nat
      requires d > 0
    {
      CeilDiv(IdxTreeBits(), 8)
    }

    function IdxLeafLen(): nat
      requires d > 0
    {
      CeilDiv(h, 8 * d)
    }

    function SigElements(): nat
      requires lgw > 0
    {
      1 + k * (1 + a) + h + d * Len()
    }

    function SigLen(): nat
      requires lgw > 0
    {
      SigElements() * N
    }

    function LeavesPerTree(): nat { Pow2(hp) }

    function ForsIndexWidth(): nat { WordWidthFor(k * Pow2(a)) }

    function XmssIndexWidth(): nat { WordWidthFor(LeavesPerTree() - 1) }

    /** Byte at which FORS index i's window starts. */
    function ForsByte(i: nat): nat { i * a / 8 }

    /** Bytes the emitter reads for FORS index i: at least three, more when the field needs them. */
    function ForsFieldBytes(i: nat): nat
    {
      Max(3, CeilDiv(a + i * a % 8, 8))
    }

    /** The numbers of a set agree with one another, but for where the FORS windows end. */
    predicate Consistent()
    {
      && lgw in {1, 2, 4, 8}
      && d >= 1 && hp >= 1 && k >= 1 && a >= 1
      && h == hp * d
      && MdLen() + IdxTreeLen() + IdxLeafLen() == m <= 32
      && hp * (d - 1) <= 56
      && ForsIndexWidth() <= 4 && XmssIndexWidth() <= 4
    }

    /** Every window a FORS index is read through ends inside the digest. */
    predicate WindowsInside()
    {
      forall i: nat :: i < k ==> ForsByte(i) + ForsFieldBytes(i) <= m
    }

    /** What every theorem about running a script asks of a set. */
    predicate WellFormed() { Consistent() && WindowsInside() }
  }

  function WordWidthFrom(max: nat, width: nat): nat
    requires 1 <= width <= 8
    decreases 8 - width
  {
    if width < 8 && max >= Pow2(8 * width - 1) then WordWidthFrom(max, width + 1) else width
  }

  /** The width found is the smallest, capped at eight, whose sign-magnitude range reaches `max`. */
  lemma {:induction false} WidthIsLeast(max: nat, width: nat)
    requires 1 <= width <= 8
    ensures width <= WordWidthFrom(max, width) <= 8
    ensures WordWidthFrom(max, width) < 8 ==> max < Pow2(8 * WordWidthFrom(max, width) - 1)
    ensures forall w: nat :: width <= w < WordWidthFrom(max, width) ==> max >= Pow2(8 * w - 1)
    decreases 8 - width
  {
    hide Pow2;
    if width < 8 && max >= Pow2(8 * width - 1) {
      WidthIsLeast(max, width + 1);
    }
  }

  function WordWidthFor(max: nat): nat { WordWidthFrom(max, 1) }

  /** `word_width_for`. */
  method WordWidthLoop(max: nat) returns (width: nat)
    ensures width == WordWidthFor(max)
    ensures 1 <= width <= 8
    ensures width < 8 ==> max < Pow2(8 * width - 1)
    ensures forall w: nat :: 1 <= w < width ==> max >= Pow2(8 * w - 1)
  {
    hide Pow2;
    width := 1;
    while width < 8 && max >= Pow2(8 * width - 1)
      invariant 1 <= width <= 8
      invariant WordWidthFrom(max, 1) == WordWidthFrom(max, width)
    {
      width := width + 1;
    }
    WidthIsLeast(max, 1);
  }

  // ---- consequences of well-formedness -------------------------------------

  /** The bounds the emitter's phases rely on, without the index window condition. */
  predicate Sized(p: Params)
  {
    && p.lgw in {1, 2, 4, 8}
    && 1 <= p.d && 1 <= p.hp <= 31 && 1 <= p.k && 1 <= p.a <= 30 && p.m <= 32
    && 1 <= p.ForsIndexWidth() <= 4 && 1 <= p.XmssIndexWidth() <= 4
  }

  lemma WellFormedSized(p: Params)
    requires p.WellFormed()
    ensures Sized(p)
  {
    ConsistentSized(p);
  }

  lemma ConsistentSized(p: Params)
    requires p.Consistent()
    ensures Sized(p)
  {
    ConsistentWidths(p);
  }

  /** Each part of the digest is the fewest bytes that hold its bits: k FORS indices, the tree index, one leaf index. */
  lemma DigestLayout(p: Params)
    requires p.WellFormed()
    ensures p.k * p.a <= 8 * p.MdLen() < p.k * p.a + 8
    ensures p.hp * (p.d - 1) <= 8 * p.IdxTreeLen() < p.hp * (p.d - 1) + 8
    ensures p.hp <= 8 * p.IdxLeafLen() < p.hp + 8
  {
    hide *;
    PartLengths(p);
    TreeBits(p);
    FewestBytes(p.k * p.a, 8, 1);
    FewestBytes(p.IdxTreeBits(), 8, 1);
    FewestBytes(p.hp, 8, p.d);
  }

  lemma PartLengths(p: Params)
    requires p.WellFormed()
    ensures p.d >= 1 && p.MdLen() == CeilDiv(p.k * p.a * 1, 8 * 1) && p.IdxTreeLen() == CeilDiv(p.IdxTreeBits() * 1, 8 * 1)
    ensures p.IdxLeafLen() == CeilDiv(p.hp * p.d, 8 * p.d)
  {
    hide CeilDiv;
  }

  /** Scaling the bits and the unit alike leaves the rounding alone. */
  lemma FewestBytes(bits: nat, unit: nat, scale: nat)
    requires scale > 0 && unit > 0
    ensures unit * scale > 0
    ensures bits <= unit * CeilDiv(bits * scale, unit * scale) < bits + unit
  {
    MulMono(1, unit, scale);
    var c := CeilDiv(bits * scale, unit * scale);
    CeilDivBounds(bits * scale, unit * scale);
    hide CeilDiv;
    assert c * (unit * scale) == (unit * c) * scale;
    if unit * c < bits {
      MulMono(unit * c + 1, bits, scale);
    }
    if unit * c >= bits + unit {
      assert c > 0;
      assert (c - 1) * (unit * scale) == (unit * c - unit) * scale;
      MulMono(bits, unit * c - unit, scale);
    }
  }

  /** The digest splits into its three parts, and md holds every FORS index. */
  lemma DigestParts(p: Params)
    requires p.WellFormed()
    ensures p.a * p.k <= 8 * p.MdLen()
    ensures p.MdLen() + p.IdxTreeLen() + p.IdxLeafLen() == p.m <= 32
  {
    CeilDivBounds(p.k * p.a, 8);
  }

  lemma TreeBits(p: Params)
    requires p.WellFormed()
    ensures p.IdxTreeBits() == p.hp * (p.d - 1) <= 56
    ensures p.IdxTreeLen() <= 7
    ensures p.IdxTreeBits() > 0 ==> p.IdxTreeLen() > 0
  {
    hide Params.MdLen, Params.IdxLeafLen, Params.ForsIndexWidth, Params.XmssIndexWidth, Params.WindowsInside, CeilDiv;
    TreeShare(p.h, p.d, p.hp);
    CeilDivBounds(p.IdxTreeBits(), 8);
  }

  lemma TreeShare(h: nat, d: nat, hp: nat)
    requires d >= 1 && h == hp * d
    ensures h - h / d == hp * (d - 1)
  {
    DivUnique(h, d, hp, 0);
    assert hp * d - hp == hp * (d - 1);
  }

  /** The two index widths hold every index they address. */
  lemma IndexWidths(p: Params)
    requires p.WellFormed()
    ensures 1 <= p.ForsIndexWidth() <= 4 && p.k * Pow2(p.a) < Pow2(8 * p.ForsIndexWidth() - 1)
    ensures 1 <= p.XmssIndexWidth() <= 4 && Pow2(p.hp) <= Pow2(8 * p.XmssIndexWidth() - 1)
    ensures p.hp <= 31 && p.a <= 30
  {
    hide Pow2, Params.Consistent, Params.WindowsInside;
    ConsistentWidths(p);
  }

  lemma ConsistentWidths(p: Params)
    requires p.Consistent()
    ensures 1 <= p.ForsIndexWidth() <= 4 && p.k * Pow2(p.a) < Pow2(8 * p.ForsIndexWidth() - 1)
    ensures 1 <= p.XmssIndexWidth() <= 4 && Pow2(p.hp) <= Pow2(8 * p.XmssIndexWidth() - 1)
    ensures p.hp <= 31 && p.a <= 30
  {
    hide Pow2, WordWidthFrom, Params.MdLen, Params.IdxTreeLen, Params.IdxLeafLen;
    WidthIsLeast(p.k * Pow2(p.a), 1);
    WidthIsLeast(p.LeavesPerTree() - 1, 1);
    HeightBounds(p.k, p.a, p.hp, p.ForsIndexWidth(), p.XmssIndexWidth());
  }

  lemma HeightBounds(k: nat, a: nat, hp: nat, fw: nat, xw: nat)
    requires 1 <= fw <= 4 && 1 <= xw <= 4 && k >= 1
    requires k * Pow2(a) < Pow2(8 * fw - 1) && Pow2(hp) - 1 < Pow2(8 * xw - 1)
    ensures a <= 30 && hp <= 31
  {
    hide Pow2;
    Pow2Mono(8 * fw - 1, 31);
    Pow2Mono(8 * xw - 1, 31);
    MulMono(1, k, Pow2(a));
    if hp > 31 {
      Pow2Strict(31, hp);
    }
    if a > 30 {
      Pow2Mono(31, a);
    }
  }

  lemma LeafBytes(p: Params)
    requires p.WellFormed()
    ensures 1 <= p.IdxLeafLen() <= 4
  {
    IndexWidths(p);
    var r := p.IdxLeafLen();
    assert p.h > 0 by {
      MulMono(1, p.d, p.hp);
    }
    CeilDivBounds(p.h, 8 * p.d);
    if r >= 5 {
      MulMono(4, r - 1, 8 * p.d);
      MulMono(p.hp, 31, p.d);
    }
  }

  /** The message digits tile the node exactly, and the checksum fits its digits. */
  lemma DigitCounts(p: Params)
    requires p.lgw in {1, 2, 4, 8}
    ensures p.lgw * p.Len1() == 8 * N && 16 <= p.Len1() <= 128
    ensures 2 <= p.W() <= 256
    ensures 0 < p.MaxChecksum() < Pow2(p.CsumBits())
    ensures 1 <= p.Len2() <= 12 && p.CsumBits() <= 20
  {
    Pow2Eight();
    var len1 := if p.lgw == 1 then 128 else if p.lgw == 2 then 64 else if p.lgw == 4 then 32 else 16;
    assert p.Len1() == len1;
    assert p.MaxChecksum() == (if p.lgw == 1 then 128 else if p.lgw == 2 then 192 else if p.lgw == 4 then 480 else 4080);
    var lg := Log2(p.MaxChecksum());
    Log2Bounds(p.MaxChecksum());
    Pow2Add(8, 4);
    Log2Below(p.MaxChecksum(), 12);
    DivBounds(lg, p.lgw);
    assert p.CsumBits() == (lg / p.lgw) * p.lgw + p.lgw;
    Pow2Mono(lg + 1, p.CsumBits());
  }

  /** A signature is far below any 64-bit limit. */
  lemma SignatureSize(p: Params)
    requires p.WellFormed()
    ensures 0 < p.SigElements() && p.SigLen() < 0x8000_0000_0000_0000
  {
    hide *;
    ShapeFacts(p);
    IndexWidths(p);
    DigitCounts(p);
    TreeBits(p);
    ForsSizeBound(p.k, p.a, p.ForsIndexWidth());
    ElementTotal(p);
    SizeFrom(p.SigElements(), p.SigLen(), p.k * (1 + p.a), p.h, p.d, p.hp, p.Len());
  }

  lemma SizeFrom(total: nat, bytes: nat, fors: nat, h: nat, d: nat, hp: nat, len: nat)
    requires fors < 0x8000_0000 && h == hp * d && hp * (d - 1) <= 56 && 1 <= hp <= 31 && d >= 1 && len <= 140
    requires total == 1 + fors + h + d * len && bytes == (1 + fors + h + d * len) * N
    ensures 0 < total && bytes < 0x8000_0000_0000_0000
  {
    SizeBound(fors, h, d, hp, len);
  }

  lemma ShapeFacts(p: Params)
    requires p.WellFormed()
    ensures p.lgw in {1, 2, 4, 8} && p.d >= 1 && p.hp >= 1 && p.k >= 1 && p.a >= 1 && p.h == p.hp * p.d && p.m <= 32
  {
  }

  lemma ElementTotal(p: Params)
    requires p.lgw > 0
    ensures p.SigElements() == 1 + p.k * (1 + p.a) + p.h + p.d * p.Len()
    ensures p.Len() == p.Len1() + p.Len2()
    ensures p.SigLen() == (1 + p.k * (1 + p.a) + p.h + p.d * p.Len()) * N
  {
  }

  lemma SizeBound(fors: nat, h: nat, d: nat, hp: nat, len: nat)
    requires fors < 0x8000_0000 && h == hp * d && hp * (d - 1) <= 56 && 1 <= hp <= 31 && d >= 1 && len <= 140
    ensures (1 + fors + h + d * len) * N < 0x8000_0000_0000_0000
  {
    assert hp * d == hp * (d - 1) + hp;
    MulMono(1, hp, d - 1);
    MulMono(d, 57, len);
  }

  lemma ForsSizeBound(k: nat, a: nat, w: nat)
    requires 1 <= w <= 4 && k * Pow2(a) < Pow2(8 * w - 1)
    ensures k * (1 + a) < 0x8000_0000
  {
    hide Pow2;
    Pow2Mono(8 * w - 1, 31);
    Pow2Table();
    Exceeds(a);
    MulMono(1 + a, Pow2(a), k);
  }

  lemma {:induction false} Exceeds(a: nat)
    ensures 1 + a <= Pow2(a)
  {
    if a > 0 {
      Exceeds(a - 1);
    }
  }

  // ---- the three supported sets --------------------------------------------

  const SHA2_128S := Params(63, 7, 9, 12, 14, 4, 30)
  const SHA2_128_24 := Params(22, 1, 22, 24, 6, 2, 21)
  const SHA2_128_24_D2 := Params(24, 2, 12, 14, 15, 2, 31)

  /** A set whose last FORS window ends inside the digest reads no window past it. */
  lemma WindowsFit(p: Params)
    requires p.a >= 1 && p.k >= 1
    requires (p.k - 1) * p.a / 8 + Max(3, CeilDiv(p.a + 7, 8)) <= p.m
    ensures p.WindowsInside()
  {
    forall i: nat | i < p.k
      ensures p.ForsByte(i) + p.ForsFieldBytes(i) <= p.m
    {
      MulMono(i, p.k - 1, p.a);
      DivMono(i * p.a, (p.k - 1) * p.a, 8);
      CeilDivMono(p.a + i * p.a % 8, p.a + 7);
    }
  }

  lemma CeilDivMono(x: nat, y: nat)
    requires x <= y
    ensures CeilDiv(x, 8) <= CeilDiv(y, 8)
  {
    DivMono(x + 7, y + 7, 8);
  }

  lemma SupportedSets()
    ensures SHA2_128S.WellFormed() && SHA2_128S.SigLen() == 7856
    ensures SHA2_128_24.WellFormed() && SHA2_128_24.SigLen() == 3856
    ensures SHA2_128_24_D2.WellFormed() && SHA2_128_24_D2.SigLen() == 6176
  {
    Set128S();
    Set12824();
    Set12824D2();
  }

  lemma Width3(max: nat)
    requires 32768 <= max < 8388608
    ensures WordWidthFor(max) == 3
  {
    Pow2Table();
    assert WordWidthFrom(max, 3) == 3;
    assert WordWidthFrom(max, 2) == 3;
  }

  lemma Width4(max: nat)
    requires 8388608 <= max < 2147483648
    ensures WordWidthFor(max) == 4
  {
    Pow2Table();
    assert WordWidthFrom(max, 4) == 4;
    assert WordWidthFrom(max, 3) == 4;
    assert WordWidthFrom(max, 2) == 4;
  }

  lemma Width2(max: nat)
    requires 128 <= max < 32768
    ensures WordWidthFor(max) == 2
  {
    Pow2Table();
    assert WordWidthFrom(max, 2) == 2;
  }

  lemma Set128S()
    ensures SHA2_128S.WellFormed() && SHA2_128S.SigLen() == 7856
  {
    hide Pow2, WordWidthFor;
    Pow2Table();
    WindowsFit(SHA2_128S);
    Width3(14 * 4096);
    Width2(511);
    Lengths(SHA2_128S);
  }

  lemma Set12824()
    ensures SHA2_128_24.WellFormed() && SHA2_128_24.SigLen() == 3856
  {
    hide Pow2, WordWidthFor;
    Pow2Table();
    WindowsFit(SHA2_128_24);
    Width4(6 * 16777216);
    Width3(4194303);
    Lengths(SHA2_128_24);
  }

  lemma Set12824D2()
    ensures SHA2_128_24_D2.WellFormed() && SHA2_128_24_D2.SigLen() == 6176
  {
    hide Pow2, WordWidthFor;
    Pow2Table();
    WindowsFit(SHA2_128_24_D2);
    Width3(15 * 16384);
    Width2(4095);
    Lengths(SHA2_128_24_D2);
  }

  /** WOTS+ chain counts for every digit width. */
  lemma Lengths(p: Params)
    requires p.lgw in {1, 2, 4, 8}
    ensures p.Len1() == (match p.lgw case 1 => 128 case 2 => 64 case 4 => 32 case _ => 16)
    ensures p.Len2() == (match p.lgw case 1 => 8 case 2 => 4 case 4 => 3 case _ => 2)
  {
    Pow2Eight();
    Logs();
    hide Log2;
    assert p.MaxChecksum() == (match p.lgw case 1 => 128 case 2 => 192 case 4 => 480 case _ => 4080);
  }

  lemma Logs()
    ensures Log2(128) == 7 && Log2(192) == 7 && Log2(480) == 8 && Log2(4080) == 11
  {
  }

  /** No narrower field would hold the indices: the widths are the least. */
  lemma WidthsLeast(p: Params, w: nat)
    requires 1 <= w
    ensures w < p.ForsIndexWidth() ==> p.k * Pow2(p.a) >= Pow2(8 * w - 1)
    ensures w < p.XmssIndexWidth() ==> Pow2(p.hp) - 1 >= Pow2(8 * w - 1)
  {
    hide Pow2, WordWidthFrom;
    WidthIsLeast(p.k * Pow2(p.a), 1);
    WidthIsLeast(p.LeavesPerTree() - 1, 1);
  }

  /** FORS index i is read from the byte its first bit is in, through the fewest bytes, but at least three, that hold it. */
  lemma WindowLeast(p: Params, i: nat)
    ensures 8 * p.ForsByte(i) <= i * p.a < 8 * p.ForsByte(i) + 8
    ensures p.ForsFieldBytes(i) >= 3 && i * p.a + p.a <= 8 * (p.ForsByte(i) + p.ForsFieldBytes(i))
    ensures p.ForsFieldBytes(i) > 3 ==> 8 * (p.ForsByte(i) + p.ForsFieldBytes(i) - 1) < i * p.a + p.a
  {
    var bit := i * p.a;
    DivBounds(bit, 8);
    CeilDivBounds(p.a + bit % 8, 8);
  }
}
