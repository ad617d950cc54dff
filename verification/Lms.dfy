/** LMS and LM-OTS verification, sections 4 and 5 of RFC 8554, for SHA-256 with 32-byte nodes. */
module Lms {
  import opened Arith
  import opened Bytes
  import opened Lists
  import opened Machine

  const NODE: nat := 32
  const D_PBLC: nat := 0x8080
  const D_MESG: nat := 0x8181
  const D_LEAF: nat := 0x8282
  const D_INTR: nat := 0x8383

  datatype LmsParams = LmsParams(w: nat, h: nat, p: nat, u: nat, v: nat, ls: nat)
  {
    function MaxCoef(): nat { Pow2(w) - 1 }

    function LeafCount(): nat { Pow2(h) }

    /** The largest digit sum, reached by an all-zero digest. */
    function MaxSum(): nat { u * MaxCoef() }

    /** Section 4.1: the derived numbers, and a checksum that fits the v coefficients kept for it. */
    predicate WellFormed()
    {
      && w in {1, 2, 4, 8} && 1 <= h <= 25
      && w * u == 8 * NODE && p == u + v && ls + v * w == 16 && ls <= 15
      && MaxSum() < Pow2(v * w)
    }

    /** The checksum stays clear of the sign bit for every digest. */
    predicate Narrow()
    {
      MaxSum() * Pow2(ls) < 32768
    }

    function OtsSigLen(): nat { 4 + NODE + p * NODE }

    function SignatureLen(): nat { 4 + OtsSigLen() + 4 + h * NODE }
  }

  const SHA256_H5_W1 := LmsParams(1, 5, 265, 256, 9, 7)
  const SHA256_H5_W2 := LmsParams(2, 5, 133, 128, 5, 6)
  const SHA256_H10_W2 := LmsParams(2, 10, 133, 128, 5, 6)
  const SHA256_H15_W2 := LmsParams(2, 15, 133, 128, 5, 6)
  const SHA256_H20_W2 := LmsParams(2, 20, 133, 128, 5, 6)
  const SHA256_H25_W2 := LmsParams(2, 25, 133, 128, 5, 6)
  const SHA256_H5_W4 := LmsParams(4, 5, 67, 64, 3, 4)

  /** The supported sets; only the one-bit set can reach the sign bit. */
  lemma SupportedSets()
    ensures SHA256_H5_W1.WellFormed() && SHA256_H5_W2.WellFormed() && SHA256_H10_W2.WellFormed()
    ensures SHA256_H15_W2.WellFormed() && SHA256_H20_W2.WellFormed() && SHA256_H25_W2.WellFormed()
    ensures SHA256_H5_W4.WellFormed() && SHA256_H5_W4.Narrow()
    ensures SHA256_H5_W2.Narrow() && SHA256_H10_W2.Narrow() && SHA256_H15_W2.Narrow()
    ensures SHA256_H20_W2.Narrow() && SHA256_H25_W2.Narrow()
    ensures !SHA256_H5_W1.Narrow() && SHA256_H5_W1.MaxSum() * Pow2(SHA256_H5_W1.ls) == 32768
    ensures SHA256_H5_W1.SignatureLen() == 8684 && SHA256_H5_W2.SignatureLen() == 4460 && SHA256_H5_W4.SignatureLen() == 2348
    ensures SHA256_H10_W2.SignatureLen() == 4620 && SHA256_H15_W2.SignatureLen() == 4780
    ensures SHA256_H20_W2.SignatureLen() == 4940 && SHA256_H25_W2.SignatureLen() == 5100
  {
    hide Pow2;
    Pow2Table();
    Pow2Eight();
    SmallPowers();
  }

  lemma SmallPowers()
    ensures Pow2(6) == 64 && Pow2(10) == 1024 && Pow2(9) == 512 && Pow2(12) == 4096
  {
    Pow2Table();
    Pow2Add(2, 4);
    Pow2Add(6, 4);
  }

  // ---- coefficients --------------------------------------------------------

  lemma CoefPlace(s: Bytes, i: nat, w: nat)
    requires w in {1, 2, 4, 8} && w * i + w <= 8 * |s|
    ensures w * i / 8 < |s| && w * i % 8 + w <= 8
  {
    if w == 8 {
      DivUnique(w * i, 8, i, 0);
    } else if w == 4 {
      DivUnique(w * i, 8, i / 2, 4 * (i % 2));
    } else if w == 2 {
      DivUnique(w * i, 8, i / 4, 2 * (i % 4));
    }
  }

  /** `coef(S, i, w)`. */
  function Coef(s: Bytes, i: nat, w: nat): (r: nat)
    requires w in {1, 2, 4, 8} && w * i + w <= 8 * |s|
    ensures r < Pow2(w)
  {
    CoefPlace(s, i, w);
    Low(Shr(s[w * i / 8], 8 - w - w * i % 8), w)
  }

  /** The coefficient is the i-th w-bit big-endian field. */
  lemma CoefIsField(s: Bytes, i: nat, w: nat)
    requires w in {1, 2, 4, 8} && w * i + w <= 8 * |s|
    ensures Coef(s, i, w) == Field(s, w * i, w)
  {
    hide Field, Pow2;
    CoefPlace(s, i, w);
    var byte, off := w * i / 8, w * i % 8;
    DivBounds(w * i, 8);
    FieldWindow(s, byte, byte + 1, w * i, w);
    assert s[byte..byte + 1] == [s[byte]];
    OneByteField(s[byte], off, w);
  }

  lemma CoefRoom(p: LmsParams, i: nat)
    requires p.WellFormed()
    ensures i < p.u ==> p.w * i + p.w <= 8 * NODE
    ensures i < p.p ==> p.w * i + p.w <= 8 * (NODE + 2)
  {
    FieldRoom(p.w, p.u, p.v, p.ls, i);
  }

  lemma FieldRoom(w: nat, u: nat, v: nat, ls: nat, i: nat)
    requires w * u == 8 * NODE && ls + v * w == 16
    ensures i < u ==> w * i + w <= 8 * NODE
    ensures i < u + v ==> w * i + w <= 8 * (NODE + 2)
  {
    if i < u {
      RecordFits(i, u, w);
    }
    if i < u + v {
      RecordFits(i, u + v, w);
      assert (u + v) * w == u * w + v * w;
    }
  }

  /** The first n coefficients' distances from the maximum, summed. */
  function SumTo(q: Bytes, p: LmsParams, n: nat): nat
    requires p.WellFormed() && |q| == NODE && n <= p.u
  {
    if n == 0 then 0
    else
      CoefRoom(p, n - 1);
      SumTo(q, p, n - 1) + (p.MaxCoef() - Coef(q, n - 1, p.w))
  }

  lemma {:induction false} SumBound(q: Bytes, p: LmsParams, n: nat)
    requires p.WellFormed() && |q| == NODE && n <= p.u
    ensures SumTo(q, p, n) <= n * p.MaxCoef()
  {
    hide Pow2;
    if n > 0 {
      SumBound(q, p, n - 1);
      CoefRoom(p, n - 1);
      RecordFits(n - 1, n, p.MaxCoef());
    }
  }

  /** `cksm(Q)` before it is cut to sixteen bits. */
  function FullChecksum(q: Bytes, p: LmsParams): nat
    requires p.WellFormed() && |q| == NODE
  {
    SumTo(q, p, p.u) * Pow2(p.ls)
  }

  /** The checksum always fits the sixteen bits it is written in. */
  lemma ChecksumFits16(q: Bytes, p: LmsParams)
    requires p.WellFormed() && |q| == NODE
    ensures FullChecksum(q, p) < Pow2(16) && SumTo(q, p, p.u) < Pow2(p.v * p.w)
    ensures p.Narrow() ==> FullChecksum(q, p) < 32768
  {
    hide Pow2, SumTo;
    SumBound(q, p, p.u);
    ShiftedSum(SumTo(q, p, p.u), p.MaxSum(), p.v * p.w, p.ls);
  }

  /** The sum is as large as it gets exactly when every coefficient is zero. */
  lemma {:induction false} SumAtMost(q: Bytes, p: LmsParams, n: nat)
    requires p.WellFormed() && |q| == NODE && n <= p.u
    ensures SumTo(q, p, n) == n * p.MaxCoef() <==> ZeroCoefs(q, p, n)
  {
    hide Pow2, Coef, LmsParams.MaxSum;
    if n > 0 {
      SumAtMost(q, p, n - 1);
      SumBound(q, p, n - 1);
      CoefRoom(p, n - 1);
      assert n * p.MaxCoef() == (n - 1) * p.MaxCoef() + p.MaxCoef();
    }
  }

  predicate ZeroCoefs(q: Bytes, p: LmsParams, n: nat)
    requires p.WellFormed() && |q| == NODE
  {
    forall i: nat :: i < n && p.w * i + p.w <= 8 * NODE ==> Coef(q, i, p.w) == 0
  }

  /** Only the all-zero digest has nothing but zero coefficients. */
  lemma ZeroDigest(q: Bytes, p: LmsParams)
    requires p.WellFormed() && |q| == NODE
    ensures ZeroCoefs(q, p, p.u) <==> q == Zeros(NODE)
  {
    hide Pow2, Field, Coef, LmsParams.MaxSum;
    forall i: nat | p.w * i + p.w <= 8 * NODE
      ensures Coef(Zeros(NODE), i, p.w) == 0
    {
      ZeroCoef(i, p.w);
    }
    if ZeroCoefs(q, p, p.u) {
      forall i: nat | p.w * i + p.w <= 8 * NODE
        ensures Field(q, p.w * i, p.w) == Field(Zeros(NODE), p.w * i, p.w)
      {
        WithinCoefs(p.w, p.u, i);
        CoefIsField(q, i, p.w);
        CoefIsField(Zeros(NODE), i, p.w);
      }
      FieldsDetermine(q, Zeros(NODE), p.w);
    }
  }

  lemma ZeroCoef(i: nat, w: nat)
    requires w in {1, 2, 4, 8} && w * i + w <= 8 * NODE
    ensures Coef(Zeros(NODE), i, w) == 0
  {
    CoefPlace(Zeros(NODE), i, w);
    ModSmall(0, Pow2(8 - w - w * i % 8));
    ModSmall(0, Pow2(w));
  }

  lemma WithinCoefs(w: nat, u: nat, i: nat)
    requires w in {1, 2, 4, 8} && w * u == 8 * NODE && w * i + w <= 8 * NODE
    ensures i < u
  {
    if i >= u {
      MulMono(u, i, w);
    }
  }

  /**
   * The digests whose checksum does not stay clear of the sign bit: none in a narrow set, and in the one-bit set exactly
   * the all-zero one, which reaches 2^15 on the nose.
   */
  lemma OneBitChecksum(q: Bytes)
    requires SHA256_H5_W1.WellFormed() && |q| == NODE
    ensures FullChecksum(q, SHA256_H5_W1) >= 32768 <==> q == Zeros(NODE)
    ensures FullChecksum(Zeros(NODE), SHA256_H5_W1) == 32768
  {
    var p := SHA256_H5_W1;
    SupportedSets();
    OneBitSum(q);
    OneBitSum(Zeros(NODE));
    ZeroDigest(q, p);
    ZeroDigest(Zeros(NODE), p);
  }

  lemma OneBitSum(q: Bytes)
    requires SHA256_H5_W1.WellFormed() && |q| == NODE
    ensures FullChecksum(q, SHA256_H5_W1) == 128 * SumTo(q, SHA256_H5_W1, 256)
    ensures SumTo(q, SHA256_H5_W1, 256) <= 256
    ensures SumTo(q, SHA256_H5_W1, 256) == 256 <==> ZeroCoefs(q, SHA256_H5_W1, 256)
  {
    Pow2Table();
    Pow2Eight();
    hide Pow2, SumTo, ZeroCoefs, Coef;
    SumBound(q, SHA256_H5_W1, 256);
    SumAtMost(q, SHA256_H5_W1, 256);
  }

  lemma ShiftedSum(sum: nat, most: nat, bits: nat, ls: nat)
    requires sum <= most < Pow2(bits) && ls + bits == 16
    ensures sum * Pow2(ls) < Pow2(16) && sum * Pow2(ls) <= most * Pow2(ls)
  {
    hide Pow2;
    Pow2Add(bits, ls);
    MulMono(sum + 1, Pow2(bits), Pow2(ls));
    MulMono(sum, most, Pow2(ls));
  }

  /** `V = Q || cksm(Q)`. */
  function CoefSource(q: Bytes, p: LmsParams): (v: Bytes)
    requires p.WellFormed() && |q| == NODE
    ensures |v| == NODE + 2
  {
    q + ToBe(FullChecksum(q, p), 2)
  }

  /** `cksm`: a loop over 32-bit sums, cut to sixteen bits at the end. */
  method ChecksumLoop(q: Bytes, p: LmsParams) returns (r: nat)
    requires p.WellFormed() && |q| == NODE
    ensures r == FullChecksum(q, p)
  {
    hide Pow2;
    var sum := 0;
    for i := 0 to p.u
      invariant sum == SumTo(q, p, i)
    {
      CoefRoom(p, i);
      sum := sum + (p.MaxCoef() - Coef(q, i, p.w));
    }
    ChecksumFits16(q, p);
    r := (sum * Pow2(p.ls)) % Pow2(16);
    ModSmall(sum * Pow2(p.ls), Pow2(16));
  }

  /** `coefficient_source`. */
  method CoefSourceLoop(q: Bytes, p: LmsParams) returns (v: Bytes)
    requires p.WellFormed() && |q| == NODE
    ensures v == CoefSource(q, p)
  {
    var c := ChecksumLoop(q, p);
    v := q + ToBe(c, 2);
  }

  // ---- keys, chains and paths ----------------------------------------------

  /** `I` and `T[1]`. */
  datatype LmsKey = LmsKey(id: Bytes, root: Bytes)

  /** `I || u32str(idx) || u16str(domain)`. */
  function Prefix(id: Bytes, idx: nat, domain: nat): Bytes { id + ToBe(idx, 4) + ToBe(domain, 2) }

  /** The chain value after the steps from .. to, which are from, .., to - 1. */
  function OtsChain(hash: Hash, id: Bytes, q: nat, i: nat, x: Bytes, from: nat, to: nat): Bytes
  {
    if to <= from then x
    else hash(Prefix(id, q, i) + [(to - 1) % 256] + OtsChain(hash, id, q, i, x, from, to - 1))
  }

  /** The end of chain i, started from its coefficient. */
  function ChainEnd(hash: Hash, p: LmsParams, id: Bytes, q: nat, v: Bytes, y: seq<Bytes>, i: nat): Bytes
    requires p.WellFormed() && |v| == NODE + 2 && |y| == p.p && i < p.p
  {
    CoefRoom(p, i);
    OtsChain(hash, id, q, i, y[i], Coef(v, i, p.w), p.MaxCoef())
  }

  /** z[0] || .. || z[n - 1]. */
  function ChainEndsTo(hash: Hash, p: LmsParams, id: Bytes, q: nat, v: Bytes, y: seq<Bytes>, n: nat): Bytes
    requires p.WellFormed() && |v| == NODE + 2 && |y| == p.p && n <= p.p
  {
    if n == 0 then []
    else ChainEndsTo(hash, p, id, q, v, y, n - 1) + ChainEnd(hash, p, id, q, v, y, n - 1)
  }

  function MessageDigest(hash: Hash, id: Bytes, q: nat, c: Bytes, message: Bytes): (d: Bytes)
    ensures |d| == NODE
  {
    hash(Prefix(id, q, D_MESG) + c + message)
  }

  /** Kc, by Algorithm 4b from a digest already taken. */
  function CandidateKey(hash: Hash, p: LmsParams, id: Bytes, q: nat, y: seq<Bytes>, digest: Bytes): Bytes
    requires p.WellFormed() && |y| == p.p && |digest| == NODE
  {
    hash(Prefix(id, q, D_PBLC) + ChainEndsTo(hash, p, id, q, CoefSource(digest, p), y, p.p))
  }

  /** Algorithm 6a's climb: from node number `node`, `tmp` in hand, path elements from `i` on. */
  function Climb(hash: Hash, id: Bytes, node: nat, tmp: Bytes, path: seq<Bytes>, i: nat): Bytes
    decreases node
  {
    if node <= 1 || i >= |path| then tmp
    else
      var next := if node % 2 == 1 then hash(Prefix(id, node / 2, D_INTR) + path[i] + tmp)
                  else hash(Prefix(id, node / 2, D_INTR) + tmp + path[i]);
      Climb(hash, id, node / 2, next, path, i + 1)
  }

  /** The candidate root for leaf q. */
  function CandidateRoot(hash: Hash, p: LmsParams, id: Bytes, q: nat, c: Bytes, y: seq<Bytes>, path: seq<Bytes>,
                         message: Bytes): Bytes
    requires p.WellFormed() && |y| == p.p
  {
    var node := p.LeafCount() + q;
    var kc := CandidateKey(hash, p, id, q, y, MessageDigest(hash, id, q, c, message));
    Climb(hash, id, node, hash(Prefix(id, node, D_LEAF) + kc), path, 0)
  }

  // ---- signatures by their bytes -------------------------------------------

  /** Consecutive 32-byte elements. */
  function Nodes(x: Bytes, from: nat, n: nat): (r: seq<Bytes>)
    requires from + n * NODE <= |x|
    ensures |r| == n
  {
    seq(n, i requires 0 <= i < n && from + n * NODE <= |x| =>
      (RecordFits(i, n, NODE); x[from + i * NODE..from + i * NODE + NODE]))
  }

  /** C, y and path out of `u32str(q) || u32str(type) || C || y || u32str(type) || path`. */
  datatype LmsSignature = LmsSignature(c: Bytes, y: seq<Bytes>, path: seq<Bytes>)

  function ParseLms(p: LmsParams, x: Bytes): (s: LmsSignature)
    requires |x| == p.SignatureLen()
    ensures |s.y| == p.p && |s.path| == p.h
  {
    LmsSignature(x[8..40], Nodes(x, 40, p.p), Nodes(x, 40 + p.p * NODE + 4, p.h))
  }

  predicate NodeSizes(xs: seq<Bytes>) { forall e :: e in xs ==> |e| == 32 }

  /** As many elements as the set has, 32 bytes each. */
  predicate Sized(p: LmsParams, s: LmsSignature)
  {
    |s.c| == 32 && |s.y| == p.p && |s.path| == p.h && NodeSizes(s.y) && NodeSizes(s.path)
  }

  /** Section 5.4 of RFC 8554: the leaf and the LM-OTS type, C, y, the LMS type, the path. */
  function Wire(head: Bytes, s: LmsSignature, mid: Bytes): Bytes
  {
    head + s.c + Concat(s.y) + mid + Concat(s.path)
  }

  lemma {:induction false} NodesTotal(xs: seq<Bytes>)
    requires NodeSizes(xs)
    ensures |Concat(xs)| == |xs| * NODE
  {
    if |xs| > 0 {
      assert xs[0] in xs;
      assert forall e :: e in xs[1..] ==> e in xs;
      NodesTotal(xs[1..]);
    }
  }

  /** Elements are found again where their concatenation was put. */
  lemma {:induction false} NodesBack(x: Bytes, xs: seq<Bytes>, from: nat)
    requires NodeSizes(xs) && from + |xs| * NODE <= |x| && x[from..from + |xs| * NODE] == Concat(xs)
    ensures Nodes(x, from, |xs|) == xs
    decreases |xs|
  {
    if |xs| > 0 {
      assert xs[0] in xs;
      assert forall e :: e in xs[1..] ==> e in xs;
      var all := x[from..from + |xs| * NODE];
      assert all[..NODE] == xs[0] && all[NODE..] == Concat(xs[1..]);
      assert x[from..from + NODE] == all[..NODE] && x[from + NODE..from + NODE + |xs[1..]| * NODE] == all[NODE..];
      NodesBack(x, xs[1..], from + NODE);
      NodesFirst(x, from, |xs|);
    }
  }

  lemma NodesFirst(x: Bytes, from: nat, n: nat)
    requires n > 0 && from + n * NODE <= |x|
    ensures Nodes(x, from, n) == [x[from..from + NODE]] + Nodes(x, from + NODE, n - 1)
  {
  }

  /** The elements of a range are the range. */
  lemma {:induction false} NodesJoin(x: Bytes, from: nat, n: nat)
    requires from + n * NODE <= |x|
    ensures Concat(Nodes(x, from, n)) == x[from..from + n * NODE] && NodeSizes(Nodes(x, from, n))
    decreases n
  {
    if n > 0 {
      NodesJoin(x, from + NODE, n - 1);
      NodesFirst(x, from, n);
      var r := Nodes(x, from, n);
      assert r[1..] == Nodes(x, from + NODE, n - 1);
      assert x[from..from + NODE] + x[from + NODE..from + n * NODE] == x[from..from + n * NODE];
    }
  }

  /** A signature is found again in its wire form, whatever the leaf and type words say. */
  lemma WireParsed(p: LmsParams, head: Bytes, s: LmsSignature, mid: Bytes)
    requires |head| == 8 && |mid| == 4 && Sized(p, s)
    ensures |Wire(head, s, mid)| == p.SignatureLen() && ParseLms(p, Wire(head, s, mid)) == s
  {
    hide Nodes, Concat, NodeSizes;
    NodesTotal(s.y);
    NodesTotal(s.path);
    var x := Wire(head, s, mid);
    assert x[8..40] == s.c && x[40..40 + p.p * NODE] == Concat(s.y);
    assert x[40 + p.p * NODE + 4..40 + p.p * NODE + 4 + p.h * NODE] == Concat(s.path);
    NodesBack(x, s.y, 40);
    NodesBack(x, s.path, 40 + p.p * NODE + 4);
  }

  /** Every byte string of the right length is the wire form of what it parses to. */
  lemma ParsedWire(p: LmsParams, x: Bytes)
    requires |x| == p.SignatureLen()
    ensures Sized(p, ParseLms(p, x))
    ensures Wire(x[..8], ParseLms(p, x), x[40 + p.p * NODE..40 + p.p * NODE + 4]) == x
  {
    hide Nodes, Concat, NodeSizes;
    NodesJoin(x, 40, p.p);
    NodesJoin(x, 40 + p.p * NODE + 4, p.h);
    var a, b := 40 + p.p * NODE, 40 + p.p * NODE + 4;
    assert x == x[..8] + x[8..40] + x[40..a] + x[a..b] + x[b..];
    assert x[b..b + p.h * NODE] == x[b..];
  }

  /** `path[h-1] .. path[0], y[p-1] .. y[0], C`. */
  function LmsPushes(s: LmsSignature): seq<Bytes>
  {
    Reversed(s.path) + Reversed(s.y) + [s.c]
  }

  function Reversed(xs: seq<Bytes>): (r: seq<Bytes>)
    ensures |r| == |xs|
  {
    if |xs| == 0 then [] else Reversed(xs[1..]) + [xs[0]]
  }

  /** The elements of a byte range, one chunk at a time. */
  method NodesLoop(x: Bytes, from: nat, n: nat) returns (r: seq<Bytes>)
    requires from + n * NODE <= |x|
    ensures r == Nodes(x, from, n)
  {
    r := [];
    var i := 0;
    while i < n
      invariant 0 <= i <= n && |r| == i
      invariant forall j :: 0 <= j < i ==> r[j] == Nodes(x, from, n)[j]
    {
      RecordFits(i, n, NODE);
      r := r + [x[from + i * NODE..from + i * NODE + NODE]];
      i := i + 1;
    }
  }

  /** Elements pushed last to first. */
  method PushReversed(pushes0: seq<Bytes>, xs: seq<Bytes>) returns (pushes: seq<Bytes>)
    ensures pushes == pushes0 + Reversed(xs)
  {
    pushes := pushes0;
    var i := |xs|;
    assert xs[i..] == [] && pushes0 + [] == pushes0;
    while i > 0
      invariant 0 <= i <= |xs|
      invariant pushes == pushes0 + Reversed(xs[i..])
    {
      i := i - 1;
      assert xs[i..][1..] == xs[i + 1..];
      pushes := pushes + [xs[i]];
    }
    assert xs[i..] == xs;
  }

  /** Whatever wire form x is, it parses to the signature in it, and some wire form it is. */
  lemma WireForms(p: LmsParams, x: Bytes)
    ensures forall head, s, mid :: |head| == 8 && |mid| == 4 && Sized(p, s) && x == Wire(head, s, mid) ==>
              |x| == p.SignatureLen() && ParseLms(p, x) == s
    ensures |x| == p.SignatureLen() ==>
              Sized(p, ParseLms(p, x)) && exists head, mid :: |head| == 8 && |mid| == 4 && x == Wire(head, ParseLms(p, x), mid)
  {
    hide Wire, Sized, ParseLms;
    forall head, s, mid | |head| == 8 && |mid| == 4 && Sized(p, s) && x == Wire(head, s, mid)
      ensures |x| == p.SignatureLen() && ParseLms(p, x) == s
    {
      WireParsed(p, head, s, mid);
    }
    if |x| == p.SignatureLen() {
      ParsedWire(p, x);
    }
  }

  /** `witness_pushes`: refused on a wrong length, otherwise the layout the script consumes, bottom first. */
  method WitnessPushes(p: LmsParams, x: Bytes) returns (r: Option<seq<Bytes>>)
    ensures r.Some? <==> |x| == p.SignatureLen()
    ensures r.Some? ==> r.value == LmsPushes(ParseLms(p, x))
    ensures r.Some? ==>
              Sized(p, ParseLms(p, x)) && exists head, mid :: |head| == 8 && |mid| == 4 && x == Wire(head, ParseLms(p, x), mid)
    ensures forall head, s, mid :: |head| == 8 && |mid| == 4 && Sized(p, s) && x == Wire(head, s, mid) ==>
              r == Some(LmsPushes(s))
  {
    hide Wire, Sized, Nodes, Reversed;
    WireForms(p, x);
    if |x| != p.SignatureLen() {
      return None;
    }
    var c := x[8..40];
    var y := NodesLoop(x, 40, p.p);
    var path := NodesLoop(x, 40 + p.p * NODE + 4, p.h);
    var pushes := PushReversed([], path);
    pushes := PushReversed(pushes, y);
    pushes := pushes + [c];
    assert [] + Reversed(path) == Reversed(path);
    return Some(pushes);
  }
}
