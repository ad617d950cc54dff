/** The host-side verifier as it runs: loops over mutable locals and one address, proved equal to Reference. */
module HostVerifier {
  import opened Arith
  import opened Bytes
  import opened Machine
  import opened Params
  import opened Adrs
  import opened AdrsBytes
  import opened Reference

  const WORD: nat := 0x1_0000_0000_0000_0000

  // ---- field readers -------------------------------------------------------

  lemma WordIsPow2()
    ensures Pow2(64) == WORD
  {
    Pow2Table();
    Pow2Add(32, 32);
    Pow2Add(31, 1);
  }

  /** One byte shifted into a 64-bit accumulator keeps it the value so far, modulo 2^64. */
  lemma ShiftIn(x: Bytes, n: nat)
    requires n < |x|
    ensures ((Be(x[..n]) % WORD) * 256) % WORD + x[n] < WORD
    ensures ((Be(x[..n]) % WORD) * 256) % WORD + x[n] == Be(x[..n + 1]) % WORD
  {
    assert x[..n + 1][..n] == x[..n];
    var v := Be(x[..n]);
    DivBounds(v, WORD);
    assert (v * 256) % WORD == ((v % WORD) * 256) % WORD by {
      var q, r := v / WORD, v % WORD;
      assert v * 256 == (q * 256) * WORD + r * 256;
      DivAddMul(q * 256, WORD, r * 256);
    }
    ShiftedLow(v, x[n]);
  }

  lemma ShiftedLow(v: nat, b: Byte)
    ensures (v * 256) % WORD + b < WORD && (v * 256 + b) % WORD == (v * 256) % WORD + b
  {
    var high := WORD / 256;
    DivBounds(v, high);
    var q, r := v / high, v % high;
    assert v * 256 == q * WORD + r * 256;
    DivUnique(v * 256, WORD, q, r * 256);
    DivUnique(v * 256 + b, WORD, q, r * 256 + b);
  }

  /** A field low enough in the accumulator survives the wrap-around. */
  lemma FieldSurvives(v: nat, bits: nat, b: nat)
    requires bits + b <= 64
    ensures ((v % WORD) / Pow2(bits)) % Pow2(b) == (v / Pow2(bits)) % Pow2(b)
  {
    hide Pow2;
    WordIsPow2();
    Pow2Add(bits, 64 - bits);
    ModDiv(v, Pow2(bits), Pow2(64 - bits));
    Pow2Add(b, 64 - bits - b);
    ModMod(v / Pow2(bits), Pow2(b), Pow2(64 - bits - b));
  }

  /** The consumed prefix holds the field at `off` just above its last `bits` bits. */
  lemma FieldOfPrefix(x: Bytes, inn: nat, off: nat, b: nat, bits: nat)
    requires inn <= |x| && 8 * inn == off + b + bits
    ensures off + b <= 8 * |x|
    ensures (Be(x[..inn]) / Pow2(bits)) % Pow2(b) == Field(x, off, b)
  {
    FieldPrefix(x, inn, off, b);
  }

  lemma NextDigit(x: Bytes, b: nat, k: nat, off: nat)
    requires off == b * k && off + b <= 8 * |x|
    ensures b * (k + 1) == off + b && b * k <= 8 * |x|
    ensures Base2b(x, b, k + 1) == Base2b(x, b, k) + [Field(x, off, b)]
  {
    hide Field;
    assert b * (k + 1) == b * k + b;
  }

  /** The inner loop: shift bytes in until a whole field is there. */
  method Refill(x: Bytes, b: nat, ghost off: nat, inn0: nat, bits0: nat, total0: nat)
    returns (inn: nat, bits: nat, total: nat)
    requires inn0 <= |x| && bits0 < 8 && 8 * inn0 == off + bits0 && off + b <= 8 * |x|
    requires total0 == Be(x[..inn0]) % WORD
    ensures inn <= |x| && b <= bits < b + 8 && 8 * inn == off + bits
    ensures total == Be(x[..inn]) % WORD
  {
    hide Be;
    inn, bits, total := inn0, bits0, total0;
    while bits < b
      invariant inn <= |x| && bits < b + 8 && 8 * inn == off + bits
      invariant total == Be(x[..inn]) % WORD
      decreases b - bits
    {
      ShiftIn(x, inn);
      total := (total * 256) % WORD + x[inn];
      inn := inn + 1;
      bits := bits + 8;
    }
  }

  /**
   * `base_2b`: although the accumulator is 64 bits wide and drops its high bytes, every digit is the big-endian field,
   * and exactly the bytes the fields touch are read.
   */
  method Base2bLoop(x: Bytes, b: nat, count: nat) returns (out: seq<nat>, ghost read: nat)
    requires b <= 32 && b * count <= 8 * |x|
    ensures out == Base2b(x, b, count)
    ensures read == CeilDiv(b * count, 8)
  {
    hide Field, Be, Pow2, Base2b, CeilDiv;
    NoDigits(x, b);
    out := [];
    var inn, bits, total := 0, 0, 0;
    ghost var off := 0;
    var k := 0;
    while k < count
      invariant 0 <= k <= count && 0 <= inn <= |x| && 0 <= bits < 8
      invariant off == b * k <= 8 * |x| && 8 * inn == off + bits
      invariant total == Be(x[..inn]) % WORD
      invariant out == Base2b(x, b, k)
    {
      RecordFits(k, count, b);
      inn, bits, total := Refill(x, b, off, inn, bits, total);
      bits := bits - b;
      FieldSurvives(Be(x[..inn]), bits, b);
      FieldOfPrefix(x, inn, off, b, bits);
      NextDigit(x, b, k, off);
      out := out + [(total / Pow2(bits)) % Pow2(b)];
      k, off := k + 1, off + b;
    }
    read := inn;
    BytesTouched(off, inn, bits);
  }

  lemma NoDigits(x: Bytes, b: nat)
    ensures b * 0 == 0 && Base2b(x, b, 0) == [] && Be(x[..0]) % WORD == 0
  {
  }

  lemma EmptyValue()
    ensures Be([]) == 0 && 0 % WORD == 0
  {
  }

  lemma BytesTouched(n: nat, inn: nat, bits: nat)
    requires 8 * inn == n + bits && bits < 8
    ensures inn == CeilDiv(n, 8)
  {
    DivUnique(n + 7, 8, inn, 7 - bits);
  }

  /** `toInt`: exact up to eight bytes, and the low 64 bits beyond that. */
  method ToInt(x: Bytes) returns (r: nat)
    ensures r == Be(x) % WORD
    ensures |x| <= 8 ==> r == Be(x)
  {
    hide Be;
    r := 0;
    assert x[..0] == [];
    EmptyValue();
    var i := 0;
    while i < |x|
      invariant 0 <= i <= |x| && r == Be(x[..i]) % WORD
    {
      ShiftIn(x, i);
      r := (r * 256) % WORD + x[i];
      i := i + 1;
    }
    assert x[..i] == x;
    if |x| <= 8 {
      Fits64(x);
    }
  }

  lemma Fits64(x: Bytes)
    requires |x| <= 8
    ensures Be(x) < WORD && Be(x) % WORD == Be(x)
  {
    BeBound(x);
    Pow2Mono(8 * |x|, 64);
    WordIsPow2();
    ModSmall(Be(x), WORD);
  }

  // ---- WOTS+ ---------------------------------------------------------------

  lemma {:induction false} ChecksumSnoc(digits: seq<nat>, d: nat, w: nat)
    requires forall i :: 0 <= i < |digits| ==> digits[i] < w
    requires d < w
    ensures Checksum(digits + [d], w) == Checksum(digits, w) + (w - 1 - d)
  {
    assert (digits + [d])[..|digits|] == digits;
  }

  /** Digit j of the checksum, left-shifted to end on a byte boundary and read back as a field. */
  lemma ShiftedChecksumDigit(csum: nat, bits: nat, lgw: nat, j: nat, bytes: Bytes, shift: nat)
    requires shift < 8 && 8 * |bytes| == bits + shift && lgw * j + lgw <= bits
    requires Be(bytes) == csum * Pow2(shift)
    ensures lgw * j + lgw <= 8 * |bytes|
    ensures Field(bytes, lgw * j, lgw) == Low(Shr(csum, bits - (lgw * j + lgw)), lgw)
  {
    hide Pow2, Be;
    var at := bits - (lgw * j + lgw);
    Pow2Add(shift, at);
    DivDiv(csum * Pow2(shift), Pow2(shift), Pow2(at));
    DivUnique(csum * Pow2(shift), Pow2(shift), csum, 0);
  }

  /** The low bytes of an eight-byte integer that fits them. */
  lemma LowBytes(n: nat, width: nat)
    requires width <= 8 && n < Pow2(8 * width)
    ensures ToBe(n, 8)[8 - width..] == ToBe(n, width)
    ensures Be(ToBe(n, width)) == n
  {
    ToBeHighZeros(n, width, 8 - width);
    BeToBe(n, width);
    assert ToBe(n, (8 - width) + width) == ToBe(n, 8);
  }

  /** (8 - (bits & 7)) & 7 rounds up to a byte boundary. */
  lemma RoundUp(bits: nat)
    ensures var shift := (8 - bits % 8) % 8;
            shift < 8 && (bits + shift) % 8 == 0 && 8 * ((bits + shift) / 8) == bits + shift
  {
  }

  lemma ShiftedFits(csum: nat, bits: nat, shift: nat, width: nat)
    requires csum < Pow2(bits) && 8 * width == bits + shift
    ensures csum * Pow2(shift) < Pow2(8 * width)
  {
    hide Pow2;
    Pow2Add(bits, shift);
    MulMono(csum + 1, Pow2(bits), Pow2(shift));
  }

  /** Sum of the digits' distances from w - 1. */
  method ChecksumLoop(digits: seq<nat>, w: nat) returns (csum: nat)
    requires forall i :: 0 <= i < |digits| ==> digits[i] < w
    ensures csum == Checksum(digits, w)
  {
    csum := 0;
    var i := 0;
    while i < |digits|
      invariant 0 <= i <= |digits| && csum == Checksum(digits[..i], w)
    {
      ChecksumSnoc(digits[..i], digits[i], w);
      assert digits[..i] + [digits[i]] == digits[..i + 1];
      csum := csum + (w - 1 - digits[i]);
      i := i + 1;
    }
    assert digits[..i] == digits;
  }

  /** The checksum's own digits, by the standard's left shift to a byte boundary. */
  method ChecksumDigits(csum: nat, bits: nat, lgw: nat, len2: nat) returns (out: seq<nat>)
    requires csum < Pow2(bits) && bits == len2 * lgw <= 56 && lgw <= 8
    ensures |out| == len2
    ensures forall j :: 0 <= j < len2 ==> lgw * (j + 1) <= bits && out[j] == Low(Shr(csum, bits - lgw * (j + 1)), lgw)
  {
    hide Pow2, Field, Be, Low, Shr, ToBe;
    var shift := (8 - bits % 8) % 8;
    var width := (bits + shift) / 8;
    RoundUp(bits);
    ShiftedFits(csum, bits, shift, width);
    var bytes := ToBe(csum * Pow2(shift), 8);
    LowBytes(csum * Pow2(shift), width);
    ghost var read: nat;
    out, read := Base2bLoop(bytes[8 - width..], lgw, len2);
    forall j | 0 <= j < len2
      ensures lgw * (j + 1) <= bits && out[j] == Low(Shr(csum, bits - lgw * (j + 1)), lgw)
    {
      RecordFits(j, len2, lgw);
      ShiftedChecksumDigit(csum, bits, lgw, j, bytes[8 - width..], shift);
    }
  }

  /** `wots_message`: the message digits, then the digits of their checksum. */
  method WotsMessage(p: Params, m: Bytes) returns (msg: seq<nat>)
    requires p.lgw in {1, 2, 4, 8} && |m| == N
    ensures |msg| == p.Len()
    ensures forall i :: 0 <= i < p.Len() ==> msg[i] == WotsDigit(p, m, i)
  {
    hide *;
    DigitCounts(p);
    ChecksumFits(p, m);
    DigitsBound(p, m);
    ghost var read: nat;
    msg, read := Base2bLoop(m, p.lgw, p.Len1());
    var csum := ChecksumLoop(msg, p.W());
    var more := ChecksumDigits(csum, p.CsumBits(), p.lgw, p.Len2());
    MessageIs(p, m, more);
    msg := msg + more;
  }

  lemma DigitsBound(p: Params, m: Bytes)
    requires p.lgw in {1, 2, 4, 8} && |m| == N && p.lgw * p.Len1() == 8 * N
    ensures Base2b(m, p.lgw, p.Len1()) == DigitsOf(p, m) && ChecksumOf(p, m) == Checksum(DigitsOf(p, m), p.W())
    ensures p.CsumBits() == p.Len2() * p.lgw
  {
    hide Params.Len1, Params.Len2, Params.W, Base2b, Checksum;
  }

  lemma MessageIs(p: Params, m: Bytes, more: seq<nat>)
    requires p.lgw in {1, 2, 4, 8} && |m| == N && |more| == p.Len2()
    requires forall j :: 0 <= j < p.Len2() ==>
               p.lgw * (j + 1) <= p.CsumBits()
               && more[j] == Low(Shr(ChecksumOf(p, m), p.CsumBits() - p.lgw * (j + 1)), p.lgw)
    ensures p.Len() == p.Len1() + p.Len2()
    ensures forall i :: 0 <= i < p.Len() ==> (DigitsOf(p, m) + more)[i] == WotsDigit(p, m, i)
  {
    hide Params.Len1, Params.Len2, Params.W, Params.CsumBits, DigitsOf, ChecksumOf, Low, Shr;
  }

  // ---- chains and paths ----------------------------------------------------

  lemma ConcatOne(x: Bytes)
    ensures Concat([x]) == x
  {
    assert [x][1..] == [];
    assert Concat([]) == [] && x + [] == x;
  }

  lemma ConcatTwo(x: Bytes, y: Bytes)
    ensures Concat([x, y]) == x + y
  {
    assert [x, y][1..] == [y];
    ConcatOne(y);
  }

  lemma {:induction false} ConcatSnoc(parts: seq<Bytes>, x: Bytes)
    ensures Concat(parts + [x]) == Concat(parts) + x
  {
    if |parts| == 0 {
      assert parts + [x] == [x];
      ConcatOne(x);
    } else {
      assert (parts + [x])[1..] == parts[1..] + [x];
      ConcatSnoc(parts[1..], x);
      assert parts[0] + (Concat(parts[1..]) + x) == parts[0] + Concat(parts[1..]) + x;
    }
  }

  /** `chain`. */
  method ChainLoop(hash: Hash, seed: Bytes, adrs: AddressBytes, x: Bytes, i: nat, s: nat) returns (tmp: Bytes)
    requires adrs.Valid() && i + s <= Pow2(32)
    ensures tmp == Chain(hash, seed, adrs.addr, x, i, s)
  {
    hide Pow2, AHash, AddressBytes.Valid;
    var a := new AddressBytes.Copy(adrs);
    tmp := x;
    var n := 0;
    while n < s
      invariant 0 <= n <= s && a.Valid()
      invariant a.addr.(w3 := 0) == adrs.addr.(w3 := 0)
      invariant tmp == Chain(hash, seed, adrs.addr, x, i, n)
    {
      a.SetHashAddress(i + n);
      ConcatOne(tmp);
      tmp := a.HashParts(hash, seed, [tmp]);
      n := n + 1;
    }
  }

  /** Every chain to its end, from the digit the message picks. */
  method ChainsLoop(hash: Hash, p: Params, seed: Bytes, a: AddressBytes, sig: seq<Bytes>, m: Bytes, msg: seq<nat>)
    returns (tmp: seq<Bytes>)
    requires p.lgw in {1, 2, 4, 8} && |m| == N && |sig| == |msg| == p.Len() <= 256 && 1 <= p.W() <= 256
    requires forall i :: 0 <= i < p.Len() ==> msg[i] == WotsDigit(p, m, i)
    requires a.Valid() && a.addr.ty == WOTS_HASH && a.addr.w2 == 0 && a.addr.w3 == 0
    modifies a, a.bytes
    ensures a.Valid() && a.addr.(w2 := 0) == old(a.addr)
    ensures Concat(tmp) == ChainEnds(hash, seed, p, old(a.addr.layer), old(a.addr.tree), old(a.addr.w1), sig, m, p.Len())
  {
    AddressRoom();
    hide Params.Len, Params.W, Pow2, AHash, AddressBytes.Valid, Chain, WotsDigit;
    ghost var layer, tree, kp := a.addr.layer, a.addr.tree, a.addr.w1;
    tmp := [];
    var i := 0;
    while i < |msg|
      invariant 0 <= i <= |msg| && a.Valid()
      invariant a.addr.(w2 := 0) == ChainAddr(layer, tree, kp, 0)
      invariant Concat(tmp) == ChainEnds(hash, seed, p, layer, tree, kp, sig, m, i)
    {
      a.SetChainAddress(i);
      var end := ChainLoop(hash, seed, a, sig[i], msg[i], p.W() - 1 - msg[i]);
      ConcatSnoc(tmp, end);
      tmp := tmp + [end];
      i := i + 1;
    }
  }

  /** `wots_pk_from_sig`. */
  method WotsPkLoop(hash: Hash, p: Params, seed: Bytes, adrs: AddressBytes, sig: seq<Bytes>, m: Bytes)
    returns (pk: Bytes, msg: seq<nat>)
    requires p.lgw in {1, 2, 4, 8} && |m| == N && |sig| == p.Len()
    requires adrs.Valid() && adrs.addr.ty == WOTS_HASH && adrs.addr.w2 == 0 && adrs.addr.w3 == 0
    ensures var a := adrs.addr;
            pk == WotsPkFromSig(hash, seed, p, a.layer, a.tree, a.w1, sig, m)
    ensures |msg| == p.Len() && forall i :: 0 <= i < p.Len() ==> msg[i] == WotsDigit(p, m, i)
  {
    ChainRoom(p);
    hide Params.Len, Params.W, Pow2, AHash, AddressBytes.Valid, WotsDigit, ChainEnds;
    msg := WotsMessage(p, m);
    var a := new AddressBytes.Copy(adrs);
    var tmp := ChainsLoop(hash, p, seed, a, sig, m, msg);
    var pkAdrs := new AddressBytes.Copy(a);
    pkAdrs.SetTypeAndClear(WOTS_PK);
    pkAdrs.SetKeyPairAddress(a.Word(1));
    pk := pkAdrs.HashParts(hash, seed, tmp);
  }

  lemma ChainRoom(p: Params)
    requires p.lgw in {1, 2, 4, 8}
    ensures p.Len() <= 256 && 1 <= p.W() <= 256
  {
    DigitCounts(p);
  }

  lemma AddressRoom()
    ensures Pow2(32) >= 0x8000_0000 && Pow2(31) < Pow2(32)
  {
    Pow2Table();
    Pow2Strict(31, 32);
  }

  lemma ShrSteps(n: nat, k: nat)
    ensures Shr(n, 0) == n && Shr(n, k) <= n
  {
    DivBounds(n, Pow2(k));
  }

  /** The Merkle climb both `xmss_pk_from_sig` and `fors_pk_from_sig` run. */
  method PathLoop(hash: Hash, seed: Bytes, adrs: AddressBytes, pos: nat, idx: nat, leaf: Bytes, auth: seq<Bytes>)
    returns (node: Bytes)
    requires adrs.Valid() && pos < Pow2(32) && |auth| <= 31
    modifies adrs, adrs.bytes
    ensures adrs.Valid() && adrs.addr.(w2 := 0, w3 := 0) == old(adrs.addr).(w2 := 0, w3 := 0)
    ensures node == PathUp(hash, seed, old(adrs.addr), pos, idx, leaf, auth, |auth|)
  {
    hide Pow2, AHash, AddressBytes.Valid, Shr;
    AddressRoom();
    node := leaf;
    var k := 0;
    while k < |auth|
      invariant 0 <= k <= |auth| && adrs.Valid()
      invariant adrs.addr.(w2 := 0, w3 := 0) == old(adrs.addr).(w2 := 0, w3 := 0)
      invariant node == PathUp(hash, seed, old(adrs.addr), pos, idx, leaf, auth, k)
    {
      ShrSteps(pos, k + 1);
      adrs.SetTreeHeight(k + 1);
      adrs.SetTreeIndex(Shr(pos, k + 1));
      ConcatTwo(node, auth[k]);
      ConcatTwo(auth[k], node);
      if Shr(idx, k) % 2 == 0 {
        node := adrs.HashParts(hash, seed, [node, auth[k]]);
      } else {
        node := adrs.HashParts(hash, seed, [auth[k], node]);
      }
      k := k + 1;
    }
  }

  /** `xmss_pk_from_sig`. */
  method XmssPkLoop(hash: Hash, p: Params, seed: Bytes, layerAdrs: AddressBytes, idx: nat, wots: seq<Bytes>,
                    auth: seq<Bytes>, m: Bytes) returns (node: Bytes, msg: seq<nat>)
    requires p.lgw in {1, 2, 4, 8} && |m| == N && |wots| == p.Len() && |auth| <= 31 && idx < Pow2(32)
    requires layerAdrs.Valid()
    ensures node == XmssPkFromSig(hash, seed, p, layerAdrs.addr.layer, layerAdrs.addr.tree, idx, wots, auth, m)
    ensures |msg| == p.Len() && forall i :: 0 <= i < p.Len() ==> msg[i] == WotsDigit(p, m, i)
  {
    hide Params.Len, Pow2, AddressBytes.Valid, WotsPkFromSig, PathUp, WotsDigit, Params.W;
    var a := new AddressBytes.Copy(layerAdrs);
    a.SetTypeAndClear(WOTS_HASH);
    a.SetKeyPairAddress(idx);
    var leaf: Bytes;
    leaf, msg := WotsPkLoop(hash, p, seed, a, wots, m);
    a.SetTypeAndClear(TREE);
    ghost var base := a.addr;
    a.SetTreeIndex(idx);
    PathIgnoresWords(hash, seed, base, a.addr, idx, idx, leaf, auth, |auth|);
    node := PathLoop(hash, seed, a, idx, idx, leaf, auth);
  }

  /** The path sets both of its words itself. */
  lemma {:induction false} PathIgnoresWords(hash: Hash, seed: Bytes, a: Addr, b: Addr, pos: nat, idx: nat, leaf: Bytes,
                                            auth: seq<Bytes>, n: nat)
    requires n <= |auth| && a.(w2 := 0, w3 := 0) == b.(w2 := 0, w3 := 0)
    ensures PathUp(hash, seed, a, pos, idx, leaf, auth, n) == PathUp(hash, seed, b, pos, idx, leaf, auth, n)
  {
    hide AHash, Shr;
    if n > 0 {
      PathIgnoresWords(hash, seed, a, b, pos, idx, leaf, auth, n - 1);
    }
  }

  // ---- the digest ----------------------------------------------------------

  /** `split_digest`. */
  method SplitDigest(p: Params, digest: Bytes) returns (md: Bytes, idxTree: nat, idxLeaf: nat)
    requires p.d > 0 && p.WellFormed() && |digest| == p.m
    ensures md == Md(p, digest) && idxTree == IdxTree(p, digest) && idxLeaf == IdxLeaf(p, digest)
  {
    DigestParts(p);
    TreeBits(p);
    LeafBytes(p);
    hide Params.WellFormed, Params.MdLen, Params.IdxTreeLen, Params.IdxLeafLen, Params.IdxTreeBits, Pow2, Be;
    md := digest[..p.MdLen()];
    if p.IdxTreeBits() == 0 {
      idxTree := 0;
    } else {
      var v := ToInt(digest[p.MdLen()..p.MdLen() + p.IdxTreeLen()]);
      idxTree := v % Pow2(p.IdxTreeBits());
    }
    var w := ToInt(digest[p.MdLen() + p.IdxTreeLen()..]);
    idxLeaf := w % Pow2(p.hp);
  }

  // ---- the flat signature --------------------------------------------------

  /** A signature as flat lists of elements. */
  datatype HostSignature = HostSignature(randomness: Bytes, fors: seq<Bytes>, ht: seq<Bytes>)

  predicate Shaped(p: Params, s: HostSignature)
    requires p.lgw > 0
  {
    |s.randomness| == N && |s.fors| == p.k * (1 + p.a) && |s.ht| == p.d * (p.Len() + p.hp)
    && ElementSizes(s.fors) && ElementSizes(s.ht)
  }

  function Slice(xs: seq<Bytes>, from: nat, n: nat): (r: seq<Bytes>)
    requires from + n <= |xs|
    ensures |r| == n && (ElementSizes(xs) ==> ElementSizes(r))
  {
    xs[from..from + n]
  }

  /** `fors_group`. */
  function ForsGroup(fors: seq<Bytes>, a: nat, k: nat, i: nat): Group
    requires |fors| == k * (1 + a) && i < k
  {
    RecordFits(i, k, 1 + a);
    Group(fors[i * (1 + a)], Slice(fors, i * (1 + a) + 1, a))
  }

  /** `ht_layer`. */
  function HtLayer(ht: seq<Bytes>, len: nat, hp: nat, d: nat, j: nat): Layer
    requires |ht| == d * (len + hp) && j < d
  {
    RecordFits(j, d, len + hp);
    Layer(Slice(ht, j * (len + hp), len), Slice(ht, j * (len + hp) + len, hp))
  }

  function ForsGroups(fors: seq<Bytes>, a: nat, k: nat): (r: seq<Group>)
    requires |fors| == k * (1 + a)
    ensures |r| == k && forall i: nat :: i < k ==> r[i] == ForsGroup(fors, a, k, i)
  {
    seq(k, i requires 0 <= i < k && |fors| == k * (1 + a) => ForsGroup(fors, a, k, i))
  }

  function HtLayers(ht: seq<Bytes>, len: nat, hp: nat, d: nat): (r: seq<Layer>)
    requires |ht| == d * (len + hp)
    ensures |r| == d && forall j: nat :: j < d ==> r[j] == HtLayer(ht, len, hp, d, j)
  {
    seq(d, j requires 0 <= j < d && |ht| == d * (len + hp) => HtLayer(ht, len, hp, d, j))
  }

  /** The same signature by its groups and layers. */
  function Structured(p: Params, s: HostSignature): Signature
    requires p.lgw > 0 && Shaped(p, s)
  {
    Signature(s.randomness, ForsGroups(s.fors, p.a, p.k), HtLayers(s.ht, p.Len(), p.hp, p.d))
  }

  lemma GroupSized(fors: seq<Bytes>, a: nat, k: nat, i: nat)
    requires |fors| == k * (1 + a) && i < k && ElementSizes(fors)
    ensures var g := ForsGroup(fors, a, k, i);
            |g.sk| == N && |g.auth| == a && ElementSizes(g.auth)
  {
    RecordFits(i, k, 1 + a);
    hide Slice;
  }

  lemma LayerSized(ht: seq<Bytes>, len: nat, hp: nat, d: nat, j: nat)
    requires |ht| == d * (len + hp) && j < d && ElementSizes(ht)
    ensures var l := HtLayer(ht, len, hp, d, j);
            |l.wots| == len && |l.auth| == hp && ElementSizes(l.wots) && ElementSizes(l.auth)
  {
    RecordFits(j, d, len + hp);
    hide Slice;
  }

  lemma LayersSized(p: Params, ht: seq<Bytes>)
    requires p.lgw > 0 && |ht| == p.d * (p.Len() + p.hp) && ElementSizes(ht)
    ensures LayersFit(p, HtLayers(ht, p.Len(), p.hp, p.d)) && LayersMeasured(HtLayers(ht, p.Len(), p.hp, p.d))
  {
    hide Params.Len, HtLayer, ElementSizes;
    forall j: nat | j < p.d
      ensures var l := HtLayer(ht, p.Len(), p.hp, p.d, j);
              |l.wots| == p.Len() && |l.auth| == p.hp && ElementSizes(l.wots) && ElementSizes(l.auth)
    {
      LayerSized(ht, p.Len(), p.hp, p.d, j);
    }
  }

  lemma GroupsSized(fors: seq<Bytes>, a: nat, k: nat)
    requires |fors| == k * (1 + a) && ElementSizes(fors)
    ensures forall g :: g in ForsGroups(fors, a, k) ==> |g.sk| == N && |g.auth| == a && ElementSizes(g.auth)
  {
    hide ForsGroup, ElementSizes;
    forall i: nat | i < k
      ensures var g := ForsGroup(fors, a, k, i);
              |g.sk| == N && |g.auth| == a && ElementSizes(g.auth)
    {
      GroupSized(fors, a, k, i);
    }
  }

  lemma StructuredFits(p: Params, s: HostSignature)
    requires p.lgw > 0 && Shaped(p, s)
    ensures Fits(p, Structured(p, s)) && Measured(Structured(p, s))
  {
    hide Params.Len, ForsGroups, HtLayers, LayersFit, LayersMeasured, ElementSizes;
    GroupsSized(s.fors, p.a, p.k);
    LayersSized(p, s.ht);
  }

  // ---- FORS ----------------------------------------------------------------

  /** The leaf indices FORS opens fit their 32-bit words. */
  predicate ForsRoom(p: Params)
  {
    p.a <= 30 && p.k * Pow2(p.a) < Pow2(31)
  }

  lemma WellFormedForsRoom(p: Params)
    requires p.WellFormed()
    ensures ForsRoom(p) && p.hp <= 31 && p.a <= 30 && p.d > 0 && p.lgw in {1, 2, 4, 8} && p.m <= 32
  {
    hide *;
    ShapeFacts(p);
    IndexWidths(p);
    ForsRoomFrom(p);
  }

  lemma ForsRoomFrom(p: Params)
    requires p.k * Pow2(p.a) < Pow2(8 * p.ForsIndexWidth() - 1) && 1 <= p.ForsIndexWidth() <= 4 && p.a <= 30
    ensures ForsRoom(p)
  {
    hide Pow2, Params.ForsIndexWidth;
    Pow2Mono(8 * p.ForsIndexWidth() - 1, 31);
  }

  lemma LeafIndexFits(k: nat, a: nat, i: nat, idx: nat)
    requires k * Pow2(a) < Pow2(31) && i < k && idx < Pow2(a)
    ensures i * Pow2(a) + idx < Pow2(32)
  {
    hide Pow2;
    RecordFits(i, k, Pow2(a));
    Pow2Strict(31, 32);
  }

  /** One FORS tree's root from its opened element and path. */
  method ForsRootLoop(hash: Hash, p: Params, seed: Bytes, adrs: AddressBytes, g: Group, i: nat, idx: nat)
    returns (node: Bytes)
    requires adrs.Valid() && adrs.addr.ty == FORS_TREE && adrs.addr.layer == 0
    requires ForsPos(p, i, idx) < Pow2(32) && |g.auth| <= 31
    modifies adrs, adrs.bytes
    ensures adrs.Valid() && adrs.addr.(w2 := 0, w3 := 0) == old(adrs.addr).(w2 := 0, w3 := 0)
    ensures node == ForsRoot(hash, seed, p, old(adrs.addr.tree), old(adrs.addr.w1), g, i, idx)
  {
    hide Pow2, AHash, AddressBytes.Valid, PathUp;
    AddressRoom();
    ghost var base := ForsAddr(adrs.addr.tree, adrs.addr.w1);
    var leafIndex := ForsPos(p, i, idx);
    adrs.SetTreeHeight(0);
    adrs.SetTreeIndex(leafIndex);
    ConcatOne(g.sk);
    node := adrs.HashParts(hash, seed, [g.sk]);
    PathIgnoresWords(hash, seed, base, adrs.addr, leafIndex, idx, node, g.auth, |g.auth|);
    node := PathLoop(hash, seed, adrs, leafIndex, idx, node, g.auth);
  }

  /** The roots of the opened FORS trees, one by one. */
  predicate RootsAre(hash: Hash, seed: Bytes, p: Params, tree: nat, kp: nat, groups: seq<Group>, indices: seq<nat>,
                     roots: seq<Bytes>)
  {
    && |roots| == |groups| == |indices|
    && forall i: nat :: i < |roots| ==> roots[i] == ForsRoot(hash, seed, p, tree, kp, groups[i], i, indices[i])
  }

  /** Room for every index, and a group for every tree. */
  predicate ForsShape(p: Params, fors: seq<Bytes>) { ForsRoom(p) && |fors| == p.k * (1 + p.a) }

  function GroupsOf(p: Params, fors: seq<Bytes>): (r: seq<Group>)
    requires ForsShape(p, fors)
    ensures |r| == p.k
  {
    ForsGroups(fors, p.a, p.k)
  }

  /** The group of tree i, and where its leaf sits. */
  lemma GroupOf(p: Params, fors: seq<Bytes>, i: nat, idx: nat)
    requires ForsShape(p, fors) && i < p.k && idx < Pow2(p.a)
    ensures |fors| == p.k * (1 + p.a) && GroupsOf(p, fors)[i] == ForsGroup(fors, p.a, p.k, i)
    ensures ForsPos(p, i, idx) < Pow2(32) && |GroupsOf(p, fors)[i].auth| <= 31
  {
    hide Slice, Pow2;
    LeafIndexFits(p.k, p.a, i, idx);
  }

  /** The loop over FORS trees. */
  method ForsRootsLoop(hash: Hash, p: Params, seed: Bytes, adrs: AddressBytes, fors: seq<Bytes>, indices: seq<nat>)
    returns (roots: seq<Bytes>)
    requires adrs.Valid() && adrs.addr.ty == FORS_TREE && adrs.addr.layer == 0
    requires ForsShape(p, fors) && |indices| == p.k
    requires forall i :: 0 <= i < p.k ==> indices[i] < Pow2(p.a)
    modifies adrs, adrs.bytes
    ensures adrs.Valid() && adrs.addr.(w2 := 0, w3 := 0) == old(adrs.addr).(w2 := 0, w3 := 0)
    ensures RootsAre(hash, seed, p, old(adrs.addr.tree), old(adrs.addr.w1), GroupsOf(p, fors), indices, roots)
    ensures Concat(roots) == ForsRoots(hash, seed, p, old(adrs.addr.tree), old(adrs.addr.w1), GroupsOf(p, fors), indices, p.k)
  {
    hide Pow2, AddressBytes.Valid, ForsRoot, ForsPos, GroupsOf, ForsShape, ForsGroup;
    ghost var tree, kp := adrs.addr.tree, adrs.addr.w1;
    ghost var groups := GroupsOf(p, fors);
    roots := [];
    var i := 0;
    while i < p.k
      invariant 0 <= i <= p.k && |roots| == i && adrs.Valid()
      invariant forall j: nat :: j < i ==> roots[j] == ForsRoot(hash, seed, p, tree, kp, groups[j], j, indices[j])
      invariant adrs.addr.(w2 := 0, w3 := 0) == old(adrs.addr).(w2 := 0, w3 := 0)
      invariant Concat(roots) == ForsRoots(hash, seed, p, tree, kp, groups, indices, i)
    {
      GroupOf(p, fors, i, indices[i]);
      var node := ForsRootLoop(hash, p, seed, adrs, ForsGroup(fors, p.a, p.k, i), i, indices[i]);
      ConcatSnoc(roots, node);
      roots := roots + [node];
      i := i + 1;
    }
  }

  /** Every FORS tree has its group, and md its index. */
  predicate ForsSized(p: Params, fors: seq<Bytes>, md: Bytes)
  {
    ForsShape(p, fors) && p.a * p.k <= 8 * |md|
  }

  function IndicesIn(p: Params, fors: seq<Bytes>, md: Bytes): (r: seq<nat>)
    requires ForsSized(p, fors, md)
    ensures |r| == p.k
  {
    Base2b(md, p.a, p.k)
  }

  /** `fors_pk_from_sig`. */
  method ForsPkLoop(hash: Hash, p: Params, seed: Bytes, adrs: AddressBytes, fors: seq<Bytes>, md: Bytes)
    returns (indices: seq<nat>, roots: seq<Bytes>, pk: Bytes)
    requires adrs.Valid() && adrs.addr.ty == FORS_TREE && adrs.addr.layer == 0
    requires ForsSized(p, fors, md)
    ensures indices == IndicesIn(p, fors, md)
    ensures RootsAre(hash, seed, p, adrs.addr.tree, adrs.addr.w1, GroupsOf(p, fors), indices, roots)
    ensures pk == ForsPkFromSig(hash, seed, p, adrs.addr.tree, adrs.addr.w1, GroupsOf(p, fors), indices)
  {
    hide Pow2, AddressBytes.Valid, ForsRoots, AHash, Base2b, RootsAre;
    var a := new AddressBytes.Copy(adrs);
    ghost var read: nat;
    indices, read := Base2bLoop(md, p.a, p.k);
    roots := ForsRootsLoop(hash, p, seed, a, fors, indices);
    var rootsAdrs := new AddressBytes.Copy(a);
    rootsAdrs.SetTypeAndClear(FORS_ROOTS);
    rootsAdrs.SetKeyPairAddress(a.Word(1));
    pk := rootsAdrs.HashParts(hash, seed, roots);
  }

  // ---- the verifier --------------------------------------------------------

  /** `h_msg`. */
  method HMsgLoop(hash: Hash, p: Params, r: Bytes, pk: PublicKey, message: Bytes) returns (d: Bytes)
    requires p.m <= 32
    ensures d == HMsg(hash, p, r, pk, message)
  {
    var inner := r;
    inner := inner + pk.seed;
    inner := inner + pk.root;
    inner := inner + message;
    var digest1 := hash(inner);
    var outer := r;
    outer := outer + pk.seed;
    outer := outer + digest1;
    outer := outer + ToBe(0, 4);
    d := hash(outer)[..p.m];
  }

  /** Every intermediate of a verification. */
  datatype Trace = Trace(digest: Bytes, idxTree: nat, idxLeaf: nat, forsIndices: seq<nat>, forsRoots: seq<Bytes>,
                         pkFors: Bytes, layerAddresses: seq<(nat, nat)>, wotsMessages: seq<seq<nat>>, nodes: seq<Bytes>,
                         root: Bytes)

  /** The extended digits of one node. */
  predicate ExtendedDigits(p: Params, m: Bytes, msg: seq<nat>)
    requires p.lgw in {1, 2, 4, 8}
  {
    |m| == N && |msg| == p.Len() && forall i :: 0 <= i < p.Len() ==> msg[i] == WotsDigit(p, m, i)
  }

  /** One digit string for each of the first n nodes. */
  predicate MessagesAre(p: Params, nodes: seq<Bytes>, msgs: seq<seq<nat>>, n: nat)
    requires p.lgw in {1, 2, 4, 8}
  {
    |msgs| == n <= |nodes| && forall j: nat :: j < n ==> ExtendedDigits(p, nodes[j], msgs[j])
  }

  lemma LayerStep(p: Params, idxTree: nat, idxLeaf: nat, layer: nat)
    ensures LayerTree(p, idxTree, 0) == idxTree && LayerLeaf(p, idxTree, idxLeaf, 0) == idxLeaf
    ensures LayerLeaf(p, idxTree, idxLeaf, layer + 1) == Low(LayerTree(p, idxTree, layer), p.hp)
    ensures LayerTree(p, idxTree, layer + 1) == Shr(LayerTree(p, idxTree, layer), p.hp)
  {
    ShrZero(idxTree);
    ShrTwice(idxTree, p.hp * layer, p.hp);
    assert p.hp * (layer + 1) == p.hp * layer + p.hp;
  }

  /** One layer under the tree and leaf in force. */
  method OneLayer(hash: Hash, p: Params, seed: Bytes, group: Layer, layer: nat, tree: nat, leaf: nat, node: Bytes)
    returns (next: Bytes, msg: seq<nat>)
    requires p.lgw in {1, 2, 4, 8} && p.hp <= 31 && layer < 256 && tree < Pow2(64) && leaf < Pow2(p.hp) && |node| == N
    requires |group.wots| == p.Len() && |group.auth| == p.hp
    ensures next == XmssPkFromSig(hash, seed, p, layer, tree, leaf, group.wots, group.auth, node)
    ensures ExtendedDigits(p, node, msg)
  {
    hide Pow2, AddressBytes.Valid, XmssPkFromSig, Params.Len, WotsDigit;
    var a := new AddressBytes();
    a.SetLayer(layer);
    a.SetTreeAddress(tree);
    LeafFits(p.hp, leaf);
    next, msg := XmssPkLoop(hash, p, seed, a, leaf, group.wots, group.auth, node);
  }

  /** What the hypertree loop holds after `n` layers. */
  ghost predicate Climbed(hash: Hash, p: Params, seed: Bytes, layers: seq<Layer>, idxTree: nat, idxLeaf: nat, pkFors: Bytes,
                          addresses: seq<(nat, nat)>, nodes: seq<Bytes>, n: nat)
    requires p.lgw in {1, 2, 4, 8} && LayersFit(p, layers) && |pkFors| == N && n <= |layers|
  {
    && |addresses| == n && |nodes| == n + 1
    && (forall j: nat :: j < n ==> addresses[j] == (LayerTree(p, idxTree, j), LayerLeaf(p, idxTree, idxLeaf, j)))
    && (forall j: nat :: j <= n ==> nodes[j] == HtNode(hash, p, seed, layers, idxTree, idxLeaf, pkFors, j))
  }

  lemma Climb(hash: Hash, p: Params, seed: Bytes, layers: seq<Layer>, idxTree: nat, idxLeaf: nat, pkFors: Bytes,
              addresses: seq<(nat, nat)>, nodes: seq<Bytes>, n: nat, tree: nat, leaf: nat, next: Bytes)
    requires p.lgw in {1, 2, 4, 8} && LayersFit(p, layers) && |pkFors| == N && n < |layers|
    requires Climbed(hash, p, seed, layers, idxTree, idxLeaf, pkFors, addresses, nodes, n)
    requires tree == LayerTree(p, idxTree, n) && leaf == LayerLeaf(p, idxTree, idxLeaf, n) && |nodes[n]| == N
    requires next == XmssPkFromSig(hash, seed, p, n, tree, leaf, layers[n].wots, layers[n].auth, nodes[n])
    ensures Climbed(hash, p, seed, layers, idxTree, idxLeaf, pkFors, addresses + [(tree, leaf)], nodes + [next], n + 1)
  {
    hide LayersFit, XmssPkFromSig, LayerTree, LayerLeaf, Params.Len;
  }

  /** The hypertree loop: tree and leaf shift down by one layer each turn. */
  method HypertreeLoop(hash: Hash, p: Params, seed: Bytes, layers: seq<Layer>, idxTree: nat, idxLeaf: nat, pkFors: Bytes)
    returns (addresses: seq<(nat, nat)>, msgs: seq<seq<nat>>, nodes: seq<Bytes>, root: Bytes)
    requires p.lgw in {1, 2, 4, 8} && p.hp <= 31 && p.d <= 256 && |pkFors| == N
    requires idxTree < Pow2(64) && idxLeaf < Pow2(p.hp)
    requires |layers| == p.d && LayersFit(p, layers)
    ensures Climbed(hash, p, seed, layers, idxTree, idxLeaf, pkFors, addresses, nodes, p.d) && root == nodes[p.d]
    ensures MessagesAre(p, nodes, msgs, p.d)
  {
    hide Pow2, XmssPkFromSig, LayerTree, LayerLeaf, Shr, Low, Params.Len, ExtendedDigits;
    LayerStep(p, idxTree, idxLeaf, 0);
    addresses, msgs, nodes := [], [], [pkFors];
    var node, tree, leaf := pkFors, idxTree, idxLeaf;
    var layer := 0;
    while layer < p.d
      invariant 0 <= layer <= p.d && |node| == N
      invariant 0 <= tree < Pow2(64) && 0 <= leaf < Pow2(p.hp)
      invariant var at := if layer == 0 then 0 else layer - 1;
                tree == LayerTree(p, idxTree, at) && leaf == LayerLeaf(p, idxTree, idxLeaf, at)
      invariant Climbed(hash, p, seed, layers, idxTree, idxLeaf, pkFors, addresses, nodes, layer) && nodes[layer] == node
      invariant MessagesAre(p, nodes, msgs, layer)
    {
      if layer > 0 {
        LayerStep(p, idxTree, idxLeaf, layer - 1);
        ShrSteps(tree, p.hp);
        leaf := Low(tree, p.hp);
        tree := Shr(tree, p.hp);
      }
      var next, msg := OneLayer(hash, p, seed, layers[layer], layer, tree, leaf, node);
      Climb(hash, p, seed, layers, idxTree, idxLeaf, pkFors, addresses, nodes, layer, tree, leaf, next);
      addresses := addresses + [(tree, leaf)];
      msgs := msgs + [msg];
      nodes := nodes + [next];
      node := next;
      layer := layer + 1;
    }
    root := node;
  }

  lemma LeafFits(hp: nat, leaf: nat)
    requires hp <= 31 && leaf < Pow2(hp)
    ensures leaf < Pow2(32)
  {
    hide Pow2;
    Pow2Strict(hp, 32);
  }

  lemma ManyLayers(p: Params)
    requires p.WellFormed()
    ensures p.d <= 57
  {
    hide *;
    ShapeFacts(p);
    TreeBits(p);
    MulMono(1, p.hp, p.d - 1);
  }

  lemma StartIndices(p: Params, digest: Bytes)
    requires p.WellFormed() && |digest| == p.m
    ensures IdxTree(p, digest) < Pow2(64) && IdxLeaf(p, digest) < Pow2(p.hp) && IdxLeaf(p, digest) < Pow2(32)
  {
    TreeBits(p);
    DigestParts(p);
    WellFormedForsRoom(p);
    hide Pow2, Params.IdxTreeLen, Params.MdLen, Params.IdxLeafLen, Params.WellFormed, Params.IdxTreeBits, Be;
    Pow2Mono(p.IdxTreeBits(), 64);
    LeafFits(p.hp, IdxLeaf(p, digest));
  }

  /** The address every FORS tree of one key pair is hashed under. */
  method ForsAddress(tree: nat, kp: nat) returns (a: AddressBytes)
    requires tree < Pow2(64) && kp < Pow2(32)
    ensures fresh(a) && fresh(a.bytes) && a.Valid() && a.addr.ty == FORS_TREE && a.addr.layer == 0
    ensures a.addr.tree == tree && a.addr.w1 == kp
  {
    hide Pow2, AddressBytes.Valid;
    a := new AddressBytes();
    a.SetTreeAddress(tree);
    a.SetTypeAndClear(FORS_TREE);
    a.SetKeyPairAddress(kp);
  }

  /** The FORS part, under the address the digest picks. */
  method ForsPart(hash: Hash, p: Params, seed: Bytes, fors: seq<Bytes>, md: Bytes, idxTree: nat, idxLeaf: nat)
    returns (indices: seq<nat>, roots: seq<Bytes>, pkFors: Bytes)
    requires ForsSized(p, fors, md) && idxTree < Pow2(64) && idxLeaf < Pow2(32)
    ensures indices == IndicesIn(p, fors, md)
    ensures RootsAre(hash, seed, p, idxTree, idxLeaf, GroupsOf(p, fors), indices, roots)
    ensures pkFors == ForsPkFromSig(hash, seed, p, idxTree, idxLeaf, GroupsOf(p, fors), indices)
  {
    var a := ForsAddress(idxTree, idxLeaf);
    hide *;
    indices, roots, pkFors := ForsPkLoop(hash, p, seed, a, fors, md);
  }

  lemma PartsIn(p: Params, fors: seq<Bytes>, md: Bytes)
    requires ForsRoom(p) && |fors| == p.k * (1 + p.a) && p.a * p.k <= 8 * |md|
    ensures ForsSized(p, fors, md)
    ensures GroupsOf(p, fors) == ForsGroups(fors, p.a, p.k) && IndicesIn(p, fors, md) == Base2b(md, p.a, p.k)
  {
    hide ForsGroups, Base2b;
  }

  lemma ShapedParts(p: Params, s: HostSignature)
    requires p.lgw > 0 && Shaped(p, s)
    ensures |s.fors| == p.k * (1 + p.a) && |s.ht| == p.d * (p.Len() + p.hp)
    ensures Structured(p, s).fors == ForsGroups(s.fors, p.a, p.k)
    ensures Structured(p, s).ht == HtLayers(s.ht, p.Len(), p.hp, p.d) && LayersFit(p, Structured(p, s).ht)
  {
    hide Params.Len;
    StructuredFits(p, s);
  }

  lemma RootParts(hash: Hash, p: Params, pk: PublicKey, s: HostSignature, message: Bytes, digest: Bytes)
    requires p.lgw > 0 && p.WellFormed() && p.m <= 32 && Shaped(p, s) && Fits(p, Structured(p, s))
    requires digest == HMsg(hash, p, s.randomness, pk, ContextPrefixed(message))
    ensures var t := Structured(p, s);
            var tree, leaf := IdxTree(p, digest), IdxLeaf(p, digest);
            && ForsIndices(p, digest) == Base2b(Md(p, digest), p.a, p.k)
            && CandidateRoot(hash, p, pk, t, message)
               == HtNode(hash, p, pk.seed, t.ht, tree, leaf,
                         ForsPkFromSig(hash, pk.seed, p, tree, leaf, t.fors, ForsIndices(p, digest)), p.d)
  {
    hide HtNode, ForsPkFromSig, IdxTree, IdxLeaf, HMsg, Md, Base2b, HtLayers, ForsGroups, Params.Len;
  }

  /** `verify_traced`: every intermediate is the reference's. */
  method VerifyTraced(hash: Hash, p: Params, pk: PublicKey, sig: HostSignature, message: Bytes) returns (t: Trace)
    requires p.lgw > 0 && p.WellFormed() && Shaped(p, sig)
    ensures Fits(p, Structured(p, sig))
    ensures t.root == CandidateRoot(hash, p, pk, Structured(p, sig), message)
    ensures |t.digest| == p.m && t.digest == HMsg(hash, p, sig.randomness, pk, ContextPrefixed(message))
    ensures t.idxTree == IdxTree(p, t.digest) && t.idxLeaf == IdxLeaf(p, t.digest)
    ensures t.forsIndices == ForsIndices(p, t.digest)
    ensures t.pkFors == ForsPkFromSig(hash, pk.seed, p, t.idxTree, t.idxLeaf, Structured(p, sig).fors, t.forsIndices)
    ensures RootsAre(hash, pk.seed, p, t.idxTree, t.idxLeaf, Structured(p, sig).fors, t.forsIndices, t.forsRoots)
    ensures MessagesAre(p, t.nodes, t.wotsMessages, p.d)
    ensures Climbed(hash, p, pk.seed, Structured(p, sig).ht, t.idxTree, t.idxLeaf, t.pkFors, t.layerAddresses, t.nodes, p.d)
  {
    hide *;
    StructuredFits(p, sig);
    ShapedParts(p, sig);
    WellFormedForsRoom(p);
    ManyLayers(p);
    var digest := HMsgLoop(hash, p, sig.randomness, pk, ContextPrefixed(message));
    StartIndices(p, digest);
    var md, idxTree, idxLeaf := SplitDigest(p, digest);
    PartsIn(p, sig.fors, md);
    var indices, roots, pkFors := ForsPart(hash, p, pk.seed, sig.fors, md, idxTree, idxLeaf);
    var layers := HtLayers(sig.ht, p.Len(), p.hp, p.d);
    var addresses, msgs, nodes, root := HypertreeLoop(hash, p, pk.seed, layers, idxTree, idxLeaf, pkFors);
    ClimbedRoot(hash, p, pk.seed, layers, idxTree, idxLeaf, pkFors, addresses, nodes);
    RootParts(hash, p, pk, sig, message, digest);
    t := Trace(digest, idxTree, idxLeaf, indices, roots, pkFors, addresses, msgs, nodes, root);
  }

  lemma ClimbedRoot(hash: Hash, p: Params, seed: Bytes, layers: seq<Layer>, idxTree: nat, idxLeaf: nat, pkFors: Bytes,
                    addresses: seq<(nat, nat)>, nodes: seq<Bytes>)
    requires p.lgw in {1, 2, 4, 8} && LayersFit(p, layers) && |pkFors| == N
    requires Climbed(hash, p, seed, layers, idxTree, idxLeaf, pkFors, addresses, nodes, |layers|)
    ensures |nodes| == |layers| + 1
    ensures nodes[|layers|] == HtNode(hash, p, seed, layers, idxTree, idxLeaf, pkFors, |layers|)
  {
    hide HtNode, LayersFit;
  }

  /** `verify`. */
  method Verify(hash: Hash, p: Params, pk: PublicKey, sig: HostSignature, message: Bytes) returns (ok: bool)
    requires p.lgw > 0 && p.WellFormed() && Shaped(p, sig)
    ensures Fits(p, Structured(p, sig)) && ok == Verifies(hash, p, pk, Structured(p, sig), message)
  {
    hide Params.WellFormed, Fits, CandidateRoot, Shaped, Climbed, ForsPkFromSig, Structured;
    var t := VerifyTraced(hash, p, pk, sig, message);
    ok := t.root == pk.root;
  }
}
