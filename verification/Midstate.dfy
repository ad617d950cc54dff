/** SHA-256 as padding and a fold of an arbitrary compression function, and the signer's resumed form of it. */
module Midstate {
  import opened Arith
  import opened Bytes
  import opened Machine
  import opened Params
  import opened Adrs
  import opened AdrsBytes
  import opened HostVerifier

  const BLOCK: nat := 64
  const BUF_LEN: nat := 1280

  type Word = w: int | 0 <= w < 0x1_0000_0000
  type State = s: seq<Word> | |s| == 8 witness seq(8, _ => 0)

  /** One application of the compression function to a 64-byte block. */
  type Compress = (State, Bytes) -> State

  // ---- SHA-256 -------------------------------------------------------------

  /** Section 5.1.1 of FIPS 180-4: how many zero bytes follow the 0x80. */
  function PadZeros(len: nat): (k: nat)
    ensures k < BLOCK && (len + 1 + k + 8) % BLOCK == 0
  {
    (BLOCK - (len + 9) % BLOCK) % BLOCK
  }

  /** The end of a padded message of `len` bytes. */
  function PadTail(len: nat): Bytes { [0x80] + Zeros(PadZeros(len)) + ToBe(8 * len, 8) }

  function Pad(m: Bytes): (r: Bytes)
    ensures |r| % BLOCK == 0
  {
    m + PadTail(|m|)
  }

  /** Section 6.2: compress the blocks in order. */
  function Blocks(compress: Compress, state: State, x: Bytes): State
    decreases |x|
  {
    if |x| < BLOCK then state else Blocks(compress, compress(state, x[..BLOCK]), x[BLOCK..])
  }

  function WordsToBytes(s: seq<Word>): (r: Bytes)
    ensures |r| == 4 * |s|
  {
    if |s| == 0 then [] else WordsToBytes(s[..|s| - 1]) + ToBe(s[|s| - 1], 4)
  }

  function ShaDigest(compress: Compress, iv: State, m: Bytes): Machine.Digest
  {
    WordsToBytes(Blocks(compress, iv, Pad(m)))
  }

  function Sha256(compress: Compress, iv: State): Hash { (m: Bytes) => ShaDigest(compress, iv, m) }

  lemma {:induction false} BlocksAppend(compress: Compress, state: State, x: Bytes, y: Bytes)
    requires |x| % BLOCK == 0
    ensures Blocks(compress, state, x + y) == Blocks(compress, Blocks(compress, state, x), y)
    decreases |x|
  {
    if |x| < BLOCK {
      assert x == [] && x + y == y;
    } else {
      assert (x + y)[..BLOCK] == x[..BLOCK] && (x + y)[BLOCK..] == x[BLOCK..] + y;
      BlocksAppend(compress, compress(state, x[..BLOCK]), x[BLOCK..], y);
    }
  }

  // ---- the resumed form ----------------------------------------------------

  /** The padding built by hand for the part after the first block. */
  lemma HandPadding(tail: nat, at: nat, padded: nat)
    requires at == ADRS_LEN + tail + 1 && padded == CeilDiv(at + 8, BLOCK) * BLOCK
    ensures padded % BLOCK == 0 && padded == at + PadZeros(BLOCK + ADRS_LEN + tail) + 8
  {
    var x, k := at + 8, PadZeros(BLOCK + ADRS_LEN + tail);
    CeilDivBounds(x, BLOCK);
    DivAddMul(1, BLOCK, x);
    assert (BLOCK + ADRS_LEN + tail + 9) % BLOCK == x % BLOCK;
    hide CeilDiv;
    RoundUp(x, padded / BLOCK, padded, k);
  }

  lemma RoundUp(x: nat, q: nat, padded: nat, k: nat)
    requires x > 0 && k == (BLOCK - x % BLOCK) % BLOCK
    requires padded == q * BLOCK && x <= padded < x + BLOCK
    ensures padded == x + k
  {
  }

  /** The first n words as bytes. */
  lemma {:induction false} WordsPrefix(s: seq<Word>, n: nat)
    requires n <= |s|
    ensures WordsToBytes(s[..n]) == WordsToBytes(s)[..4 * n]
  {
    if n < |s| {
      var m := |s| - 1;
      assert s[..m][..n] == s[..n];
      WordsPrefix(s[..m], n);
    } else {
      assert s[..n] == s;
    }
  }

  /** Every word comes out most significant byte first, in order. */
  lemma {:induction false} WordAt(s: seq<Word>, i: nat)
    requires i < |s|
    ensures Be(WordsToBytes(s)[4 * i..4 * i + 4]) == s[i]
  {
    var m := |s| - 1;
    var x := WordsToBytes(s);
    if i < m {
      WordAt(s[..m], i);
      assert x[4 * i..4 * i + 4] == WordsToBytes(s[..m])[4 * i..4 * i + 4];
    } else {
      assert x[4 * i..4 * i + 4] == ToBe(s[m], 4);
      WordRange(s[m]);
      BeToBe(s[m], 4);
    }
  }

  lemma WordRange(w: Word)
    ensures w < Pow2(32)
  {
    Pow2Table();
    assert Pow2(32) == 2 * Pow2(31);
  }

  /** The whole digest is the folded state's words, and folding two blocks is compressing one after the other. */
  lemma DigestWords(compress: Compress, iv: State, m: Bytes, i: nat)
    requires i < 8
    ensures Be(Sha256(compress, iv)(m)[4 * i..4 * i + 4]) == Blocks(compress, iv, Pad(m))[i]
  {
    hide Blocks, Pad, WordsToBytes;
    WordAt(Blocks(compress, iv, Pad(m)), i);
  }

  lemma TwoBlocks(compress: Compress, s: State, a: Bytes, b: Bytes)
    requires |a| == 64 && |b| == 64
    ensures Blocks(compress, s, a + b) == compress(compress(s, a), b)
  {
    var s1 := compress(s, a);
    assert (a + b)[..64] == a && (a + b)[64..] == b && b[..64] == b && b[64..] == [];
    assert Blocks(compress, s1, b) == Blocks(compress, compress(s1, b), []);
  }

  /** Section 5.1.1 of FIPS 180-4, by its bytes: the message, 0x80, the fewest zeros to a whole block, the length in bits. */
  lemma PaddedMessage(m: Bytes)
    requires 8 * |m| < Pow2(64)
    ensures var x := Pad(m);
            && |x| % 64 == 0 && |m| + 9 <= |x| < |m| + 9 + 64 && x[..|m|] == m && x[|m|] == 0x80
            && (forall i :: |m| < i < |x| - 8 ==> x[i] == 0) && Be(x[|x| - 8..]) == 8 * |m|
  {
    var x := Pad(m);
    hide Pow2, ToBe;
    BeToBe(8 * |m|, 8);
    assert x[|x| - 8..] == ToBe(8 * |m|, 8);
  }

  class Midstate {
    const compress: Compress
    const iv: State
    const state: State
    ghost const seed: Bytes

    /** The state holds the compressed first block of every message under this key. */
    ghost predicate Valid()
    {
      |seed| == N && state == compress(iv, HashPad(seed))
    }

    constructor (compress: Compress, iv: State, pkSeed: Bytes)
      requires |pkSeed| == N
      ensures Valid() && seed == pkSeed && this.compress == compress && this.iv == iv
    {
      this.compress, this.iv, this.seed := compress, iv, pkSeed;
      this.state := compress(iv, HashPad(pkSeed));
    }

    /** Every block of a buffer, in place. */
    method FoldBlocks(buf: array<Byte>, padded: nat) returns (s: State)
      requires padded <= buf.Length && padded % BLOCK == 0
      ensures s == Blocks(compress, state, buf[..padded])
    {
      s := state;
      var at := 0;
      while at < padded
        invariant 0 <= at <= padded && at % BLOCK == 0
        invariant Blocks(compress, s, buf[at..padded]) == Blocks(compress, state, buf[..padded])
      {
        assert at + BLOCK <= padded;
        assert buf[at..padded][..BLOCK] == buf[at..at + BLOCK];
        assert buf[at..padded][BLOCK..] == buf[at + BLOCK..padded];
        s := compress(s, buf[at..at + BLOCK]);
        at := at + BLOCK;
      }
    }

    /**
     * `Midstate::hash`: assembled in one buffer, padded by hand, resumed after the first block. For any compression
     * function it is the plain hash of pad, address and parts.
     */
    method HashParts(adrs: AddressBytes, parts: seq<Bytes>) returns (out: Bytes)
      requires Valid() && adrs.Valid()
      requires ADRS_LEN + |Concat(parts)| + 72 <= BUF_LEN
      ensures out == AHash(Sha256(compress, iv), seed, adrs.addr, Concat(parts))
      ensures |out| == 16 && forall i :: 0 <= i < 4 ==>
                Be(out[4 * i..4 * i + 4])
                == Blocks(compress, compress(iv, seed + Zeros(48)),
                          Encode(adrs.addr) + Concat(parts) + PadTail(86 + |Concat(parts)|))[i]
    {
      hide Encode, Blocks, HashPad, AHash, Sha256, CeilDiv, WordsToBytes, PadTail, Pad;
      var tail := TotalLength(parts);
      var total := BLOCK + ADRS_LEN + tail;
      var buf := new Byte[BUF_LEN](_ => 0);
      ghost var body := Encode(adrs.addr) + Concat(parts);
      var at := Assemble(buf, adrs, parts);
      var padded := PadByHand(buf, at, total, body);
      var s := FoldBlocks(buf, padded);
      Resumed(compress, iv, state, seed, body, total, buf[..padded]);
      WordsPrefix(s, N / 4);
      out := WordsToBytes(s[..N / 4]);
      HashOf(compress, iv, seed, adrs.addr, Concat(parts), s);
      OutWords(s, out);
      PadBytes(seed);
    }
  }

  lemma PadBytes(seed: Bytes)
    ensures HashPad(seed) == seed + Zeros(48)
  {
  }

  lemma OutWords(s: State, out: Bytes)
    requires out == WordsToBytes(s[..4])
    ensures |out| == 16 && forall i :: 0 <= i < 4 ==> Be(out[4 * i..4 * i + 4]) == s[i]
  {
    hide WordsToBytes, Be;
    forall i | 0 <= i < 4
      ensures Be(out[4 * i..4 * i + 4]) == s[i]
    {
      WordAt(s[..4], i);
    }
  }

  /** The address and every part, back to back. */
  method Assemble(buf: array<Byte>, adrs: AddressBytes, parts: seq<Bytes>) returns (at: nat)
    requires adrs.Valid() && buf != adrs.bytes && buf.Length == BUF_LEN && forall j :: 0 <= j < BUF_LEN ==> buf[j] == 0
    requires ADRS_LEN + |Concat(parts)| + 72 <= BUF_LEN
    modifies buf
    ensures at == ADRS_LEN + |Concat(parts)|
    ensures buf[..at] == Encode(adrs.addr) + Concat(parts)
    ensures forall j :: at <= j < BUF_LEN ==> buf[j] == 0
  {
    hide Encode;
    ghost var head := adrs.bytes[..];
    Fill(buf, 0, adrs.bytes[..]);
    at := ADRS_LEN;
    assert buf[..at] == head + Concat(parts[..0]);
    var i := 0;
    while i < |parts|
      invariant 0 <= i <= |parts| && at == ADRS_LEN + |Concat(parts[..i])| <= ADRS_LEN + |Concat(parts)|
      invariant buf[..at] == head + Concat(parts[..i])
      invariant forall j :: at <= j < BUF_LEN ==> buf[j] == 0
    {
      PartsPrefix(parts, i);
      ghost var was := buf[..at];
      Fill(buf, at, parts[i]);
      at := at + |parts[i]|;
      assert buf[..at] == was + parts[i];
      assert was + parts[i] == head + (Concat(parts[..i]) + parts[i]);
      i := i + 1;
    }
    assert parts[..i] == parts;
  }

  /** 0x80, the zeros already there, and the bit length of the whole message. */
  method PadByHand(buf: array<Byte>, at0: nat, total: nat, ghost body: Bytes) returns (padded: nat)
    requires buf.Length == BUF_LEN && at0 == |body| >= ADRS_LEN && at0 + 72 <= BUF_LEN && total == BLOCK + at0
    requires buf[..at0] == body && forall j :: at0 <= j < BUF_LEN ==> buf[j] == 0
    modifies buf
    ensures padded <= BUF_LEN && padded % BLOCK == 0 && buf[..padded] == body + PadTail(total)
  {
    hide CeilDiv, PadTail, ToBe;
    ghost var was := buf[..];
    var at := at0 + 1;
    padded := CeilDiv(at + 8, BLOCK) * BLOCK;
    HandPadding(at0 - ADRS_LEN, at, padded);
    Fill(buf, at0, [0x80]);
    Fill(buf, padded - 8, ToBe(total * 8, 8));
    assert buf[..padded][..|body|] == body by {
      assert was[..at0] == body;
    }
    PaddedBuffer(buf[..padded], body, total, at, padded);
  }

  /** Copy a range into a buffer. */
  method Fill(buf: array<Byte>, offset: nat, value: Bytes)
    requires offset + |value| <= buf.Length
    modifies buf
    ensures forall j :: 0 <= j < buf.Length ==>
              buf[j] == if offset <= j < offset + |value| then value[j - offset] else old(buf[j])
  {
    var i := 0;
    while i < |value|
      invariant 0 <= i <= |value|
      invariant forall j :: 0 <= j < buf.Length ==>
                  buf[j] == if offset <= j < offset + i then value[j - offset] else old(buf[j])
    {
      buf[offset + i] := value[i];
      i := i + 1;
    }
  }

  method TotalLength(parts: seq<Bytes>) returns (n: nat)
    ensures n == |Concat(parts)|
  {
    n := 0;
    var i := 0;
    while i < |parts|
      invariant 0 <= i <= |parts| && n == |Concat(parts[..i])|
    {
      PartsPrefix(parts, i);
      n := n + |parts[i]|;
      i := i + 1;
    }
    assert parts[..i] == parts;
  }

  lemma {:induction false} PartsPrefix(parts: seq<Bytes>, i: nat)
    requires i < |parts|
    ensures Concat(parts[..i + 1]) == Concat(parts[..i]) + parts[i]
    ensures |Concat(parts[..i])| + |parts[i]| <= |Concat(parts)|
  {
    assert parts[..i + 1] == parts[..i] + [parts[i]];
    ConcatSnoc(parts[..i], parts[i]);
    ConcatGrows(parts, i + 1);
  }

  lemma {:induction false} ConcatGrows(parts: seq<Bytes>, n: nat)
    requires n <= |parts|
    ensures |Concat(parts[..n])| <= |Concat(parts)|
    decreases |parts| - n
  {
    if n < |parts| {
      assert parts[..n + 1] == parts[..n] + [parts[n]];
      ConcatSnoc(parts[..n], parts[n]);
      ConcatGrows(parts, n + 1);
    } else {
      assert parts[..n] == parts;
    }
  }

  /** The buffer is the body and the standard's padding for the whole message. */
  lemma PaddedBuffer(x: Bytes, body: Bytes, total: nat, at: nat, padded: nat)
    requires total == BLOCK + |body| && at == |body| + 1 && padded == |x| == at + PadZeros(total) + 8
    requires x[..|body|] == body && x[|body|] == 0x80 && x[padded - 8..] == ToBe(total * 8, 8)
    requires forall j :: at <= j < padded - 8 ==> x[j] == 0
    ensures x == body + PadTail(total)
  {
    assert x[at..padded - 8] == Zeros(PadZeros(total));
    assert x == x[..|body|] + [x[|body|]] + x[at..padded - 8] + x[padded - 8..];
  }

  /** Resuming after the first block is hashing from the start. */
  lemma Resumed(compress: Compress, iv: State, state: State, seed: Bytes, body: Bytes, total: nat, x: Bytes)
    requires |seed| == N && state == compress(iv, HashPad(seed)) && total == BLOCK + |body|
    requires x == body + PadTail(total)
    ensures Blocks(compress, state, x) == Blocks(compress, iv, Pad(HashPad(seed) + body))
  {
    var pad := HashPad(seed);
    var m := pad + body;
    assert Pad(m) == pad + x;
    BlocksAppend(compress, iv, pad, x);
    assert pad[..BLOCK] == pad && pad[BLOCK..] == [];
    assert Blocks(compress, iv, pad) == state by {
      assert Blocks(compress, state, []) == state;
    }
  }

  lemma HashOf(compress: Compress, iv: State, seed: Bytes, a: Addr, msg: Bytes, s: State)
    requires s == Blocks(compress, iv, Pad(HashPad(seed) + (Encode(a) + msg)))
    ensures WordsToBytes(s)[..N] == AHash(Sha256(compress, iv), seed, a, msg)
  {
    hide Encode, Pad, Blocks, WordsToBytes;
    assert HashPad(seed) + (Encode(a) + msg) == HashPad(seed) + Encode(a) + msg;
  }

  /** The longest message, T_len's chain ends, fits the buffer for every digit width except single bits. */
  lemma LongestMessageFits(p: Params)
    requires p.lgw in {1, 2, 4, 8}
    ensures ADRS_LEN + p.Len() * N + 72 <= BUF_LEN <==> p.lgw != 1
  {
    DigitCounts(p);
    if p.lgw != 1 && p.lgw != 8 {
      Lengths(p);
    }
    hide Params.Len2, Log2;
    Pow2Eight();
  }
}
