/** The compressed hash address, section 11.2 of FIPS 205, and the one hash every SHA2 category-1 function is. */
module Adrs {
  import opened Arith
  import opened Bytes
  import opened Machine
  import opened Params

  const ADRS_LEN: nat := 22

  /** An address by its fields; w1, w2, w3 are the three big-endian words. */
  datatype Addr = Addr(layer: nat, tree: nat, ty: nat, w1: nat, w2: nat, w3: nat)
  {
    predicate InBounds()
    {
      layer < 256 && tree < Pow2(64) && ty < 256 && w1 < Pow2(32) && w2 < Pow2(32) && w3 < Pow2(32)
    }
  }

  /** The bytes that get hashed. */
  function Encode(a: Addr): (r: Bytes)
    ensures |r| == ADRS_LEN
  {
    [a.layer % 256] + ToBe(a.tree, 8) + [a.ty % 256] + ToBe(a.w1, 4) + ToBe(a.w2, 4) + ToBe(a.w3, 4)
  }

  /** Different addresses hash differently prefixed messages: the layout loses nothing. */
  lemma EncodeInjective(a: Addr, b: Addr)
    requires a.InBounds() && b.InBounds() && Encode(a) == Encode(b)
    ensures a == b
  {
    EncodeFields(a);
    EncodeFields(b);
    hide Encode, ToBe, Pow2;
    ToBeInjective(a.tree, b.tree, 8);
    ToBeInjective(a.w1, b.w1, 4);
    ToBeInjective(a.w2, b.w2, 4);
    ToBeInjective(a.w3, b.w3, 4);
  }

  /** Where each field sits. */
  lemma EncodeFields(a: Addr)
    ensures var x := Encode(a);
            && x[0] == a.layer % 256 && x[1..9] == ToBe(a.tree, 8) && x[9] == a.ty % 256
            && x[10..14] == ToBe(a.w1, 4) && x[14..18] == ToBe(a.w2, 4) && x[18..22] == ToBe(a.w3, 4)
  {
    hide ToBe;
  }

  /** PK.seed || toByte(0, 64 - n). */
  function HashPad(seed: Bytes): Bytes { seed + Zeros(PAD_LEN) }

  /** Trunc_n(SHA-256(PK.seed || pad || ADRS || M)). */
  function AHash(hash: Hash, seed: Bytes, a: Addr, msg: Bytes): (r: Bytes)
    ensures |r| == N
  {
    hash(HashPad(seed) + Encode(a) + msg)[..N]
  }

  /**
   * The bytes under one hash: sixteen of the key seed, forty-eight zeros to the end of the block, the layer, eight of the
   * tree, the type, three words of four, and the message.
   */
  ghost predicate Laid(x: Bytes, seed: Bytes, layer: nat, tree: nat, ty: nat, w1: nat, w2: nat, w3: nat, msg: Bytes)
  {
    && |x| == 86 + |msg| && x[..16] == seed && (forall i :: 16 <= i < 64 ==> x[i] == 0)
    && x[64] == layer && Be(x[65..73]) == tree && x[73] == ty
    && Be(x[74..78]) == w1 && Be(x[78..82]) == w2 && Be(x[82..86]) == w3 && x[86..] == msg
  }

  /** Every addressed hash is sixteen bytes of the hash of those bytes. */
  lemma HashedBytes(hash: Hash, seed: Bytes, a: Addr, msg: Bytes) returns (x: Bytes)
    requires |seed| == 16 && a.InBounds()
    ensures Laid(x, seed, a.layer, a.tree, a.ty, a.w1, a.w2, a.w3, msg)
    ensures AHash(hash, seed, a, msg) == hash(x)[..16]
  {
    hide *;
    x := HashPad(seed) + Encode(a) + msg;
    HashOfBytes(hash, seed, a, msg);
    PaddedFields(seed, a, msg, x);
    WordsBack(a);
    LaidIf(x, seed, a, msg);
  }

  lemma HashOfBytes(hash: Hash, seed: Bytes, a: Addr, msg: Bytes)
    ensures AHash(hash, seed, a, msg) == hash(HashPad(seed) + Encode(a) + msg)[..16]
  {
    hide HashPad, Encode;
  }

  lemma WordsBack(a: Addr)
    requires a.InBounds()
    ensures a.layer % 256 == a.layer && a.ty % 256 == a.ty && Be(ToBe(a.tree, 8)) == a.tree
    ensures Be(ToBe(a.w1, 4)) == a.w1 && Be(ToBe(a.w2, 4)) == a.w2 && Be(ToBe(a.w3, 4)) == a.w3
  {
    hide Be, ToBe, Pow2;
    BeToBe(a.tree, 8);
    BeToBe(a.w1, 4);
    BeToBe(a.w2, 4);
    BeToBe(a.w3, 4);
  }

  lemma LaidIf(x: Bytes, seed: Bytes, a: Addr, msg: Bytes)
    requires |seed| == 16 && |x| == 86 + |msg| && x[..16] == seed && forall i :: 16 <= i < 64 ==> x[i] == 0
    requires x[64] == a.layer && Be(x[65..73]) == a.tree && x[73] == a.ty
    requires Be(x[74..78]) == a.w1 && Be(x[78..82]) == a.w2 && Be(x[82..86]) == a.w3 && x[86..] == msg
    ensures Laid(x, seed, a.layer, a.tree, a.ty, a.w1, a.w2, a.w3, msg)
  {
    hide Be;
  }

  lemma PaddedFields(seed: Bytes, a: Addr, msg: Bytes, x: Bytes)
    requires |seed| == 16 && x == HashPad(seed) + Encode(a) + msg
    ensures |x| == 86 + |msg| && x[..16] == seed && forall i :: 16 <= i < 64 ==> x[i] == 0
    ensures x[64] == a.layer % 256 && x[65..73] == ToBe(a.tree, 8) && x[73] == a.ty % 256
    ensures x[74..78] == ToBe(a.w1, 4) && x[78..82] == ToBe(a.w2, 4) && x[82..86] == ToBe(a.w3, 4) && x[86..] == msg
  {
    EncodeFields(a);
    hide Encode, ToBe;
    var e := Encode(a);
    assert x[64..86] == e;
    assert x[65..73] == e[1..9] && x[74..78] == e[10..14] && x[78..82] == e[14..18] && x[82..86] == e[18..22];
  }
}
