/** What LMS verification hashes, with the fields and domain bytes of section 4 and 5 of RFC 8554 written out. */
module LmsInputs {
  import opened Arith
  import opened Bytes
  import opened Machine
  import opened Lane
  import opened Lms
  import opened LmsScript
  import opened LmsVerify
  import opened Binding

  /** A domain is its two equal bytes. */
  lemma DomainBytes()
    ensures ToBe(0x8080, 2) == [0x80, 0x80] && ToBe(0x8181, 2) == [0x81, 0x81]
    ensures ToBe(0x8282, 2) == [0x82, 0x82] && ToBe(0x8383, 2) == [0x83, 0x83]
  {
    TwoBytes(0x80);
    TwoBytes(0x81);
    TwoBytes(0x82);
    TwoBytes(0x83);
  }

  lemma TwoBytes(b: Byte)
    ensures ToBe(256 * b + b, 2) == [b, b]
  {
    assert ToBe(b, 1) == ToBe(b / 256, 0) + [b];
    assert ToBe(b / 256, 0) == [];
  }

  /** Q: I, the leaf number, D_MESG, C, the message. */
  lemma MessageInput(hash: Hash, id: Bytes, q: nat, c: Bytes, message: Bytes)
    ensures MessageDigest(hash, id, q, c, message) == hash(id + ToBe(q, 4) + [0x81, 0x81] + c + message)
  {
    hide ToBe;
    DomainBytes();
  }

  /** One chain step: I, the leaf number, the chain, the step, the value. */
  lemma StepInput(hash: Hash, id: Bytes, q: nat, i: nat, x: Bytes, j: Byte)
    ensures OtsChain(hash, id, q, i, x, j, j + 1) == hash(id + ToBe(q, 4) + ToBe(i, 2) + [j] + x)
  {
    hide ToBe;
    assert OtsChain(hash, id, q, i, x, j, j) == x;
  }

  /** Kc: I, the leaf number, D_PBLC, every chain's end. */
  lemma KeyInput(hash: Hash, p: LmsParams, id: Bytes, q: nat, y: seq<Bytes>, digest: Bytes)
    requires p.WellFormed() && |y| == p.p && |digest| == NODE
    ensures CandidateKey(hash, p, id, q, y, digest)
            == hash(id + ToBe(q, 4) + [0x80, 0x80] + ChainEndsTo(hash, p, id, q, CoefSource(digest, p), y, p.p))
  {
    hide ToBe, ChainEndsTo, CoefSource, LmsParams.WellFormed;
    DomainBytes();
  }

  /** The leaf: I, its node number 2^h + q, D_LEAF, Kc; the root is what its path climbs to. */
  lemma LeafInput(hash: Hash, p: LmsParams, id: Bytes, q: nat, c: Bytes, y: seq<Bytes>, path: seq<Bytes>, message: Bytes)
    requires p.WellFormed() && |y| == p.p
    ensures var kc := CandidateKey(hash, p, id, q, y, MessageDigest(hash, id, q, c, message));
            CandidateRoot(hash, p, id, q, c, y, path, message)
            == Climb(hash, id, Pow2(p.h) + q, hash(id + ToBe(Pow2(p.h) + q, 4) + [0x82, 0x82] + kc), path, 0)
  {
    hide ToBe, CandidateKey, MessageDigest, Climb, Pow2, LmsParams.WellFormed;
    DomainBytes();
  }

  /** An interior node: I, its number, D_INTR, its children, the path's element on the left of an odd node. */
  lemma InteriorInput(hash: Hash, id: Bytes, node: nat, tmp: Bytes, path: seq<Bytes>, i: nat)
    requires node > 1 && i < |path|
    ensures Climb(hash, id, node, tmp, path, i)
            == Climb(hash, id, node / 2,
                     hash(id + ToBe(node / 2, 4) + [0x83, 0x83] + if node % 2 == 1 then path[i] + tmp else tmp + path[i]),
                     path, i + 1)
  {
    hide ToBe;
    DomainBytes();
    var pre := id + ToBe(node / 2, 4) + [0x83, 0x83];
    assert pre + path[i] + tmp == pre + (path[i] + tmp);
    assert pre + tmp + path[i] == pre + (tmp + path[i]);
  }

  /** The checksum: every digit's distance from 2^w - 1, summed, shifted left by ls, two bytes behind the digest. */
  lemma ChecksumInput(q: Bytes, p: LmsParams)
    requires p.WellFormed() && |q| == NODE
    ensures CoefSource(q, p) == q + [FullChecksum(q, p) / 256, FullChecksum(q, p) % 256]
  {
    ChecksumFits16(q, p);
    hide FullChecksum, LmsParams.WellFormed, Pow2;
    var c := FullChecksum(q, p);
    Pow2Word();
    assert ToBe(c, 2) == ToBe(c / 256, 1) + [c % 256];
    assert ToBe(c / 256, 1) == ToBe(c / 256 / 256, 0) + [c / 256 % 256];
    assert ToBe(c / 256 / 256, 0) == [];
  }

  lemma Pow2Word()
    ensures Pow2(16) == 0x1_0000
  {
    hide Pow2;
    Pow2Eight();
    Pow2Add(8, 8);
  }

  // ---- when there is a script ----------------------------------------------

  /** The verifier is generated for every leaf of the tree and no other. */
  lemma VerifyGenerated(p: LmsParams, key: LmsKey, q: nat)
    requires p.w in {1, 2, 4, 8}
    ensures EmitLms(p, key, q).Some? <==> q < Pow2(p.h)
  {
    hide DigestOps, ChecksumHead, ChecksumTail, Flat, AfterChecksum, Pow2;
  }

  /** The vault additionally needs an output count from 1 to 127. */
  lemma VaultGenerated(p: LmsParams, key: LmsKey, q: nat, count: nat)
    requires p.w in {1, 2, 4, 8}
    ensures EmitLmsVault(p, key, q, count).Some? <==> q < Pow2(p.h) && 0 < count <= 127
  {
    VerifyGenerated(p, key, q);
    hide EmitLms, HeaderOps, OutputsOps, Pow2;
  }
}
