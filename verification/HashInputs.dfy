/**
 * What is hashed, byte by byte: the input of every hash that keys, signatures and verdicts are made of, with offsets,
 * types and constants written out as FIPS 205 has them.
 */
module HashInputs {
  import opened Arith
  import opened Bytes
  import opened Machine
  import opened Params
  import opened Adrs
  import opened Reference
  import opened HostVerifier
  import opened Signing
  import opened Roles

  /** The type byte of every role. */
  lemma RoleInput(hash: Hash, p: DigitParams, seed: Bytes, r: Role, msg: Bytes) returns (x: Bytes)
    requires p.WellFormed() && |seed| == 16 && InUse(p, r)
    ensures AHash(hash, seed, AddrOf(r), msg) == hash(x)[..16]
    ensures match r
            case ChainStep(layer, tree, kp, chain, step) => Laid(x, seed, layer, tree, 0, kp, chain, step, msg)
            case ChainKey(layer, tree, kp) => Laid(x, seed, layer, tree, 1, kp, 0, 0, msg)
            case TreeNode(layer, tree, height, index) => Laid(x, seed, layer, tree, 2, 0, height, index, msg)
            case ForsNode(tree, kp, height, index) => Laid(x, seed, 0, tree, 3, kp, height, index, msg)
            case ForsKey(tree, kp) => Laid(x, seed, 0, tree, 4, kp, 0, 0, msg)
            case ChainSecret(layer, tree, kp, chain) => Laid(x, seed, layer, tree, 5, kp, chain, 0, msg)
            case ForsSecret(tree, kp, index) => Laid(x, seed, 0, tree, 6, kp, 0, index, msg)
  {
    hide InUse, Params.WellFormed, Laid, AHash, Pow2;
    RoleInBounds(p, r);
    x := HashedBytes(hash, seed, AddrOf(r), msg);
  }

  // ---- WOTS+ ---------------------------------------------------------------

  /** Words and positions an address has room for. */
  predicate Room(layer: nat, tree: nat, kp: nat)
  {
    layer < 256 && tree < Pow2(64) && kp < Pow2(32)
  }

  /** wots_skGen: type 5, the chain in word two, the secret seed as the message. */
  lemma ChainSecretInput(hash: Hash, sd: Seeds, layer: nat, tree: nat, kp: nat, i: nat) returns (x: Bytes)
    requires |sd.pkSeed| == 16 && Room(layer, tree, kp) && i < Pow2(32)
    ensures Laid(x, sd.pkSeed, layer, tree, 5, kp, i, 0, sd.skSeed)
    ensures WotsSk(hash, sd, layer, tree, kp, i) == hash(x)[..16]
  {
    hide Laid, AHash, Pow2;
    WordZero();
    x := HashedBytes(hash, sd.pkSeed, Addr(layer, tree, 5, kp, i, 0), sd.skSeed);
  }

  lemma WordZero()
    ensures 0 < Pow2(32)
  {
  }

  /** F: type 0, the chain in word two, the step in word three, the value as the message. */
  lemma ChainStepInput(hash: Hash, seed: Bytes, layer: nat, tree: nat, kp: nat, i: nat, v: Bytes, step: nat) returns (x: Bytes)
    requires |seed| == 16 && Room(layer, tree, kp) && i < Pow2(32) && step < Pow2(32)
    ensures Laid(x, seed, layer, tree, 0, kp, i, step, v)
    ensures Chain(hash, seed, ChainAddr(layer, tree, kp, i), v, step, 1) == hash(x)[..16]
  {
    hide Laid, AHash, Pow2;
    assert Chain(hash, seed, ChainAddr(layer, tree, kp, i), v, step, 0) == v;
    x := HashedBytes(hash, seed, Addr(layer, tree, 0, kp, i, step), v);
  }

  /** T_len in generation: type 1, every chain's end as the message. */
  lemma GeneratedKeyInput(hash: Hash, p: DigitParams, sd: Seeds, layer: nat, tree: nat, kp: nat) returns (x: Bytes)
    requires |sd.pkSeed| == 16 && Room(layer, tree, kp)
    ensures Laid(x, sd.pkSeed, layer, tree, 1, kp, 0, 0, PkEnds(hash, p, sd, layer, tree, kp, p.Len()))
    ensures WotsPkGen(hash, p, sd, layer, tree, kp) == hash(x)[..16]
  {
    hide Laid, AHash, Pow2, PkEnds, Params.Len;
    WordZero();
    x := HashedBytes(hash, sd.pkSeed, Addr(layer, tree, 1, kp, 0, 0), PkEnds(hash, p, sd, layer, tree, kp, p.Len()));
  }

  /** T_len in verification. */
  lemma RecoveredKeyInput(hash: Hash, p: DigitParams, seed: Bytes, layer: nat, tree: nat, kp: nat, sig: seq<Bytes>, m: Bytes)
    returns (x: Bytes)
    requires |seed| == 16 && Room(layer, tree, kp) && |m| == N && p.Len() <= |sig|
    ensures Laid(x, seed, layer, tree, 1, kp, 0, 0, ChainEnds(hash, seed, p, layer, tree, kp, sig, m, p.Len()))
    ensures WotsPkFromSig(hash, seed, p, layer, tree, kp, sig, m) == hash(x)[..16]
  {
    hide Laid, AHash, Pow2, ChainEnds, Params.Len;
    WordZero();
    x := HashedBytes(hash, seed, Addr(layer, tree, 1, kp, 0, 0), ChainEnds(hash, seed, p, layer, tree, kp, sig, m, p.Len()));
  }

  // ---- Merkle trees --------------------------------------------------------

  /** H in an XMSS tree: type 2, word one zero, height and index, left child then right. */
  lemma TreeNodeInput(hash: Hash, seed: Bytes, layer: nat, tree: nat, height: nat, index: nat, left: Bytes, right: Bytes)
    returns (x: Bytes)
    requires |seed| == 16 && Room(layer, tree, index) && height < Pow2(32)
    ensures Laid(x, seed, layer, tree, 2, 0, height, index, left + right)
    ensures XmssJoin(hash, seed, layer, tree)(height, index, left, right) == hash(x)[..16]
  {
    hide Laid, AHash, Pow2;
    WordZero();
    x := HashedBytes(hash, seed, Addr(layer, tree, 2, 0, height, index), left + right);
  }

  /**
   * One level of a verifier's climb: the height and the halved position in words two and three, and bit `height - 1` of the
   * leaf's index ordering the children.
   */
  lemma ClimbInput(hash: Hash, seed: Bytes, a: Addr, pos: nat, idx: nat, leaf: Bytes, auth: seq<Bytes>, height: nat)
    returns (x: Bytes)
    requires |seed| == 16 && a.InBounds() && pos < Pow2(32) && 0 < height <= |auth| && height < Pow2(32)
    ensures var below := PathUp(hash, seed, a, pos, idx, leaf, auth, height - 1);
            && Laid(x, seed, a.layer, a.tree, a.ty, a.w1, height, Shr(pos, height),
                    if Shr(idx, height - 1) % 2 == 0 then below + auth[height - 1] else auth[height - 1] + below)
            && PathUp(hash, seed, a, pos, idx, leaf, auth, height) == hash(x)[..16]
  {
    hide *;
    ShrSteps(pos, height);
    AddrRoom(a, height, Shr(pos, height));
    ClimbStep(hash, seed, a, pos, idx, leaf, auth, height);
    var below := PathUp(hash, seed, a, pos, idx, leaf, auth, height - 1);
    var msg := if Shr(idx, height - 1) % 2 == 0 then below + auth[height - 1] else auth[height - 1] + below;
    x := HashedBytes(hash, seed, a.(w2 := height, w3 := Shr(pos, height)), msg);
  }

  lemma AddrRoom(a: Addr, height: nat, index: nat)
    requires a.InBounds() && height < Pow2(32) && index < Pow2(32)
    ensures a.(w2 := height, w3 := index).InBounds()
  {
    hide Pow2;
  }

  lemma ClimbStep(hash: Hash, seed: Bytes, a: Addr, pos: nat, idx: nat, leaf: Bytes, auth: seq<Bytes>, height: nat)
    requires 0 < height <= |auth|
    ensures var below := PathUp(hash, seed, a, pos, idx, leaf, auth, height - 1);
            PathUp(hash, seed, a, pos, idx, leaf, auth, height)
            == AHash(hash, seed, a.(w2 := height, w3 := Shr(pos, height)),
                     if Shr(idx, height - 1) % 2 == 0 then below + auth[height - 1] else auth[height - 1] + below)
  {
    hide AHash, Shr;
  }

  // ---- FORS ----------------------------------------------------------------

  /** fors_skGen: type 6, the leaf's index across all trees in word three, the secret seed as the message. */
  lemma ForsSecretInput(hash: Hash, sd: Seeds, tree: nat, kp: nat, index: nat) returns (x: Bytes)
    requires |sd.pkSeed| == 16 && Room(0, tree, kp) && index < Pow2(32)
    ensures Laid(x, sd.pkSeed, 0, tree, 6, kp, 0, index, sd.skSeed)
    ensures ForsSk(hash, sd, tree, kp, index) == hash(x)[..16]
  {
    hide Laid, AHash, Pow2;
    WordZero();
    x := HashedBytes(hash, sd.pkSeed, Addr(0, tree, 6, kp, 0, index), sd.skSeed);
  }

  /** A FORS leaf: type 3, height zero, its secret as the message. */
  lemma ForsLeafInput(hash: Hash, p: Params, sd: Seeds, tree: nat, kp: nat, i: nat, local: nat) returns (x: Bytes)
    requires |sd.pkSeed| == 16 && Room(0, tree, kp) && i * Pow2(p.a) + local < Pow2(32)
    ensures Laid(x, sd.pkSeed, 0, tree, 3, kp, 0, i * Pow2(p.a) + local, ForsSk(hash, sd, tree, kp, i * Pow2(p.a) + local))
    ensures ForsLeaf(hash, p, sd, tree, kp, i)(local) == hash(x)[..16]
  {
    hide Laid, AHash, Pow2, ForsSk;
    WordZero();
    var at := i * Pow2(p.a) + local;
    x := HashedBytes(hash, sd.pkSeed, Addr(0, tree, 3, kp, 0, at), ForsSk(hash, sd, tree, kp, at));
  }

  /** A FORS node: type 3, its index across all trees, left child then right. */
  lemma ForsNodeInput(hash: Hash, p: Params, seed: Bytes, tree: nat, kp: nat, i: nat, height: nat, index: nat, left: Bytes,
                      right: Bytes) returns (x: Bytes)
    requires |seed| == 16 && Room(0, tree, kp) && height <= p.a && height < Pow2(32)
    requires i * Pow2(p.a - height) + index < Pow2(32)
    ensures Laid(x, seed, 0, tree, 3, kp, height, i * Pow2(p.a - height) + index, left + right)
    ensures ForsJoin(hash, p, seed, tree, kp, i)(height, index, left, right) == hash(x)[..16]
  {
    hide Laid, AHash, Pow2;
    var at := i * Pow2(p.a - height) + index;
    assert ForsNodeIndex(p, i, height, index) == at;
    x := HashedBytes(hash, seed, Addr(0, tree, 3, kp, height, at), left + right);
  }

  /** T_k: type 4, every tree's root as the message. */
  lemma ForsKeyInput(hash: Hash, p: Params, seed: Bytes, tree: nat, kp: nat, groups: seq<Group>, indices: seq<nat>)
    returns (x: Bytes)
    requires |seed| == 16 && Room(0, tree, kp) && |groups| == |indices|
    ensures Laid(x, seed, 0, tree, 4, kp, 0, 0, ForsRoots(hash, seed, p, tree, kp, groups, indices, |groups|))
    ensures ForsPkFromSig(hash, seed, p, tree, kp, groups, indices) == hash(x)[..16]
  {
    hide Laid, AHash, Pow2, ForsRoots;
    WordZero();
    x := HashedBytes(hash, seed, Addr(0, tree, 4, kp, 0, 0),
                     ForsRoots(hash, seed, p, tree, kp, groups, indices, |groups|));
  }

  // ---- the message ---------------------------------------------------------

  /** H_msg of M' for the empty context: two zero bytes before the message, four after the inner digest. */
  lemma MessageInput(hash: Hash, p: Params, r: Bytes, pk: PublicKey, message: Bytes)
    requires p.m <= 32
    ensures HMsg(hash, p, r, pk, ContextPrefixed(message))
            == hash(r + pk.seed + hash(r + pk.seed + pk.root + ([0, 0] + message)) + [0, 0, 0, 0])[..p.m]
  {
    ToBeZero(4);
    assert Zeros(4) == [0, 0, 0, 0];
  }

  /** What the 128s set reads out of its 30 digest bytes: 21 for FORS, 7 for the tree, 2 for the leaf. */
  lemma SplitOf128s(digest: Bytes)
    requires SHA2_128S.WellFormed() && |digest| == 30
    ensures Md(SHA2_128S, digest) == digest[..21]
    ensures IdxTree(SHA2_128S, digest) == Be(digest[21..28]) % 0x40_0000_0000_0000
    ensures IdxLeaf(SHA2_128S, digest) == Be(digest[28..30]) % 512
  {
    Split128sLengths();
    SplitPowers();
    hide Pow2, Be, Params.WellFormed, Params.MdLen, Params.IdxTreeLen, Params.IdxLeafLen, Params.IdxTreeBits;
    assert digest[28..] == digest[28..30];
  }

  lemma Split128sLengths()
    ensures SHA2_128S.MdLen() == 21 && SHA2_128S.IdxTreeLen() == 7 && SHA2_128S.IdxTreeBits() == 54
    ensures SHA2_128S.hp == 9 && SHA2_128S.m == 30 && SHA2_128S.d > 0
  {
  }

  lemma SplitPowers()
    ensures Pow2(54) == 0x40_0000_0000_0000 && Pow2(9) == 512
  {
    hide Pow2;
    Pow2Table();
    Pow2Eight();
    Pow2Add(8, 1);
    Pow2Add(31, 23);
    Pow2Add(15, 8);
  }
}
