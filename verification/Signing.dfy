/** What the signer computes, and that every signature it produces verifies, for any hash function. */
module Signing {
  import opened Arith
  import opened Bytes
  import opened Lists
  import opened Machine
  import opened Params
  import opened Adrs
  import opened Reference
  import opened Treehash
  import opened SlhVerify
  import opened SignatureBytes

  /** Sets whose digit width divides a byte. */
  type DigitParams = p: Params | p.lgw in {1, 2, 4, 8} witness SHA2_128S

  /** SK.seed, SK.prf, PK.seed. */
  datatype Seeds = Seeds(skSeed: Bytes, skPrf: Bytes, pkSeed: Bytes)

  // ---- WOTS+ ---------------------------------------------------------------

  /** The secret value of one chain. */
  function WotsSk(hash: Hash, sd: Seeds, layer: nat, tree: nat, kp: nat, i: nat): Bytes
  {
    AHash(hash, sd.pkSeed, Addr(layer, tree, WOTS_PRF, kp, i, 0), sd.skSeed)
  }

  /** Every chain run to its end, concatenated. */
  function PkEnds(hash: Hash, p: DigitParams, sd: Seeds, layer: nat, tree: nat, kp: nat, n: nat): Bytes
  {
    if n == 0 then []
    else
      PkEnds(hash, p, sd, layer, tree, kp, n - 1)
      + Chain(hash, sd.pkSeed, ChainAddr(layer, tree, kp, n - 1), WotsSk(hash, sd, layer, tree, kp, n - 1), 0, p.W() - 1)
  }

  /** wots_pkGen: one XMSS leaf. */
  function WotsPkGen(hash: Hash, p: DigitParams, sd: Seeds, layer: nat, tree: nat, kp: nat): (r: Bytes)
    ensures |r| == N
  {
    AHash(hash, sd.pkSeed, Addr(layer, tree, WOTS_PK, kp, 0, 0), PkEnds(hash, p, sd, layer, tree, kp, p.Len()))
  }

  /** The value wots_sign reveals for chain i. */
  function WotsValue(hash: Hash, p: DigitParams, sd: Seeds, m: Bytes, layer: nat, tree: nat, kp: nat, i: nat): Bytes
    requires |m| == N && i < p.Len()
  {
    Chain(hash, sd.pkSeed, ChainAddr(layer, tree, kp, i), WotsSk(hash, sd, layer, tree, kp, i), 0, WotsDigit(p, m, i))
  }

  /** wots_sign. */
  function WotsSign(hash: Hash, p: DigitParams, sd: Seeds, m: Bytes, layer: nat, tree: nat, kp: nat): (r: seq<Bytes>)
    requires |m| == N
    ensures |r| == p.Len()
    ensures forall i :: 0 <= i < p.Len() ==> r[i] == WotsValue(hash, p, sd, m, layer, tree, kp, i)
  {
    seq(p.Len(), i requires 0 <= i < p.Len() && |m| == N => WotsValue(hash, p, sd, m, layer, tree, kp, i))
  }

  /** Running a chain in two stretches is running it once. */
  lemma {:induction false} ChainCompose(hash: Hash, seed: Bytes, a: Addr, x: Bytes, s: nat, t: nat)
    ensures Chain(hash, seed, a, Chain(hash, seed, a, x, 0, s), s, t) == Chain(hash, seed, a, x, 0, s + t)
  {
    hide AHash;
    if t > 0 {
      ChainCompose(hash, seed, a, x, s, t - 1);
    }
  }

  lemma {:induction false} EndsMeet(hash: Hash, p: DigitParams, sd: Seeds, m: Bytes, layer: nat, tree: nat, kp: nat, n: nat)
    requires |m| == N && n <= p.Len()
    ensures ChainEnds(hash, sd.pkSeed, p, layer, tree, kp, WotsSign(hash, p, sd, m, layer, tree, kp), m, n)
            == PkEnds(hash, p, sd, layer, tree, kp, n)
  {
    hide Chain, WotsDigit, WotsSk, WotsSign, Params.Len, Params.W;
    if n > 0 {
      EndsMeet(hash, p, sd, m, layer, tree, kp, n - 1);
      var digit := WotsDigit(p, m, n - 1);
      ChainCompose(hash, sd.pkSeed, ChainAddr(layer, tree, kp, n - 1), WotsSk(hash, sd, layer, tree, kp, n - 1),
                   digit, p.W() - 1 - digit);
    }
  }

  /** Whatever was signed, the recovered key is the generated one. */
  lemma WotsOpens(hash: Hash, p: DigitParams, sd: Seeds, m: Bytes, layer: nat, tree: nat, kp: nat)
    requires |m| == N
    ensures WotsPkFromSig(hash, sd.pkSeed, p, layer, tree, kp, WotsSign(hash, p, sd, m, layer, tree, kp), m)
            == WotsPkGen(hash, p, sd, layer, tree, kp)
  {
    hide ChainEnds, PkEnds, AHash, Params.Len, WotsSign;
    EndsMeet(hash, p, sd, m, layer, tree, kp, p.Len());
  }

  lemma {:induction false} ChainLength(hash: Hash, seed: Bytes, a: Addr, x: Bytes, i: nat, s: nat)
    requires |x| == N
    ensures |Chain(hash, seed, a, x, i, s)| == N
  {
    hide AHash;
  }

  lemma WotsSignSizes(hash: Hash, p: DigitParams, sd: Seeds, m: Bytes, layer: nat, tree: nat, kp: nat)
    requires |m| == N
    ensures ElementSizes(WotsSign(hash, p, sd, m, layer, tree, kp))
  {
    hide Chain, WotsDigit, AHash, Params.Len;
    forall i | 0 <= i < p.Len()
      ensures |WotsValue(hash, p, sd, m, layer, tree, kp, i)| == N
    {
      ChainLength(hash, sd.pkSeed, ChainAddr(layer, tree, kp, i), WotsSk(hash, sd, layer, tree, kp, i), 0,
                  WotsDigit(p, m, i));
    }
  }

  // ---- Merkle trees --------------------------------------------------------

  function XmssLeaf(hash: Hash, p: DigitParams, sd: Seeds, layer: nat, tree: nat): LeafFn
  {
    (i: nat) => WotsPkGen(hash, p, sd, layer, tree, i)
  }

  function XmssJoin(hash: Hash, seed: Bytes, layer: nat, tree: nat): JoinFn
  {
    (height: nat, i: nat, left: Bytes, right: Bytes) => AHash(hash, seed, Addr(layer, tree, TREE, 0, height, i), left + right)
  }

  /** The root of one XMSS tree. */
  function TreeRoot(hash: Hash, p: DigitParams, sd: Seeds, layer: nat, tree: nat): (r: Bytes)
    ensures |r| == N
  {
    TreeLength(XmssLeaf(hash, p, sd, layer, tree), XmssJoin(hash, sd.pkSeed, layer, tree), p.hp, 0);
    Tree(XmssLeaf(hash, p, sd, layer, tree), XmssJoin(hash, sd.pkSeed, layer, tree), p.hp, 0)
  }

  lemma TreeLength(leaf: LeafFn, join: JoinFn, z: nat, i: nat)
    requires forall l: nat :: |leaf(l)| == N
    requires forall h: nat, l: nat, x: Bytes, y: Bytes :: |join(h, l, x, y)| == N
    ensures |Tree(leaf, join, z, i)| == N
  {
  }

  lemma AuthSizes(leaf: LeafFn, join: JoinFn, target: nat, z: nat)
    requires forall l: nat :: |leaf(l)| == N
    requires forall h: nat, l: nat, x: Bytes, y: Bytes :: |join(h, l, x, y)| == N
    ensures ElementSizes(AuthPath(leaf, join, target, z))
  {
    hide Sibling, Shr;
    forall j: nat | j < z
      ensures |Tree(leaf, join, j, Sibling(Shr(target, j)))| == N
    {
      TreeLength(leaf, join, j, Sibling(Shr(target, j)));
    }
  }

  /** The verifier's path step is the tree's join at the addressed node. */
  ghost predicate JoinsAt(hash: Hash, seed: Bytes, a: Addr, pos: nat, idx: nat, join: JoinFn, n: nat)
  {
    forall h: nat, l: Bytes, r: Bytes :: 1 <= h <= n ==>
      join(h, Shr(idx, h), l, r) == AHash(hash, seed, a.(w2 := h, w3 := Shr(pos, h)), l + r)
  }

  lemma {:induction false} PathUpFold(hash: Hash, seed: Bytes, a: Addr, pos: nat, idx: nat, join: JoinFn, leaf: Bytes,
                                      auth: seq<Bytes>, n: nat)
    requires n <= |auth| && JoinsAt(hash, seed, a, pos, idx, join, n)
    ensures PathUp(hash, seed, a, pos, idx, leaf, auth, n) == Fold(join, idx, leaf, auth, n)
  {
    hide AHash, Shr;
    if n > 0 {
      PathUpFold(hash, seed, a, pos, idx, join, leaf, auth, n - 1);
    }
  }

  lemma InTree(idx: nat, z: nat)
    requires idx < Pow2(z)
    ensures Shr(idx, z) == 0
  {
    ModSmall(idx, Pow2(z));
  }

  /** Verifying one layer of an honest signature gives that layer's true root, whatever node was signed. */
  lemma XmssOpens(hash: Hash, p: DigitParams, sd: Seeds, layer: nat, tree: nat, kp: nat, m: Bytes)
    requires |m| == N && kp < Pow2(p.hp)
    ensures XmssPkFromSig(hash, sd.pkSeed, p, layer, tree, kp, WotsSign(hash, p, sd, m, layer, tree, kp),
                          AuthPath(XmssLeaf(hash, p, sd, layer, tree), XmssJoin(hash, sd.pkSeed, layer, tree), kp, p.hp), m)
            == TreeRoot(hash, p, sd, layer, tree)
  {
    hide WotsPkGen, WotsPkFromSig, AHash, Tree, Fold, PathUp, Shr, Pow2, Params.Len, WotsSign, AuthPath;
    var leaf, join := XmssLeaf(hash, p, sd, layer, tree), XmssJoin(hash, sd.pkSeed, layer, tree);
    var a := Addr(layer, tree, TREE, 0, 0, 0);
    WotsOpens(hash, p, sd, m, layer, tree, kp);
    PathUpFold(hash, sd.pkSeed, a, kp, kp, join, leaf(kp), AuthPath(leaf, join, kp, p.hp), p.hp);
    FoldIsTree(leaf, join, kp, p.hp, p.hp);
    InTree(kp, p.hp);
  }

  // ---- FORS ----------------------------------------------------------------

  function ForsSk(hash: Hash, sd: Seeds, tree: nat, kp: nat, index: nat): (r: Bytes)
    ensures |r| == N
  {
    AHash(hash, sd.pkSeed, Addr(0, tree, FORS_PRF, kp, 0, index), sd.skSeed)
  }

  function ForsLeaf(hash: Hash, p: Params, sd: Seeds, tree: nat, kp: nat, i: nat): LeafFn
  {
    (local: nat) =>
      AHash(hash, sd.pkSeed, ForsAddr(tree, kp).(w3 := i * Pow2(p.a) + local),
            ForsSk(hash, sd, tree, kp, i * Pow2(p.a) + local))
  }

  /** Index of a node of FORS tree i at a height, counted across all k trees. */
  function ForsNodeIndex(p: Params, i: nat, height: nat, index: nat): nat
  {
    (if height <= p.a then i * Pow2(p.a - height) else 0) + index
  }

  function ForsJoin(hash: Hash, p: Params, seed: Bytes, tree: nat, kp: nat, i: nat): JoinFn
  {
    (height: nat, index: nat, left: Bytes, right: Bytes) =>
      AHash(hash, seed, ForsAddr(tree, kp).(w2 := height, w3 := ForsNodeIndex(p, i, height, index)), left + right)
  }

  /** The opened secret of tree i and its path. */
  function ForsSign(hash: Hash, p: Params, sd: Seeds, tree: nat, kp: nat, i: nat, idx: nat): Group
  {
    Group(ForsSk(hash, sd, tree, kp, i * Pow2(p.a) + idx),
          AuthPath(ForsLeaf(hash, p, sd, tree, kp, i), ForsJoin(hash, p, sd.pkSeed, tree, kp, i), idx, p.a))
  }

  /** The signer's global node index is the verifier's shifted leaf index, at every height of an opened path. */
  lemma NodeIndexAgrees(p: Params, i: nat, idx: nat, height: nat)
    requires height <= p.a
    ensures ForsNodeIndex(p, i, height, Shr(idx, height)) == Shr(ForsPos(p, i, idx), height)
  {
    Pow2Add(p.a - height, height);
    MulAssoc(i, Pow2(p.a - height), Pow2(height));
    DivAddMul(i * Pow2(p.a - height), Pow2(height), idx);
  }

  /** Whatever leaf is opened, the verifier recovers the tree's true root: PK_FORS does not depend on the message. */
  lemma ForsOpens(hash: Hash, p: Params, sd: Seeds, tree: nat, kp: nat, i: nat, idx: nat)
    requires idx < Pow2(p.a)
    ensures ForsRoot(hash, sd.pkSeed, p, tree, kp, ForsSign(hash, p, sd, tree, kp, i, idx), i, idx)
            == Tree(ForsLeaf(hash, p, sd, tree, kp, i), ForsJoin(hash, p, sd.pkSeed, tree, kp, i), p.a, 0)
  {
    hide AHash, Tree, Fold, PathUp, Shr, Pow2, AuthPath, ForsNodeIndex, ForsSk;
    var leaf, join := ForsLeaf(hash, p, sd, tree, kp, i), ForsJoin(hash, p, sd.pkSeed, tree, kp, i);
    var pos := ForsPos(p, i, idx);
    forall h: nat, l: Bytes, r: Bytes | 1 <= h <= p.a
      ensures join(h, Shr(idx, h), l, r) == AHash(hash, sd.pkSeed, ForsAddr(tree, kp).(w2 := h, w3 := Shr(pos, h)), l + r)
    {
      NodeIndexAgrees(p, i, idx, h);
    }
    PathUpFold(hash, sd.pkSeed, ForsAddr(tree, kp), pos, idx, join, leaf(idx), AuthPath(leaf, join, idx, p.a), p.a);
    FoldIsTree(leaf, join, idx, p.a, p.a);
    InTree(idx, p.a);
  }

  // ---- the whole signature -------------------------------------------------

  /** The FORS roots of an honest signer, whatever the indices. */
  function TrueForsRoots(hash: Hash, p: Params, sd: Seeds, tree: nat, kp: nat, n: nat): Bytes
  {
    if n == 0 then []
    else
      TrueForsRoots(hash, p, sd, tree, kp, n - 1)
      + Tree(ForsLeaf(hash, p, sd, tree, kp, n - 1), ForsJoin(hash, p, sd.pkSeed, tree, kp, n - 1), p.a, 0)
  }

  function ForsGroupsSigned(hash: Hash, p: Params, sd: Seeds, tree: nat, kp: nat, indices: seq<nat>): (r: seq<Group>)
    ensures |r| == |indices|
    ensures forall i :: 0 <= i < |indices| ==> r[i] == ForsSign(hash, p, sd, tree, kp, i, indices[i])
  {
    seq(|indices|, i requires 0 <= i < |indices| => ForsSign(hash, p, sd, tree, kp, i, indices[i]))
  }

  /** One FORS key per hypertree position: its public key is the same for every message. */
  lemma {:induction false} ForsKeyFixed(hash: Hash, p: Params, sd: Seeds, tree: nat, kp: nat, indices: seq<nat>, n: nat)
    requires n <= |indices| && forall i :: 0 <= i < |indices| ==> indices[i] < Pow2(p.a)
    ensures ForsRoots(hash, sd.pkSeed, p, tree, kp, ForsGroupsSigned(hash, p, sd, tree, kp, indices), indices, n)
            == TrueForsRoots(hash, p, sd, tree, kp, n)
  {
    hide ForsRoot, ForsSign, ForsGroupsSigned, Tree, ForsLeaf, ForsJoin, Pow2;
    if n > 0 {
      ForsKeyFixed(hash, p, sd, tree, kp, indices, n - 1);
      ForsOpens(hash, p, sd, tree, kp, n - 1, indices[n - 1]);
    }
  }

  /** The node the signer signs at a layer: PK_FORS, then each layer's true root. */
  function SignedNode(hash: Hash, p: DigitParams, sd: Seeds, idxTree: nat, pkFors: Bytes, layer: nat): (r: Bytes)
    requires |pkFors| == N
    ensures |r| == N
  {
    if layer == 0 then pkFors else TreeRoot(hash, p, sd, layer - 1, LayerTree(p, idxTree, layer - 1))
  }

  /** One hypertree layer of a signature. */
  function LayerSigned(hash: Hash, p: DigitParams, sd: Seeds, idxTree: nat, idxLeaf: nat, pkFors: Bytes, layer: nat): Layer
    requires |pkFors| == N
  {
    var tree, leaf := LayerTree(p, idxTree, layer), LayerLeaf(p, idxTree, idxLeaf, layer);
    Layer(WotsSign(hash, p, sd, SignedNode(hash, p, sd, idxTree, pkFors, layer), layer, tree, leaf),
          AuthPath(XmssLeaf(hash, p, sd, layer, tree), XmssJoin(hash, sd.pkSeed, layer, tree), leaf, p.hp))
  }

  function LayersSigned(hash: Hash, p: DigitParams, sd: Seeds, idxTree: nat, idxLeaf: nat, pkFors: Bytes): (r: seq<Layer>)
    requires |pkFors| == N
    ensures |r| == p.d
    ensures forall j :: 0 <= j < p.d ==> r[j] == LayerSigned(hash, p, sd, idxTree, idxLeaf, pkFors, j)
  {
    seq(p.d, j requires 0 <= j < p.d && |pkFors| == N => LayerSigned(hash, p, sd, idxTree, idxLeaf, pkFors, j))
  }

  lemma LayersSignedFit(hash: Hash, p: DigitParams, sd: Seeds, idxTree: nat, idxLeaf: nat, pkFors: Bytes)
    requires |pkFors| == N
    ensures var ht := LayersSigned(hash, p, sd, idxTree, idxLeaf, pkFors);
            |ht| == p.d && LayersFit(p, ht) && LayersMeasured(ht)
  {
    hide WotsSign, AuthPath, ElementSizes, LayerTree, LayerLeaf, Params.Len, SignedNode;
    forall j: nat | j < p.d
      ensures var l := LayerSigned(hash, p, sd, idxTree, idxLeaf, pkFors, j);
              |l.wots| == p.Len() && |l.auth| == p.hp && ElementSizes(l.wots) && ElementSizes(l.auth)
    {
      var tree, leaf := LayerTree(p, idxTree, j), LayerLeaf(p, idxTree, idxLeaf, j);
      WotsSignSizes(hash, p, sd, SignedNode(hash, p, sd, idxTree, pkFors, j), j, tree, leaf);
      AuthSizes(XmssLeaf(hash, p, sd, j, tree), XmssJoin(hash, sd.pkSeed, j, tree), leaf, p.hp);
    }
  }

  lemma LeafBelow(p: Params, idxTree: nat, idxLeaf: nat, layer: nat)
    requires idxLeaf < Pow2(p.hp)
    ensures LayerLeaf(p, idxTree, idxLeaf, layer) < Pow2(p.hp)
  {
  }

  /** Layer by layer, the verifier's node is the one the signer signed next. */
  lemma {:induction false} HypertreeOpens(hash: Hash, p: DigitParams, sd: Seeds, idxTree: nat, idxLeaf: nat, pkFors: Bytes,
                                          n: nat)
    requires |pkFors| == N && idxLeaf < Pow2(p.hp) && n <= p.d
    requires LayersFit(p, LayersSigned(hash, p, sd, idxTree, idxLeaf, pkFors))
    ensures HtNode(hash, p, sd.pkSeed, LayersSigned(hash, p, sd, idxTree, idxLeaf, pkFors), idxTree, idxLeaf, pkFors, n)
            == SignedNode(hash, p, sd, idxTree, pkFors, n)
  {
    hide LayersFit, LayersSigned, XmssPkFromSig, TreeRoot, WotsSign, AuthPath, LayerTree, LayerLeaf, Pow2, Params.Len;
    if n > 0 {
      HypertreeOpens(hash, p, sd, idxTree, idxLeaf, pkFors, n - 1);
      LeafBelow(p, idxTree, idxLeaf, n - 1);
      XmssOpens(hash, p, sd, n - 1, LayerTree(p, idxTree, n - 1), LayerLeaf(p, idxTree, idxLeaf, n - 1),
                SignedNode(hash, p, sd, idxTree, pkFors, n - 1));
    }
  }

  /** d - 1 shifts by h' bring a tree index to zero: the last layer is the key's one tree. */
  lemma TopTree(p: Params, idxTree: nat)
    requires p.d > 0 && idxTree < Pow2(p.hp * (p.d - 1))
    ensures LayerTree(p, idxTree, p.d - 1) == 0
  {
    InTree(idxTree, p.hp * (p.d - 1));
  }

  /** slh_keygen_internal: the top layer's single tree. */
  function KeyGen(hash: Hash, p: DigitParams, sd: Seeds): PublicKey
    requires p.d > 0
  {
    PublicKey(sd.pkSeed, TreeRoot(hash, p, sd, p.d - 1, 0))
  }

  /** slh_sign_internal for a given randomizer. */
  function SignWith(hash: Hash, p: DigitParams, sd: Seeds, pk: PublicKey, r: Bytes, message: Bytes): Signature
    requires p.WellFormed()
  {
    ShapeFacts(p);
    var digest := HMsg(hash, p, r, pk, ContextPrefixed(message));
    SignDigest(hash, p, sd, r, digest)
  }

  /** The signature once the digest is known. */
  function SignDigest(hash: Hash, p: DigitParams, sd: Seeds, r: Bytes, digest: Bytes): Signature
    requires p.WellFormed() && |digest| == p.m
  {
    var tree, leaf, indices := IdxTree(p, digest), IdxLeaf(p, digest), ForsIndices(p, digest);
    var fors := ForsGroupsSigned(hash, p, sd, tree, leaf, indices);
    var pkFors := ForsPkFromSig(hash, sd.pkSeed, p, tree, leaf, fors, indices);
    Signature(r, fors, LayersSigned(hash, p, sd, tree, leaf, pkFors))
  }

  lemma IndicesBelow(p: Params, digest: Bytes)
    requires p.WellFormed() && |digest| == p.m
    ensures p.d > 0 && p.hp * (p.d - 1) >= 0
    ensures IdxTree(p, digest) < Pow2(p.hp * (p.d - 1)) && IdxLeaf(p, digest) < Pow2(p.hp)
    ensures forall i :: 0 <= i < |ForsIndices(p, digest)| ==> ForsIndices(p, digest)[i] < Pow2(p.a)
  {
    TreeBits(p);
    DigestParts(p);
    hide Pow2, Params.IdxTreeLen, Params.MdLen, Params.IdxLeafLen, Params.WellFormed, Params.IdxTreeBits, Be, Md;
  }

  lemma ForsSignedSizes(hash: Hash, p: Params, sd: Seeds, tree: nat, kp: nat, indices: seq<nat>)
    ensures var groups := ForsGroupsSigned(hash, p, sd, tree, kp, indices);
            forall g :: g in groups ==> |g.sk| == N && |g.auth| == p.a && ElementSizes(g.auth)
  {
    hide ElementSizes, AuthPath, ForsSk, ForsLeaf, ForsJoin;
    forall i | 0 <= i < |indices|
      ensures var g := ForsSign(hash, p, sd, tree, kp, i, indices[i]);
              |g.sk| == N && |g.auth| == p.a && ElementSizes(g.auth)
    {
      ForsAuthSizes(hash, p, sd, tree, kp, i, indices[i]);
    }
  }

  lemma ForsAuthSizes(hash: Hash, p: Params, sd: Seeds, tree: nat, kp: nat, i: nat, idx: nat)
    ensures ElementSizes(ForsSign(hash, p, sd, tree, kp, i, idx).auth)
  {
    hide AHash;
    var leaf, join := ForsLeaf(hash, p, sd, tree, kp, i), ForsJoin(hash, p, sd.pkSeed, tree, kp, i);
    forall l: nat
      ensures |leaf(l)| == N
    {
      var at := i * Pow2(p.a) + l;
      assert leaf(l) == AHash(hash, sd.pkSeed, ForsAddr(tree, kp).(w3 := at), ForsSk(hash, sd, tree, kp, at));
    }
    AuthSizes(leaf, join, idx, p.a);
  }

  lemma SignedFits(hash: Hash, p: DigitParams, sd: Seeds, r: Bytes, digest: Bytes)
    requires p.WellFormed() && |digest| == p.m && |r| == N
    ensures Fits(p, SignDigest(hash, p, sd, r, digest)) && Measured(SignDigest(hash, p, sd, r, digest))
  {
    var tree, leaf, indices := IdxTree(p, digest), IdxLeaf(p, digest), ForsIndices(p, digest);
    hide *;
    var fors := ForsGroupsSigned(hash, p, sd, tree, leaf, indices);
    var pkFors := ForsPkFromSig(hash, sd.pkSeed, p, tree, leaf, fors, indices);
    ForsSignedSizes(hash, p, sd, tree, leaf, indices);
    LayersSignedFit(hash, p, sd, tree, leaf, pkFors);
    FitsFrom(p, r, fors, LayersSigned(hash, p, sd, tree, leaf, pkFors));
    SignDigestIs(hash, p, sd, r, digest);
  }

  lemma FitsFrom(p: DigitParams, r: Bytes, fors: seq<Group>, ht: seq<Layer>)
    requires |r| == N && |fors| == p.k && |ht| == p.d && LayersFit(p, ht) && LayersMeasured(ht)
    requires forall g :: g in fors ==> |g.sk| == N && |g.auth| == p.a && ElementSizes(g.auth)
    ensures Fits(p, Signature(r, fors, ht)) && Measured(Signature(r, fors, ht))
  {
    hide LayersFit, LayersMeasured, ElementSizes;
  }

  lemma SignDigestIs(hash: Hash, p: DigitParams, sd: Seeds, r: Bytes, digest: Bytes)
    requires p.WellFormed() && |digest| == p.m
    ensures var tree, leaf, indices := IdxTree(p, digest), IdxLeaf(p, digest), ForsIndices(p, digest);
            var fors := ForsGroupsSigned(hash, p, sd, tree, leaf, indices);
            |fors| == p.k
            && SignDigest(hash, p, sd, r, digest)
               == Signature(r, fors, LayersSigned(hash, p, sd, tree, leaf,
                                                  ForsPkFromSig(hash, sd.pkSeed, p, tree, leaf, fors, indices)))
  {
    hide Params.WellFormed, IdxTree, IdxLeaf, ForsPkFromSig, LayersSigned, ForsIndices;
  }

  /** The root the verifier recomputes from an honest signature is the generated key's, for every digest. */
  lemma SignedRoot(hash: Hash, p: DigitParams, sd: Seeds, r: Bytes, digest: Bytes)
    requires p.d > 0 && p.WellFormed() && |digest| == p.m && |r| == N
    ensures Fits(p, SignDigest(hash, p, sd, r, digest)) && Measured(SignDigest(hash, p, sd, r, digest))
    ensures RootFromDigest(hash, p, KeyGen(hash, p, sd), SignDigest(hash, p, sd, r, digest), digest)
            == KeyGen(hash, p, sd).root
  {
    var tree, leaf, indices := IdxTree(p, digest), IdxLeaf(p, digest), ForsIndices(p, digest);
    var pkFors := ForsPkFromSig(hash, sd.pkSeed, p, tree, leaf,
                                ForsGroupsSigned(hash, p, sd, tree, leaf, indices), indices);
    hide *;
    SignedFits(hash, p, sd, r, digest);
    LayersSignedFit(hash, p, sd, tree, leaf, pkFors);
    IndicesBelow(p, digest);
    HypertreeOpens(hash, p, sd, tree, leaf, pkFors, p.d);
    TopTree(p, tree);
    TopNode(hash, p, sd, tree, pkFors);
    SignedRootIs(hash, p, sd, KeyGen(hash, p, sd), r, digest);
  }

  lemma TopNode(hash: Hash, p: DigitParams, sd: Seeds, tree: nat, pkFors: Bytes)
    requires p.d > 0 && |pkFors| == N && LayerTree(p, tree, p.d - 1) == 0
    ensures SignedNode(hash, p, sd, tree, pkFors, p.d) == KeyGen(hash, p, sd).root
    ensures KeyGen(hash, p, sd).seed == sd.pkSeed
  {
    hide TreeRoot, LayerTree;
  }

  lemma SignedRootIs(hash: Hash, p: DigitParams, sd: Seeds, pk: PublicKey, r: Bytes, digest: Bytes)
    requires p.d > 0 && p.WellFormed() && |digest| == p.m && pk.seed == sd.pkSeed
    requires Fits(p, SignDigest(hash, p, sd, r, digest))
    ensures var tree, leaf, indices := IdxTree(p, digest), IdxLeaf(p, digest), ForsIndices(p, digest);
            var pkFors := ForsPkFromSig(hash, sd.pkSeed, p, tree, leaf,
                                        ForsGroupsSigned(hash, p, sd, tree, leaf, indices), indices);
            LayersFit(p, LayersSigned(hash, p, sd, tree, leaf, pkFors))
            && RootFromDigest(hash, p, pk, SignDigest(hash, p, sd, r, digest), digest)
               == HtNode(hash, p, sd.pkSeed, LayersSigned(hash, p, sd, tree, leaf, pkFors), tree, leaf, pkFors, p.d)
  {
    hide Params.WellFormed, IdxTree, IdxLeaf, ForsPkFromSig, ForsGroupsSigned, LayersSigned, LayersFit, HtNode, ForsIndices;
    hide ElementSizes, Params.Len;
  }

  /**
   * Completeness. For every seed triple, randomizer, message and hash function, the signature has the wire length, parses
   * back to itself, and verifies under the generated key. One-bit digits are included here; a signer that hashes through
   * the midstate buffer excludes them (`Midstate.LongestMessageFits`).
   */
  lemma SignaturesVerify(hash: Hash, p: DigitParams, sd: Seeds, r: Bytes, message: Bytes)
    requires p.d > 0 && p.WellFormed() && |r| == N
    ensures var pk := KeyGen(hash, p, sd);
            var sig := SignWith(hash, p, sd, pk, r, message);
            && |ToBytes(sig)| == p.SigLen() && FromBytes(p, ToBytes(sig)) == Some(sig)
            && Verifies(hash, p, pk, sig, message)
  {
    hide *;
    ShapeFacts(p);
    var pk := KeyGen(hash, p, sd);
    var digest := HMsg(hash, p, r, pk, ContextPrefixed(message));
    SignedRoot(hash, p, sd, r, digest);
    SignWithIs(hash, p, sd, pk, r, message);
    var sig := SignDigest(hash, p, sd, r, digest);
    FromToBytes(p, sig);
    VerifiesIf(hash, p, pk, sig, message, digest);
  }

  lemma SignWithIs(hash: Hash, p: DigitParams, sd: Seeds, pk: PublicKey, r: Bytes, message: Bytes)
    requires p.WellFormed() && p.m <= 32
    ensures var digest := HMsg(hash, p, r, pk, ContextPrefixed(message));
            SignWith(hash, p, sd, pk, r, message) == SignDigest(hash, p, sd, r, digest)
            && SignDigest(hash, p, sd, r, digest).randomness == r
  {
    hide HMsg, Params.WellFormed;
  }

  lemma VerifiesIf(hash: Hash, p: Params, pk: PublicKey, sig: Signature, message: Bytes, digest: Bytes)
    requires p.WellFormed() && p.m <= 32 && Fits(p, sig)
    requires digest == HMsg(hash, p, sig.randomness, pk, ContextPrefixed(message))
    requires RootFromDigest(hash, p, pk, sig, digest) == pk.root
    ensures Verifies(hash, p, pk, sig, message)
  {
    hide HMsg, Params.WellFormed, Fits, RootFromDigest;
  }
}
