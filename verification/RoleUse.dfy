/**
 * Key generation, signing and verification hash at their roles' addresses and nowhere else: two hash functions that agree
 * there give the same keys, signatures and verdicts.
 */
module RoleUse {
  import opened Arith
  import opened Bytes
  import opened Lists
  import opened Machine
  import opened Params
  import opened Adrs
  import opened Reference
  import opened HostVerifier
  import opened Treehash
  import opened Signing
  import opened Roles

  /** A secret's address goes with one message only, the secret seed; with none at all for who does not have it. */
  predicate Asked(r: Role, x: Bytes, sk: Option<Bytes>)
  {
    r.ChainSecret? || r.ForsSecret? ==> sk == Some(x)
  }

  /** Two hash functions agree on every input at an address in use under a key seed, given what secrets are made from. */
  ghost predicate AgreeAtRoles(h: Hash, g: Hash, p: DigitParams, seed: Bytes, sk: Option<Bytes>)
  {
    forall r: Role, x: Bytes {:trigger Hashed(h, seed, r, x)} ::
      InUse(p, r) && Asked(r, x, sk) ==> Hashed(h, seed, r, x) == Hashed(g, seed, r, x)
  }

  /** The whole digest of one addressed message. */
  function Hashed(h: Hash, seed: Bytes, r: Role, x: Bytes): Bytes { h(HashPad(seed) + Encode(AddrOf(r)) + x) }

  /** Two hash functions agree on both inputs of H_msg. */
  predicate AgreeOnDigest(h: Hash, g: Hash, pk: PublicKey, r: Bytes, message: Bytes)
  {
    var inner := r + pk.seed + pk.root + message;
    h(inner) == g(inner) && h(r + pk.seed + h(inner) + ToBe(0, 4)) == g(r + pk.seed + h(inner) + ToBe(0, 4))
  }

  lemma SameAt(h: Hash, g: Hash, p: DigitParams, seed: Bytes, sk: Option<Bytes>, r: Role, a: Addr, x: Bytes)
    requires AgreeAtRoles(h, g, p, seed, sk) && InUse(p, r) && Asked(r, x, sk) && a == AddrOf(r)
    ensures AHash(h, seed, a, x) == AHash(g, seed, a, x)
  {
    hide InUse, HashPad, Encode, AddrOf;
    assert Hashed(h, seed, r, x) == Hashed(g, seed, r, x);
  }

  // ---- WOTS+ ---------------------------------------------------------------

  /** Layer, tree and key pair a hypertree position can have. */
  predicate Position(p: Params, layer: nat, tree: nat, kp: nat)
  {
    layer < p.d && tree < Pow2(56) && kp < Pow2(p.hp)
  }

  lemma {:induction false} ChainSame(h: Hash, g: Hash, p: DigitParams, seed: Bytes, sk: Option<Bytes>, layer: nat, tree: nat,
                                     kp: nat, c: nat,
                                     x: Bytes, i: nat, s: nat)
    requires AgreeAtRoles(h, g, p, seed, sk) && Position(p, layer, tree, kp) && c < p.Len() && i + s < p.W()
    ensures Chain(h, seed, ChainAddr(layer, tree, kp, c), x, i, s) == Chain(g, seed, ChainAddr(layer, tree, kp, c), x, i, s)
  {
    hide AgreeAtRoles, AHash, Params.Len, Params.W, Pow2;
    if s > 0 {
      ChainSame(h, g, p, seed, sk, layer, tree, kp, c, x, i, s - 1);
      var a := ChainAddr(layer, tree, kp, c);
      SameAt(h, g, p, seed, sk, ChainStep(layer, tree, kp, c, i + s - 1), a.(w3 := i + s - 1), Chain(h, seed, a, x, i, s - 1));
    }
  }

  lemma {:induction false} ChainEndsSame(h: Hash, g: Hash, p: DigitParams, seed: Bytes, sk: Option<Bytes>, layer: nat,
                                         tree: nat, kp: nat,
                                         sig: seq<Bytes>, m: Bytes, n: nat)
    requires AgreeAtRoles(h, g, p, seed, sk) && Position(p, layer, tree, kp) && |m| == N && n <= p.Len() <= |sig|
    ensures ChainEnds(h, seed, p, layer, tree, kp, sig, m, n) == ChainEnds(g, seed, p, layer, tree, kp, sig, m, n)
  {
    hide AgreeAtRoles, Chain, WotsDigit, Params.Len, Params.W, Position;
    if n > 0 {
      ChainEndsSame(h, g, p, seed, sk, layer, tree, kp, sig, m, n - 1);
      var digit := WotsDigit(p, m, n - 1);
      ChainSame(h, g, p, seed, sk, layer, tree, kp, n - 1, sig[n - 1], digit, p.W() - 1 - digit);
    }
  }

  lemma WotsKeySame(h: Hash, g: Hash, p: DigitParams, seed: Bytes, sk: Option<Bytes>, layer: nat, tree: nat, kp: nat,
                    sig: seq<Bytes>, m: Bytes)
    requires AgreeAtRoles(h, g, p, seed, sk) && Position(p, layer, tree, kp) && |m| == N && p.Len() <= |sig|
    ensures WotsPkFromSig(h, seed, p, layer, tree, kp, sig, m) == WotsPkFromSig(g, seed, p, layer, tree, kp, sig, m)
  {
    hide AgreeAtRoles, ChainEnds, AHash, Params.Len, Pow2;
    ChainEndsSame(h, g, p, seed, sk, layer, tree, kp, sig, m, p.Len());
    SameAt(h, g, p, seed, sk, ChainKey(layer, tree, kp), Addr(layer, tree, WOTS_PK, kp, 0, 0),
           ChainEnds(h, seed, p, layer, tree, kp, sig, m, p.Len()));
  }

  lemma SecretSame(h: Hash, g: Hash, p: DigitParams, sd: Seeds, layer: nat, tree: nat, kp: nat, c: nat)
    requires AgreeAtRoles(h, g, p, sd.pkSeed, Some(sd.skSeed)) && Position(p, layer, tree, kp) && c < p.Len()
    ensures WotsSk(h, sd, layer, tree, kp, c) == WotsSk(g, sd, layer, tree, kp, c)
  {
    hide AgreeAtRoles, AHash, Params.Len, Pow2;
    SameAt(h, g, p, sd.pkSeed, Some(sd.skSeed), ChainSecret(layer, tree, kp, c),
           Addr(layer, tree, WOTS_PRF, kp, c, 0), sd.skSeed);
  }

  lemma {:induction false} PkEndsSame(h: Hash, g: Hash, p: DigitParams, sd: Seeds, layer: nat, tree: nat, kp: nat, n: nat)
    requires AgreeAtRoles(h, g, p, sd.pkSeed, Some(sd.skSeed)) && Position(p, layer, tree, kp) && n <= p.Len()
    ensures PkEnds(h, p, sd, layer, tree, kp, n) == PkEnds(g, p, sd, layer, tree, kp, n)
  {
    WideDigits(p);
    hide AgreeAtRoles, Chain, WotsSk, Params.Len, Params.W, Position;
    if n > 0 {
      PkEndsSame(h, g, p, sd, layer, tree, kp, n - 1);
      SecretSame(h, g, p, sd, layer, tree, kp, n - 1);
      ChainSame(h, g, p, sd.pkSeed, Some(sd.skSeed), layer, tree, kp, n - 1, WotsSk(h, sd, layer, tree, kp, n - 1), 0, p.W() - 1);
    }
  }

  lemma WideDigits(p: DigitParams)
    ensures p.W() >= 1
  {
    DigitCounts(p);
  }

  lemma LeafSame(h: Hash, g: Hash, p: DigitParams, sd: Seeds, layer: nat, tree: nat, kp: nat)
    requires AgreeAtRoles(h, g, p, sd.pkSeed, Some(sd.skSeed)) && Position(p, layer, tree, kp)
    ensures WotsPkGen(h, p, sd, layer, tree, kp) == WotsPkGen(g, p, sd, layer, tree, kp)
  {
    hide AgreeAtRoles, PkEnds, AHash, Params.Len, Pow2;
    PkEndsSame(h, g, p, sd, layer, tree, kp, p.Len());
    SameAt(h, g, p, sd.pkSeed, Some(sd.skSeed), ChainKey(layer, tree, kp), Addr(layer, tree, WOTS_PK, kp, 0, 0),
           PkEnds(h, p, sd, layer, tree, kp, p.Len()));
  }

  lemma WotsSignSame(h: Hash, g: Hash, p: DigitParams, sd: Seeds, m: Bytes, layer: nat, tree: nat, kp: nat)
    requires AgreeAtRoles(h, g, p, sd.pkSeed, Some(sd.skSeed)) && Position(p, layer, tree, kp) && |m| == N
    ensures WotsSign(h, p, sd, m, layer, tree, kp) == WotsSign(g, p, sd, m, layer, tree, kp)
  {
    hide AgreeAtRoles, Chain, WotsSk, WotsDigit, Params.Len, Params.W, Position, WotsSign;
    forall i: nat | i < p.Len()
      ensures WotsValue(h, p, sd, m, layer, tree, kp, i) == WotsValue(g, p, sd, m, layer, tree, kp, i)
    {
      SecretSame(h, g, p, sd, layer, tree, kp, i);
      ChainSame(h, g, p, sd.pkSeed, Some(sd.skSeed), layer, tree, kp, i, WotsSk(h, sd, layer, tree, kp, i), 0,
                WotsDigit(p, m, i));
    }
  }

  // ---- Merkle trees --------------------------------------------------------

  /** Joins agree on every node of a tree of the given height. */
  ghost predicate JoinsAgree(a: JoinFn, b: JoinFn, top: nat)
  {
    forall z: nat, i: nat, x: Bytes, y: Bytes :: 1 <= z <= top && i < Pow2(top - z) ==> a(z, i, x, y) == b(z, i, x, y)
  }

  ghost predicate LeavesAgree(a: LeafFn, b: LeafFn, top: nat) { forall i: nat :: i < Pow2(top) ==> a(i) == b(i) }

  lemma {:induction false} TreeSame(la: LeafFn, lb: LeafFn, ja: JoinFn, jb: JoinFn, top: nat, z: nat, i: nat)
    requires LeavesAgree(la, lb, top) && JoinsAgree(ja, jb, top) && z <= top && i < Pow2(top - z)
    ensures Tree(la, ja, z, i) == Tree(lb, jb, z, i)
  {
    if z > 0 {
      assert Pow2(top - (z - 1)) == 2 * Pow2(top - z);
      hide Pow2;
      TreeSame(la, lb, ja, jb, top, z - 1, 2 * i);
      TreeSame(la, lb, ja, jb, top, z - 1, 2 * i + 1);
    }
  }

  lemma PathSame(la: LeafFn, lb: LeafFn, ja: JoinFn, jb: JoinFn, top: nat, target: nat)
    requires LeavesAgree(la, lb, top) && JoinsAgree(ja, jb, top) && target < Pow2(top)
    ensures AuthPath(la, ja, target, top) == AuthPath(lb, jb, target, top)
  {
    hide Pow2, Tree, Sibling, Shr, LeavesAgree, JoinsAgree;
    forall j: nat | j < top
      ensures Tree(la, ja, j, Sibling(Shr(target, j))) == Tree(lb, jb, j, Sibling(Shr(target, j)))
    {
      SiblingInside(target, top, j);
      TreeSame(la, lb, ja, jb, top, j, Sibling(Shr(target, j)));
    }
  }

  lemma SiblingInside(target: nat, top: nat, j: nat)
    requires target < Pow2(top) && j < top
    ensures Sibling(Shr(target, j)) < Pow2(top - j)
  {
    Pow2Add(j, top - j);
    assert Shr(target, j) == target / Pow2(j);
    DivLess(target, Pow2(j), Pow2(top - j));
    hide Pow2, Shr, Sibling;
    SiblingBelow(Shr(target, j), top - j);
  }

  /** The verifier's climb: the same addressed hash at every level. */
  lemma {:induction false} PathUpSame(h: Hash, g: Hash, seed: Bytes, a: Addr, pos: nat, idx: nat, leaf: Bytes,
                                      auth: seq<Bytes>, n: nat)
    requires n <= |auth|
    requires forall j: nat, x: Bytes {:trigger AHash(h, seed, a.(w2 := j, w3 := Shr(pos, j)), x)} :: 1 <= j <= n ==>
               AHash(h, seed, a.(w2 := j, w3 := Shr(pos, j)), x) == AHash(g, seed, a.(w2 := j, w3 := Shr(pos, j)), x)
    ensures PathUp(h, seed, a, pos, idx, leaf, auth, n) == PathUp(g, seed, a, pos, idx, leaf, auth, n)
  {
    hide AHash, Shr;
    if n > 0 {
      PathUpSame(h, g, seed, a, pos, idx, leaf, auth, n - 1);
    }
  }

  lemma Smaller(index: nat, all: nat, z: nat)
    requires z <= all && index < Pow2(all - z)
    ensures index < Pow2(all)
  {
    hide Pow2;
    Pow2Mono(all - z, all);
  }

  // ---- XMSS ----------------------------------------------------------------

  lemma XmssFnsSame(h: Hash, g: Hash, p: DigitParams, sd: Seeds, layer: nat, tree: nat)
    requires AgreeAtRoles(h, g, p, sd.pkSeed, Some(sd.skSeed)) && layer < p.d && tree < Pow2(56)
    ensures LeavesAgree(XmssLeaf(h, p, sd, layer, tree), XmssLeaf(g, p, sd, layer, tree), p.hp)
    ensures JoinsAgree(XmssJoin(h, sd.pkSeed, layer, tree), XmssJoin(g, sd.pkSeed, layer, tree), p.hp)
  {
    hide AgreeAtRoles, AHash, WotsPkGen, Pow2, Params.Len, Params.W;
    forall i: nat | i < Pow2(p.hp)
      ensures WotsPkGen(h, p, sd, layer, tree, i) == WotsPkGen(g, p, sd, layer, tree, i)
    {
      LeafSame(h, g, p, sd, layer, tree, i);
    }
    forall z: nat, i: nat, x: Bytes, y: Bytes | 1 <= z <= p.hp && i < Pow2(p.hp - z)
      ensures XmssJoin(h, sd.pkSeed, layer, tree)(z, i, x, y) == XmssJoin(g, sd.pkSeed, layer, tree)(z, i, x, y)
    {
      Smaller(i, p.hp, z);
      SameAt(h, g, p, sd.pkSeed, Some(sd.skSeed), TreeNode(layer, tree, z, i), Addr(layer, tree, TREE, 0, z, i), x + y);
    }
  }

  lemma TreeRootSame(h: Hash, g: Hash, p: DigitParams, sd: Seeds, layer: nat, tree: nat)
    requires AgreeAtRoles(h, g, p, sd.pkSeed, Some(sd.skSeed)) && layer < p.d && tree < Pow2(56)
    ensures TreeRoot(h, p, sd, layer, tree) == TreeRoot(g, p, sd, layer, tree)
  {
    hide AgreeAtRoles, XmssLeaf, XmssJoin, Tree, LeavesAgree, JoinsAgree;
    XmssFnsSame(h, g, p, sd, layer, tree);
    assert 0 < Pow2(p.hp - p.hp);
    TreeSame(XmssLeaf(h, p, sd, layer, tree), XmssLeaf(g, p, sd, layer, tree), XmssJoin(h, sd.pkSeed, layer, tree),
             XmssJoin(g, sd.pkSeed, layer, tree), p.hp, p.hp, 0);
    RootIsTree(h, p, sd, layer, tree);
    RootIsTree(g, p, sd, layer, tree);
  }

  lemma RootIsTree(h: Hash, p: DigitParams, sd: Seeds, layer: nat, tree: nat)
    ensures TreeRoot(h, p, sd, layer, tree)
            == Tree(XmssLeaf(h, p, sd, layer, tree), XmssJoin(h, sd.pkSeed, layer, tree), p.hp, 0)
  {
    hide Tree, XmssLeaf, XmssJoin;
  }

  lemma XmssSame(h: Hash, g: Hash, p: DigitParams, seed: Bytes, sk: Option<Bytes>, layer: nat, tree: nat, idx: nat,
                 wots: seq<Bytes>,
                 auth: seq<Bytes>, m: Bytes)
    requires AgreeAtRoles(h, g, p, seed, sk) && Position(p, layer, tree, idx)
    requires |m| == N && p.Len() <= |wots| && |auth| <= p.hp
    ensures XmssPkFromSig(h, seed, p, layer, tree, idx, wots, auth, m)
            == XmssPkFromSig(g, seed, p, layer, tree, idx, wots, auth, m)
  {
    hide AgreeAtRoles, AHash, WotsPkFromSig, PathUp, Pow2, Shr, Params.Len, Params.W;
    WotsKeySame(h, g, p, seed, sk, layer, tree, idx, wots, m);
    var a := Addr(layer, tree, TREE, 0, 0, 0);
    forall j: nat, x: Bytes | 1 <= j <= |auth|
      ensures AHash(h, seed, a.(w2 := j, w3 := Shr(idx, j)), x) == AHash(g, seed, a.(w2 := j, w3 := Shr(idx, j)), x)
    {
      ShrSteps(idx, j);
      SameAt(h, g, p, seed, sk, TreeNode(layer, tree, j, Shr(idx, j)), a.(w2 := j, w3 := Shr(idx, j)), x);
    }
    PathUpSame(h, g, seed, a, idx, idx, WotsPkFromSig(h, seed, p, layer, tree, idx, wots, m), auth, |auth|);
  }

  // ---- FORS ----------------------------------------------------------------

  lemma ForsLeafRoom(p: Params, i: nat, local: nat)
    requires i < p.k && local < Pow2(p.a)
    ensures i * Pow2(p.a) + local < p.k * Pow2(p.a)
  {
    hide Pow2;
    RecordFits(i, p.k, Pow2(p.a));
  }

  lemma ForsNodeRoom(p: Params, i: nat, z: nat, index: nat)
    requires i < p.k && z <= p.a && index < Pow2(p.a - z)
    ensures ForsNodeIndex(p, i, z, index) < p.k * Pow2(p.a)
  {
    hide Pow2;
    RecordFits(i, p.k, Pow2(p.a - z));
    Pow2Mono(p.a - z, p.a);
    MulMono(Pow2(p.a - z), Pow2(p.a), p.k);
  }

  lemma ForsFnsSame(h: Hash, g: Hash, p: DigitParams, sd: Seeds, tree: nat, kp: nat, i: nat)
    requires AgreeAtRoles(h, g, p, sd.pkSeed, Some(sd.skSeed)) && tree < Pow2(56) && kp < Pow2(p.hp) && i < p.k
    ensures LeavesAgree(ForsLeaf(h, p, sd, tree, kp, i), ForsLeaf(g, p, sd, tree, kp, i), p.a)
    ensures JoinsAgree(ForsJoin(h, p, sd.pkSeed, tree, kp, i), ForsJoin(g, p, sd.pkSeed, tree, kp, i), p.a)
  {
    hide AgreeAtRoles, AHash, Pow2, Params.Len, Params.W, ForsNodeIndex, ForsSk;
    forall local: nat | local < Pow2(p.a)
      ensures ForsLeaf(h, p, sd, tree, kp, i)(local) == ForsLeaf(g, p, sd, tree, kp, i)(local)
    {
      var at := i * Pow2(p.a) + local;
      ForsLeafRoom(p, i, local);
      ForsSecretSame(h, g, p, sd, tree, kp, at);
      SameAt(h, g, p, sd.pkSeed, Some(sd.skSeed), ForsNode(tree, kp, 0, at), ForsAddr(tree, kp).(w3 := at),
             ForsSk(h, sd, tree, kp, at));
      LeafAt(h, p, sd, tree, kp, i, local, at);
      LeafAt(g, p, sd, tree, kp, i, local, at);
    }
    forall z: nat, index: nat, x: Bytes, y: Bytes | 1 <= z <= p.a && index < Pow2(p.a - z)
      ensures ForsJoin(h, p, sd.pkSeed, tree, kp, i)(z, index, x, y) == ForsJoin(g, p, sd.pkSeed, tree, kp, i)(z, index, x, y)
    {
      var at := ForsNodeIndex(p, i, z, index);
      ForsNodeRoom(p, i, z, index);
      SameAt(h, g, p, sd.pkSeed, Some(sd.skSeed), ForsNode(tree, kp, z, at), ForsAddr(tree, kp).(w2 := z, w3 := at), x + y);
    }
  }

  lemma LeafAt(h: Hash, p: DigitParams, sd: Seeds, tree: nat, kp: nat, i: nat, local: nat, at: nat)
    requires at == i * Pow2(p.a) + local
    ensures ForsLeaf(h, p, sd, tree, kp, i)(local)
            == AHash(h, sd.pkSeed, ForsAddr(tree, kp).(w3 := at), ForsSk(h, sd, tree, kp, at))
  {
    hide AHash, ForsSk, Pow2;
  }

  lemma ForsSecretSame(h: Hash, g: Hash, p: DigitParams, sd: Seeds, tree: nat, kp: nat, at: nat)
    requires AgreeAtRoles(h, g, p, sd.pkSeed, Some(sd.skSeed)) && tree < Pow2(56) && kp < Pow2(p.hp) && at < p.k * Pow2(p.a)
    ensures ForsSk(h, sd, tree, kp, at) == ForsSk(g, sd, tree, kp, at)
  {
    hide AgreeAtRoles, AHash, Pow2;
    SameAt(h, g, p, sd.pkSeed, Some(sd.skSeed), ForsSecret(tree, kp, at), Addr(0, tree, FORS_PRF, kp, 0, at), sd.skSeed);
  }

  lemma ForsSignSame(h: Hash, g: Hash, p: DigitParams, sd: Seeds, tree: nat, kp: nat, i: nat, idx: nat)
    requires AgreeAtRoles(h, g, p, sd.pkSeed, Some(sd.skSeed)) && tree < Pow2(56) && kp < Pow2(p.hp) && i < p.k && idx < Pow2(p.a)
    ensures ForsSign(h, p, sd, tree, kp, i, idx) == ForsSign(g, p, sd, tree, kp, i, idx)
  {
    hide AgreeAtRoles, AHash, Pow2, ForsLeaf, ForsJoin, AuthPath, LeavesAgree, JoinsAgree, ForsSk;
    ForsLeafRoom(p, i, idx);
    ForsSecretSame(h, g, p, sd, tree, kp, i * Pow2(p.a) + idx);
    ForsFnsSame(h, g, p, sd, tree, kp, i);
    PathSame(ForsLeaf(h, p, sd, tree, kp, i), ForsLeaf(g, p, sd, tree, kp, i), ForsJoin(h, p, sd.pkSeed, tree, kp, i),
             ForsJoin(g, p, sd.pkSeed, tree, kp, i), p.a, idx);
  }

  lemma ForsRootSame(h: Hash, g: Hash, p: DigitParams, seed: Bytes, sk: Option<Bytes>, tree: nat, kp: nat, group: Group,
                     i: nat, idx: nat)
    requires AgreeAtRoles(h, g, p, seed, sk) && tree < Pow2(56) && kp < Pow2(p.hp) && i < p.k && idx < Pow2(p.a)
    requires |group.auth| <= p.a
    ensures ForsRoot(h, seed, p, tree, kp, group, i, idx) == ForsRoot(g, seed, p, tree, kp, group, i, idx)
  {
    hide AgreeAtRoles, AHash, PathUp, Pow2, Shr, Params.Len, Params.W;
    var a, pos := ForsAddr(tree, kp), ForsPos(p, i, idx);
    ForsLeafRoom(p, i, idx);
    SameAt(h, g, p, seed, sk, ForsNode(tree, kp, 0, pos), a.(w3 := pos), group.sk);
    forall j: nat, x: Bytes | 1 <= j <= |group.auth|
      ensures AHash(h, seed, a.(w2 := j, w3 := Shr(pos, j)), x) == AHash(g, seed, a.(w2 := j, w3 := Shr(pos, j)), x)
    {
      ShrSteps(pos, j);
      SameAt(h, g, p, seed, sk, ForsNode(tree, kp, j, Shr(pos, j)), a.(w2 := j, w3 := Shr(pos, j)), x);
    }
    PathUpSame(h, g, seed, a, pos, idx, AHash(h, seed, a.(w3 := pos), group.sk), group.auth, |group.auth|);
  }

  lemma {:induction false} ForsRootsSame(h: Hash, g: Hash, p: DigitParams, seed: Bytes, sk: Option<Bytes>, tree: nat, kp: nat,
                                         groups: seq<Group>, indices: seq<nat>, n: nat)
    requires AgreeAtRoles(h, g, p, seed, sk) && tree < Pow2(56) && kp < Pow2(p.hp) && n <= p.k
    requires n <= |groups| && n <= |indices|
    requires forall i: nat :: i < n ==> |groups[i].auth| <= p.a && indices[i] < Pow2(p.a)
    ensures ForsRoots(h, seed, p, tree, kp, groups, indices, n) == ForsRoots(g, seed, p, tree, kp, groups, indices, n)
  {
    hide AgreeAtRoles, ForsRoot, Pow2;
    if n > 0 {
      ForsRootsSame(h, g, p, seed, sk, tree, kp, groups, indices, n - 1);
      ForsRootSame(h, g, p, seed, sk, tree, kp, groups[n - 1], n - 1, indices[n - 1]);
    }
  }

  lemma ForsKeySame(h: Hash, g: Hash, p: DigitParams, seed: Bytes, sk: Option<Bytes>, tree: nat, kp: nat, groups: seq<Group>,
                    indices: seq<nat>)
    requires AgreeAtRoles(h, g, p, seed, sk) && tree < Pow2(56) && kp < Pow2(p.hp) && |groups| == |indices| <= p.k
    requires forall i: nat :: i < |groups| ==> |groups[i].auth| <= p.a && indices[i] < Pow2(p.a)
    ensures ForsPkFromSig(h, seed, p, tree, kp, groups, indices) == ForsPkFromSig(g, seed, p, tree, kp, groups, indices)
  {
    hide AgreeAtRoles, ForsRoots, AHash, Pow2;
    ForsRootsSame(h, g, p, seed, sk, tree, kp, groups, indices, |groups|);
    SameAt(h, g, p, seed, sk, ForsKey(tree, kp), Addr(0, tree, FORS_ROOTS, kp, 0, 0),
           ForsRoots(h, seed, p, tree, kp, groups, indices, |groups|));
  }

  // ---- the hypertree -------------------------------------------------------

  /** Positions a tree index of the right size visits. */
  lemma LayerPosition(p: Params, idxTree: nat, idxLeaf: nat, layer: nat)
    requires idxTree < Pow2(56) && idxLeaf < Pow2(p.hp) && layer < p.d
    ensures Position(p, layer, LayerTree(p, idxTree, layer), LayerLeaf(p, idxTree, idxLeaf, layer))
  {
    hide Pow2, Shr, LayerLeaf;
    ShrSteps(idxTree, p.hp * layer);
    LeafBelow(p, idxTree, idxLeaf, layer);
  }

  lemma {:induction false} HtNodeSame(h: Hash, g: Hash, p: DigitParams, seed: Bytes, sk: Option<Bytes>, ht: seq<Layer>,
                                      idxTree: nat,
                                      idxLeaf: nat, pkFors: Bytes, n: nat)
    requires AgreeAtRoles(h, g, p, seed, sk) && LayersFit(p, ht) && |pkFors| == N && n <= |ht| <= p.d
    requires idxTree < Pow2(56) && idxLeaf < Pow2(p.hp)
    ensures HtNode(h, p, seed, ht, idxTree, idxLeaf, pkFors, n) == HtNode(g, p, seed, ht, idxTree, idxLeaf, pkFors, n)
  {
    hide AgreeAtRoles, XmssPkFromSig, LayerTree, LayerLeaf, Pow2, Params.Len, Position;
    if n > 0 {
      HtNodeSame(h, g, p, seed, sk, ht, idxTree, idxLeaf, pkFors, n - 1);
      LayerPosition(p, idxTree, idxLeaf, n - 1);
      XmssSame(h, g, p, seed, sk, n - 1, LayerTree(p, idxTree, n - 1), LayerLeaf(p, idxTree, idxLeaf, n - 1), ht[n - 1].wots,
               ht[n - 1].auth, HtNode(h, p, seed, ht, idxTree, idxLeaf, pkFors, n - 1));
    }
  }

  lemma SignedNodeSame(h: Hash, g: Hash, p: DigitParams, sd: Seeds, idxTree: nat, idxLeaf: nat, pkFors: Bytes, layer: nat)
    requires AgreeAtRoles(h, g, p, sd.pkSeed, Some(sd.skSeed)) && |pkFors| == N && layer < p.d && idxTree < Pow2(56)
    requires idxLeaf < Pow2(p.hp)
    ensures SignedNode(h, p, sd, idxTree, pkFors, layer) == SignedNode(g, p, sd, idxTree, pkFors, layer)
  {
    hide AgreeAtRoles, LayerTree, LayerLeaf, Pow2, TreeRoot;
    if layer > 0 {
      LayerPosition(p, idxTree, idxLeaf, layer - 1);
      TreeRootSame(h, g, p, sd, layer - 1, LayerTree(p, idxTree, layer - 1));
    }
  }

  lemma LayerSignedSame(h: Hash, g: Hash, p: DigitParams, sd: Seeds, idxTree: nat, idxLeaf: nat, pkFors: Bytes, layer: nat)
    requires AgreeAtRoles(h, g, p, sd.pkSeed, Some(sd.skSeed)) && |pkFors| == N && layer < p.d && idxTree < Pow2(56)
    requires idxLeaf < Pow2(p.hp)
    ensures LayerSigned(h, p, sd, idxTree, idxLeaf, pkFors, layer) == LayerSigned(g, p, sd, idxTree, idxLeaf, pkFors, layer)
  {
    SignedNodeSame(h, g, p, sd, idxTree, idxLeaf, pkFors, layer);
    LayerPosition(p, idxTree, idxLeaf, layer);
    hide AgreeAtRoles, WotsSign, AuthPath, XmssLeaf, XmssJoin, LayerTree, LayerLeaf, Pow2, SignedNode, LeavesAgree, JoinsAgree;
    var tree, leaf := LayerTree(p, idxTree, layer), LayerLeaf(p, idxTree, idxLeaf, layer);
    WotsSignSame(h, g, p, sd, SignedNode(h, p, sd, idxTree, pkFors, layer), layer, tree, leaf);
    XmssFnsSame(h, g, p, sd, layer, tree);
    PathSame(XmssLeaf(h, p, sd, layer, tree), XmssLeaf(g, p, sd, layer, tree), XmssJoin(h, sd.pkSeed, layer, tree),
             XmssJoin(g, sd.pkSeed, layer, tree), p.hp, leaf);
  }

  lemma LayersSignedSame(h: Hash, g: Hash, p: DigitParams, sd: Seeds, idxTree: nat, idxLeaf: nat, pkFors: Bytes)
    requires AgreeAtRoles(h, g, p, sd.pkSeed, Some(sd.skSeed)) && |pkFors| == N && idxTree < Pow2(56) && idxLeaf < Pow2(p.hp)
    ensures LayersSigned(h, p, sd, idxTree, idxLeaf, pkFors) == LayersSigned(g, p, sd, idxTree, idxLeaf, pkFors)
  {
    hide AgreeAtRoles, LayerSigned, Pow2, LayersSigned;
    forall j: nat | j < p.d
      ensures LayerSigned(h, p, sd, idxTree, idxLeaf, pkFors, j) == LayerSigned(g, p, sd, idxTree, idxLeaf, pkFors, j)
    {
      LayerSignedSame(h, g, p, sd, idxTree, idxLeaf, pkFors, j);
    }
  }

  lemma ForsGroupsSame(h: Hash, g: Hash, p: DigitParams, sd: Seeds, tree: nat, kp: nat, indices: seq<nat>)
    requires AgreeAtRoles(h, g, p, sd.pkSeed, Some(sd.skSeed)) && tree < Pow2(56) && kp < Pow2(p.hp) && |indices| <= p.k
    requires forall i :: 0 <= i < |indices| ==> indices[i] < Pow2(p.a)
    ensures ForsGroupsSigned(h, p, sd, tree, kp, indices) == ForsGroupsSigned(g, p, sd, tree, kp, indices)
  {
    hide AgreeAtRoles, ForsSign, Pow2, ForsGroupsSigned;
    forall i: nat | i < |indices|
      ensures ForsSign(h, p, sd, tree, kp, i, indices[i]) == ForsSign(g, p, sd, tree, kp, i, indices[i])
    {
      ForsSignSame(h, g, p, sd, tree, kp, i, indices[i]);
    }
  }

  /** A digest's position fits every role. */
  lemma DigestPosition(p: DigitParams, digest: Bytes)
    requires p.WellFormed() && |digest| == p.m
    ensures p.d > 0 && IdxTree(p, digest) < Pow2(56) && IdxLeaf(p, digest) < Pow2(p.hp)
  {
    hide *;
    IndicesBelow(p, digest);
    TreeBits(p);
    Pow2Mono(p.hp * (p.d - 1), 56);
  }

  lemma SignDigestSame(h: Hash, g: Hash, p: DigitParams, sd: Seeds, r: Bytes, digest: Bytes)
    requires p.WellFormed() && |digest| == p.m && AgreeAtRoles(h, g, p, sd.pkSeed, Some(sd.skSeed))
    ensures SignDigest(h, p, sd, r, digest) == SignDigest(g, p, sd, r, digest)
  {
    hide AgreeAtRoles, Params.WellFormed, ForsGroupsSigned, ForsPkFromSig, LayersSigned, IdxTree, IdxLeaf, ForsIndices, Pow2;
    hide ElementSizes;
    DigestPosition(p, digest);
    IndicesBelow(p, digest);
    var tree, leaf, indices := IdxTree(p, digest), IdxLeaf(p, digest), ForsIndices(p, digest);
    ForsGroupsSame(h, g, p, sd, tree, leaf, indices);
    var groups := ForsGroupsSigned(h, p, sd, tree, leaf, indices);
    ForsSignedSizes(h, p, sd, tree, leaf, indices);
    assert forall i: nat :: i < |groups| ==> groups[i] in groups;
    ForsKeySame(h, g, p, sd.pkSeed, Some(sd.skSeed), tree, leaf, groups, indices);
    LayersSignedSame(h, g, p, sd, tree, leaf, ForsPkFromSig(h, sd.pkSeed, p, tree, leaf, groups, indices));
  }

  lemma RootSame(h: Hash, g: Hash, p: DigitParams, pk: PublicKey, sig: Signature, digest: Bytes)
    requires p.WellFormed() && Fits(p, sig) && |digest| == p.m && AgreeAtRoles(h, g, p, pk.seed, None)
    ensures RootFromDigest(h, p, pk, sig, digest) == RootFromDigest(g, p, pk, sig, digest)
  {
    DigestPosition(p, digest);
    IndicesBelow(p, digest);
    hide AgreeAtRoles, Params.WellFormed, ForsPkFromSig, HtNode, IdxTree, IdxLeaf, ForsIndices, Pow2, LayersFit, ElementSizes;
    var tree, leaf, indices := IdxTree(p, digest), IdxLeaf(p, digest), ForsIndices(p, digest);
    assert forall i: nat :: i < |sig.fors| ==> sig.fors[i] in sig.fors;
    ForsKeySame(h, g, p, pk.seed, None, tree, leaf, sig.fors, indices);
    HtNodeSame(h, g, p, pk.seed, None, sig.ht, tree, leaf, ForsPkFromSig(h, pk.seed, p, tree, leaf, sig.fors, indices), |sig.ht|);
  }

  lemma DigestSame(h: Hash, g: Hash, p: Params, pk: PublicKey, r: Bytes, message: Bytes)
    requires p.m <= 32 && AgreeOnDigest(h, g, pk, r, message)
    ensures HMsg(h, p, r, pk, message) == HMsg(g, p, r, pk, message)
  {
  }

  // ---- every hash of one key -----------------------------------------------

  /** Key generation hashes at roles in use only, and at the secrets' addresses the secret seed only. */
  lemma KeyGenHashesAtRoles(h: Hash, g: Hash, p: DigitParams, sd: Seeds)
    requires p.d > 0 && AgreeAtRoles(h, g, p, sd.pkSeed, Some(sd.skSeed))
    ensures KeyGen(h, p, sd) == KeyGen(g, p, sd)
  {
    hide AgreeAtRoles, TreeRoot;
    TreeRootSame(h, g, p, sd, p.d - 1, 0);
  }

  /** Signing hashes the two inputs of H_msg, and otherwise what key generation may hash. */
  lemma SigningHashesAtRoles(h: Hash, g: Hash, p: DigitParams, sd: Seeds, pk: PublicKey, r: Bytes, message: Bytes)
    requires p.WellFormed() && AgreeAtRoles(h, g, p, sd.pkSeed, Some(sd.skSeed))
    requires AgreeOnDigest(h, g, pk, r, ContextPrefixed(message))
    ensures SignWith(h, p, sd, pk, r, message) == SignWith(g, p, sd, pk, r, message)
  {
    hide *;
    ShapeFacts(p);
    DigestSame(h, g, p, pk, r, ContextPrefixed(message));
    SignWithIs(h, p, sd, pk, r, message);
    SignWithIs(g, p, sd, pk, r, message);
    SignDigestSame(h, g, p, sd, r, HMsg(h, p, r, pk, ContextPrefixed(message)));
  }

  /** Verification of any signature of the set's shape hashes the two inputs of H_msg, and otherwise at roles of no secret. */
  lemma VerifyingHashesAtRoles(h: Hash, g: Hash, p: DigitParams, pk: PublicKey, sig: Signature, message: Bytes)
    requires p.WellFormed() && Fits(p, sig) && AgreeAtRoles(h, g, p, pk.seed, None)
    requires AgreeOnDigest(h, g, pk, sig.randomness, ContextPrefixed(message))
    ensures CandidateRoot(h, p, pk, sig, message) == CandidateRoot(g, p, pk, sig, message)
  {
    hide *;
    ShapeFacts(p);
    DigestSame(h, g, p, pk, sig.randomness, ContextPrefixed(message));
    CandidateIs(h, p, pk, sig, message);
    CandidateIs(g, p, pk, sig, message);
    RootSame(h, g, p, pk, sig, HMsg(h, p, sig.randomness, pk, ContextPrefixed(message)));
  }

  lemma CandidateIs(h: Hash, p: Params, pk: PublicKey, sig: Signature, message: Bytes)
    requires p.WellFormed() && p.m <= 32 && Fits(p, sig)
    ensures CandidateRoot(h, p, pk, sig, message)
            == RootFromDigest(h, p, pk, sig, HMsg(h, p, sig.randomness, pk, ContextPrefixed(message)))
  {
    hide HMsg, RootFromDigest, Params.WellFormed, Fits;
  }
}
