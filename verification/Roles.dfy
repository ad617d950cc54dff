/** Every hash made under one key has an address of its own. */
module Roles {
  import opened Arith
  import opened Params
  import opened Adrs
  import opened HostVerifier

  /** What a hash is for. A FORS leaf is the node of height 0. */
  datatype Role =
    | ChainStep(layer: nat, tree: nat, kp: nat, chain: nat, step: nat)
    | ChainKey(layer: nat, tree: nat, kp: nat)
    | TreeNode(layer: nat, tree: nat, height: nat, index: nat)
    | ForsNode(tree: nat, kp: nat, height: nat, index: nat)
    | ForsKey(tree: nat, kp: nat)
    | ChainSecret(layer: nat, tree: nat, kp: nat, chain: nat)
    | ForsSecret(tree: nat, kp: nat, index: nat)

  function AddrOf(r: Role): Addr
  {
    match r
    case ChainStep(l, t, kp, i, j) => Addr(l, t, WOTS_HASH, kp, i, j)
    case ChainKey(l, t, kp) => Addr(l, t, WOTS_PK, kp, 0, 0)
    case TreeNode(l, t, z, i) => Addr(l, t, TREE, 0, z, i)
    case ForsNode(t, kp, z, i) => Addr(0, t, FORS_TREE, kp, z, i)
    case ForsKey(t, kp) => Addr(0, t, FORS_ROOTS, kp, 0, 0)
    case ChainSecret(l, t, kp, i) => Addr(l, t, WOTS_PRF, kp, i, 0)
    case ForsSecret(t, kp, i) => Addr(0, t, FORS_PRF, kp, 0, i)
  }

  /** The roles a key of this set can take. */
  predicate InUse(p: Params, r: Role)
    requires p.lgw in {1, 2, 4, 8}
  {
    match r
    case ChainStep(l, t, kp, i, j) => l < p.d && t < Pow2(56) && kp < Pow2(p.hp) && i < p.Len() && j < p.W()
    case ChainKey(l, t, kp) => l < p.d && t < Pow2(56) && kp < Pow2(p.hp)
    case TreeNode(l, t, z, i) => l < p.d && t < Pow2(56) && z <= p.hp && i < Pow2(p.hp)
    case ForsNode(t, kp, z, i) => t < Pow2(56) && kp < Pow2(p.hp) && z <= p.a && i < p.k * Pow2(p.a)
    case ForsKey(t, kp) => t < Pow2(56) && kp < Pow2(p.hp)
    case ChainSecret(l, t, kp, i) => l < p.d && t < Pow2(56) && kp < Pow2(p.hp) && i < p.Len()
    case ForsSecret(t, kp, i) => t < Pow2(56) && kp < Pow2(p.hp) && i < p.k * Pow2(p.a)
  }

  /** What bounds every word. */
  lemma WordRoom(p: Params)
    requires p.WellFormed()
    ensures p.lgw in {1, 2, 4, 8} && p.d <= 57 && p.hp <= 31 && p.a <= 30 && p.Len() <= 256 && p.W() <= 256
    ensures Pow2(p.hp) <= Pow2(32) && p.k * Pow2(p.a) <= Pow2(32) && 256 < Pow2(32) && Pow2(56) <= Pow2(64)
  {
    hide *;
    WellFormedForsRoom(p);
    ManyLayers(p);
    ChainRoom(p);
    PowersRoom(p);
  }

  lemma PowersRoom(p: Params)
    requires ForsRoom(p) && p.hp <= 31
    ensures Pow2(p.hp) <= Pow2(32) && p.k * Pow2(p.a) <= Pow2(32) && 256 < Pow2(32) && Pow2(56) <= Pow2(64)
  {
    hide Pow2;
    Pow2Mono(p.hp, 32);
    Pow2Mono(31, 32);
    Pow2Mono(56, 64);
    Pow2Eight();
    Pow2Strict(8, 32);
  }

  lemma RoleInBounds(p: Params, r: Role)
    requires p.WellFormed() && p.lgw in {1, 2, 4, 8} && InUse(p, r)
    ensures AddrOf(r).InBounds()
  {
    hide Params.WellFormed, Params.Len, Params.W, Pow2;
    WordRoom(p);
    assert p.d <= 57 && p.Len() <= 256 && p.W() <= 256;
  }

  lemma AddrOfInjective(r: Role, s: Role)
    requires AddrOf(r) == AddrOf(s)
    ensures r == s
  {
  }

  /** Two hashes under one key with the same 22 address bytes are the same hash. */
  lemma RolesSeparate(p: Params, r: Role, s: Role)
    requires p.WellFormed() && p.lgw in {1, 2, 4, 8} && InUse(p, r) && InUse(p, s)
    requires Encode(AddrOf(r)) == Encode(AddrOf(s))
    ensures r == s
  {
    hide *;
    RoleInBounds(p, r);
    RoleInBounds(p, s);
    EncodeInjective(AddrOf(r), AddrOf(s));
    AddrOfInjective(r, s);
  }
}
