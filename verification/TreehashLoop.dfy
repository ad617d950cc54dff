/** The streaming pass itself, over leaves and nodes that the signer's midstate computes. */
module TreehashLoop {
  import opened Arith
  import opened Bytes
  import opened Params
  import opened Adrs
  import opened Reference
  import opened HostVerifier
  import opened Treehash
  import opened Signing
  import opened KeyHashing

  /**
   * The pair of closures a pass is given, as what they capture: a cached leaf layer, one FORS tree, or any two functions.
   */
  datatype TreeFns =
    | OverCache(key: Hasher, layer: nat, tree: nat, leaves: seq<Bytes>)
    | OverFors(key: Hasher, tree: nat, kp: nat, i: nat)
    | OverFunctions(anyLeaf: LeafFn, anyJoin: JoinFn)
  {
    /** What the two compute. */
    ghost function Leaf(): LeafFn
    {
      match this
      case OverCache(key, layer, tree, _) => XmssLeaf(key.hash, key.p, key.seeds, layer, tree)
      case OverFors(key, tree, kp, i) => ForsLeaf(key.hash, key.p, key.seeds, tree, kp, i)
      case OverFunctions(leaf, _) => leaf
    }

    ghost function Join(): JoinFn
    {
      match this
      case OverCache(key, layer, tree, _) => XmssJoin(key.hash, key.seeds.pkSeed, layer, tree)
      case OverFors(key, tree, kp, i) => ForsJoin(key.hash, key.p, key.seeds.pkSeed, tree, kp, i)
      case OverFunctions(_, join) => join
    }

    /** The tree of height z is one whose addresses have room, and a cache holds its leaves. */
    ghost predicate Fits(z: nat)
    {
      match this
      case OverCache(key, layer, tree, leaves) =>
        && key.Valid() && z <= 31 && layer < 256 && tree < Pow2(64) && |leaves| == Pow2(z)
        && forall l: nat :: l < |leaves| ==> leaves[l] == Leaf()(l)
      case OverFors(key, tree, kp, i) =>
        key.Valid() && z == key.p.a && ForsRoom(key.p) && i < key.p.k && tree < Pow2(64) && kp < Pow2(32)
      case OverFunctions(_, _) => true
    }

    /** Call the leaf closure. */
    method LeafAt(z: nat, l: nat) returns (leaf: Bytes)
      requires Fits(z) && l < Pow2(z)
      ensures leaf == Leaf()(l)
    {
      match this
      case OverCache(_, _, _, leaves) => leaf := leaves[l];
      case OverFors(key, tree, kp, i) => leaf := ForsLeafAt(key, tree, kp, i, l);
      case OverFunctions(f, _) => leaf := f(l);
    }

    /** Call the node closure. */
    method JoinAt(z: nat, height: nat, index: nat, left: Bytes, right: Bytes) returns (node: Bytes)
      requires Fits(z) && height <= z && index < Pow2(z - height)
      requires OverFunctions? || (|left| == N && |right| == N)
      ensures node == Join()(height, index, left, right)
    {
      hide XmssJoin, ForsJoin, XmssLeaf, ForsLeaf, Pow2, ForsRoom, Hasher.Valid;
      match this
      case OverCache(key, layer, tree, _) => node := XmssNodeAt(key, layer, tree, z, height, index, left, right);
      case OverFors(key, tree, kp, i) => node := ForsNodeAt(key, tree, kp, i, height, index, left, right);
      case OverFunctions(_, f) => node := f(height, index, left, right);
    }
  }

  /** Leaf l of FORS tree i. */
  method ForsLeafAt(key: Hasher, tree: nat, kp: nat, i: nat, l: nat) returns (leaf: Bytes)
    requires key.Valid() && ForsRoom(key.p) && i < key.p.k && l < Pow2(key.p.a) && tree < Pow2(64) && kp < Pow2(32)
    ensures leaf == ForsLeaf(key.hash, key.p, key.seeds, tree, kp, i)(l)
  {
    hide AHash, Pow2, ForsSk, Hasher.Valid;
    LeafIndexFits(key.p.k, key.p.a, i, l);
    leaf := key.ForsLeafHash(tree, kp, i * Pow2(key.p.a) + l);
  }

  method ForsNodeAt(key: Hasher, tree: nat, kp: nat, i: nat, height: nat, index: nat, left: Bytes, right: Bytes)
    returns (node: Bytes)
    requires key.Valid() && ForsRoom(key.p) && i < key.p.k && tree < Pow2(64) && kp < Pow2(32)
    requires height <= key.p.a && index < Pow2(key.p.a - height) && |left| == N && |right| == N
    ensures node == ForsJoin(key.hash, key.p, key.seeds.pkSeed, tree, kp, i)(height, index, left, right)
  {
    hide AHash, Pow2, Hasher.Valid, ForsRoom, ForsNodeIndex;
    NodeIndexFits(key.p, i, height, index);
    node := key.ForsNodeHash(tree, kp, height, i * Pow2(key.p.a - height) + index, left, right);
  }

  method XmssNodeAt(key: Hasher, layer: nat, tree: nat, z: nat, height: nat, index: nat, left: Bytes, right: Bytes)
    returns (node: Bytes)
    requires key.Valid() && z <= 31 && layer < 256 && tree < Pow2(64)
    requires height <= z && index < Pow2(z - height) && |left| == N && |right| == N
    ensures node == XmssJoin(key.hash, key.seeds.pkSeed, layer, tree)(height, index, left, right)
  {
    hide AHash, Pow2, Hasher.Valid;
    AddressRoom();
    Pow2Mono(z - height, 31);
    node := key.XmssNodeHash(layer, tree, height, index, left, right);
  }

  lemma NodeIndexFits(p: Params, i: nat, height: nat, index: nat)
    requires ForsRoom(p) && i < p.k && height <= p.a && index < Pow2(p.a - height)
    ensures height < Pow2(32) && i * Pow2(p.a - height) + index < Pow2(32)
    ensures ForsNodeIndex(p, i, height, index) == i * Pow2(p.a - height) + index
  {
    hide Pow2;
    AddressRoom();
    RecordFits(i, p.k, Pow2(p.a - height));
    Pow2Mono(p.a - height, p.a);
    Scaled(Pow2(p.a - height), Pow2(p.a), p.k);
  }

  lemma Scaled(x: nat, y: nat, k: nat)
    requires x <= y
    ensures k * x <= k * y
  {
  }

  /** Every node of a key's own trees is N bytes. */
  lemma NodeSize(c: TreeFns, height: nat, index: nat)
    ensures c.OverFunctions? || |Tree(c.Leaf(), c.Join(), height, index)| == N
  {
    hide Tree, ForsSk;
    match c
    case OverCache(key, layer, tree, _) => XmssNodeSize(key, layer, tree, height, index);
    case OverFors(key, tree, kp, i) => ForsNodeSize(key, tree, kp, i, height, index);
    case OverFunctions(_, _) =>
  }

  lemma XmssNodeSize(key: Hasher, layer: nat, tree: nat, height: nat, index: nat)
    ensures |Tree(XmssLeaf(key.hash, key.p, key.seeds, layer, tree), XmssJoin(key.hash, key.seeds.pkSeed, layer, tree),
                  height, index)| == N
  {
    TreeLength(XmssLeaf(key.hash, key.p, key.seeds, layer, tree), XmssJoin(key.hash, key.seeds.pkSeed, layer, tree),
               height, index);
  }

  lemma ForsNodeSize(key: Hasher, tree: nat, kp: nat, i: nat, height: nat, index: nat)
    ensures |Tree(ForsLeaf(key.hash, key.p, key.seeds, tree, kp, i), ForsJoin(key.hash, key.p, key.seeds.pkSeed, tree, kp, i),
                  height, index)| == N
  {
    hide AHash, ForsSk, ForsNodeIndex, Pow2;
    var leaf := ForsLeaf(key.hash, key.p, key.seeds, tree, kp, i);
    forall l: nat
      ensures |leaf(l)| == N
    {
      var at := i * Pow2(key.p.a) + l;
      assert leaf(l) == AHash(key.hash, key.seeds.pkSeed, ForsAddr(tree, kp).(w3 := at),
                              ForsSk(key.hash, key.seeds, tree, kp, at));
    }
    TreeLength(leaf, ForsJoin(key.hash, key.p, key.seeds.pkSeed, tree, kp, i), height, index);
  }

  lemma NodeInside(height: nat, index: nat, i: nat, z: nat)
    requires (index + 1) * Pow2(height) == i + 1 && i < Pow2(z)
    ensures height <= z && index < Pow2(z - height)
  {
    HeightBound(height, index, i, z);
    Pow2Add(z - height, height);
    hide Pow2;
    if index >= Pow2(z - height) {
      MulMono(Pow2(z - height) + 1, index + 1, Pow2(height));
      MulMono(Pow2(z - height), Pow2(z - height) + 1, Pow2(height));
    }
  }

  /** Merge one leaf into the stack, as far as it goes. */
  method MergeLeaf(c: TreeFns, target: nat, z: nat, i: nat, stack0: seq<Pending>, auth0: seq<Bytes>)
    returns (stack: seq<Pending>, auth: seq<Bytes>)
    requires c.Fits(z) && i < Pow2(z) && |auth0| == z
    requires stack0 == PendingNodes(c.Leaf(), c.Join(), i, 0) && AuthSoFar(c.Leaf(), c.Join(), target, auth0, i)
    ensures stack == PendingNodes(c.Leaf(), c.Join(), i + 1, 0) && |auth| == z
    ensures AuthSoFar(c.Leaf(), c.Join(), target, auth, i + 1)
  {
    hide AuthMerging, AuthSoFar, PendingNodes, Tree, Sibling, Shr, Pow2, TreeFns.Leaf, TreeFns.Join, TreeFns.Fits;
    ghost var leaf, join := c.Leaf(), c.Join();
    stack, auth := stack0, auth0;
    var value := c.LeafAt(z, i);
    var height, index := 0, i;
    StartMerging(leaf, join, target, auth, i);
    LeafIsTree(leaf, join, i);
    while true
      invariant 0 <= height && 0 <= index && Merging(leaf, join, target, z, i, stack, auth, height, index, value)
      decreases index
    {
      Stored(leaf, join, target, auth, i, height, index);
      if height < z && index == Sibling(Shr(target, height)) {
        auth := auth[height := value];
      }
      TopOfStack(leaf, join, index, height);
      if |stack| == 0 || stack[|stack| - 1].height != height {
        break;
      }
      var left := stack[|stack| - 1];
      stack := stack[..|stack| - 1];
      MergeUp(height, index, i);
      NodeInside(height + 1, index / 2, i, z);
      NodeSize(c, height, index - 1);
      NodeSize(c, height, index);
      value := c.JoinAt(z, height + 1, index / 2, left.value, value);
      assert left.index == Sibling(index);
      JoinIsTree(leaf, join, height, index);
      height, index := height + 1, index / 2;
    }
    Merged(leaf, join, target, auth, i, height, index);
    PendingPush(leaf, join, index, height);
    PendingShift(leaf, join, index + 1, height);
    stack := stack + [Pending(height, index, value)];
  }

  /**
   * `treehash_auth`: one pass over the leaves yields the recursive root and the sibling of every ancestor of the target,
   * the stack never holding more than z + 1 nodes and ending with the root alone.
   */
  method TreehashAuth(z: nat, target: nat, c: TreeFns) returns (root: Bytes, auth: seq<Bytes>)
    requires c.Fits(z) && target < Pow2(z)
    ensures root == Tree(c.Leaf(), c.Join(), z, 0)
    ensures auth == AuthPath(c.Leaf(), c.Join(), target, z)
  {
    hide AuthSoFar, PendingNodes, Tree, Sibling, Shr, Pow2, Complete, TreeFns.Leaf, TreeFns.Join, TreeFns.Fits;
    ghost var leaf, join := c.Leaf(), c.Join();
    auth := seq(z, _ => Zeros(N));
    var stack: seq<Pending> := [];
    NothingYet(leaf, join, target, auth);
    var i := 0;
    while i < Pow2(z)
      invariant 0 <= i <= Pow2(z) && |auth| == z
      invariant stack == PendingNodes(leaf, join, i, 0) && |stack| <= z + 1
      invariant AuthSoFar(leaf, join, target, auth, i)
    {
      stack, auth := MergeLeaf(c, target, z, i, stack, auth);
      StackFits(leaf, join, i + 1, z);
      i := i + 1;
    }
    RootAlone(leaf, join, z);
    var top := stack[|stack| - 1];
    assert |stack| == 1 && top.height == z;
    root := top.value;
    PathFilled(leaf, join, target, auth, z);
  }
}
