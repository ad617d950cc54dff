/** The signing key as an object: a leaf cache that no result depends on, and the loops that build a signature. */
module SigningKeys {
  import opened Arith
  import opened Bytes
  import opened Lists
  import opened Machine
  import opened Params
  import opened Reference
  import opened HostVerifier
  import opened SignatureBytes
  import opened Treehash
  import opened TreehashLoop
  import opened Signing
  import opened KeyHashing
  import ParallelMap
  import Midstate

  const LEAF_CACHE_BYTES: nat := 134217728

  type Hmac = (Bytes, Bytes) -> Machine.Digest

  /** A cached leaf layer and the (layer, tree) it belongs to. */
  datatype HeldLayer = HeldLayer(layer: nat, tree: nat, leaves: seq<Bytes>)

  function TrueLeaves(hash: Hash, p: DigitParams, sd: Seeds, layer: nat, tree: nat): seq<Bytes>
  {
    ParallelMap.Serial(Pow2(p.hp), XmssLeaf(hash, p, sd, layer, tree))
  }

  class SigningKey {
    const hasher: Hasher
    const hash: Hash
    const p: DigitParams
    const seeds: Seeds
    var publicKey: PublicKey
    var held: Option<HeldLayer>

    /** The hasher is this key's, its addresses hold the set's positions, and the cache has the true leaves of its own tag. */
    ghost predicate Valid()
      reads this
    {
      && MidOk()
      && (held.Some? ==> held.value.leaves == TrueLeaves(hash, p, seeds, held.value.layer, held.value.tree))
    }

    ghost predicate MidOk()
    {
      hasher.Valid() && hasher.hash == hash && hasher.p == p && hasher.seeds == seeds && p.hp <= 31
    }

    lemma ValidMid()
      requires Valid()
      ensures MidOk()
    {
    }

    /**
     * `generate`: the top layer's single tree. One-bit digits are excluded, as their longest message overflows the buffer,
     * and so are sets whose layers or leaves would not fit an address.
     */
    constructor (compress: Midstate.Compress, iv: Midstate.State, p: DigitParams, seeds: Seeds, cores: nat, schedule: seq<nat>)
      requires 0 < p.d <= 256 && p.hp <= 31 && p.lgw != 1 && |seeds.skSeed| == N && |seeds.pkSeed| == N
      ensures Valid() && this.hash == Midstate.Sha256(compress, iv) && this.p == p && this.seeds == seeds
      ensures publicKey == KeyGen(hash, p, seeds)
    {
      this.hasher := new Hasher(compress, iv, p, seeds);
      this.hash, this.p, this.seeds := Midstate.Sha256(compress, iv), p, seeds;
      publicKey := PublicKey(seeds.pkSeed, Zeros(N));
      held := None;
      new;
      var root, auth := XmssTree(p.d - 1, 0, 0, cores, schedule);
      publicKey := PublicKey(seeds.pkSeed, root);
    }

    /** `leaf_layer`: the true leaves, from the cache or computed on any number of cores. */
    method LeafLayer(layer: nat, tree: nat, cores: nat, schedule: seq<nat>) returns (leaves: seq<Bytes>)
      requires Valid() && layer < 256 && tree < Pow2(64)
      modifies this`held
      ensures Valid() && leaves == TrueLeaves(hash, p, seeds, layer, tree)
    {
      if held.Some? && held.value.layer == layer && held.value.tree == tree {
        return held.value.leaves;
      }
      var count := Pow2(p.hp);
      AddressRoom();
      Pow2Mono(p.hp, 31);
      leaves := ParallelMap.Map(count, ParallelMap.LeafKeys(hasher, layer, tree), cores, schedule);
      if count * N <= LEAF_CACHE_BYTES {
        held := Some(HeldLayer(layer, tree, leaves));
      }
    }

    /** `xmss_tree`. */
    method XmssTree(layer: nat, tree: nat, target: nat, cores: nat, schedule: seq<nat>)
      returns (root: Bytes, auth: seq<Bytes>)
      requires Valid() && target < Pow2(p.hp) && layer < 256 && tree < Pow2(64)
      modifies this`held
      ensures Valid()
      ensures root == TreeRoot(hash, p, seeds, layer, tree)
      ensures auth == AuthPath(XmssLeaf(hash, p, seeds, layer, tree), XmssJoin(hash, seeds.pkSeed, layer, tree), target, p.hp)
    {
      hide Tree, AuthPath, XmssJoin, XmssLeaf, Pow2;
      var leaves := LeafLayer(layer, tree, cores, schedule);
      root, auth := TreehashAuth(p.hp, target, OverCache(hasher, layer, tree, leaves));
    }

    /** `fors_tree`. */
    method ForsTree(tree: nat, kp: nat, i: nat, idx: nat) returns (g: Group)
      requires MidOk() && tree < Pow2(64) && kp < Pow2(32) && ForsRoom(p) && i < p.k && idx < Pow2(p.a)
      ensures g == ForsSign(hash, p, seeds, tree, kp, i, idx)
    {
      hide Tree, AuthPath, ForsLeaf, ForsJoin, Pow2, ForsSk;
      var root, auth := TreehashAuth(p.a, idx, OverFors(hasher, tree, kp, i));
      LeafIndexFits(p.k, p.a, i, idx);
      var sk := hasher.ForsSecret(tree, kp, i * Pow2(p.a) + idx);
      g := Group(sk, auth);
    }

    /** One thread's tree, unless it has finished already. */
    method ForsThread(tree: nat, kp: nat, indices: seq<nat>, i: nat, slots0: seq<Option<Group>>)
      returns (slots: seq<Option<Group>>)
      requires MidOk() && tree < Pow2(64) && kp < Pow2(32) && ForsRoom(p) && |indices| <= p.k && i < |indices|
      requires forall i :: 0 <= i < |indices| ==> indices[i] < Pow2(p.a)
      requires Joined(slots0, tree, kp, indices)
      ensures Joined(slots, tree, kp, indices) && slots[i].Some?
      ensures forall j :: 0 <= j < |indices| && slots0[j].Some? ==> slots[j].Some?
    {
      hide ForsSign, Pow2, MidOk, ForsRoom;
      slots := slots0;
      if slots[i].None? {
        var g := ForsTree(tree, kp, i, indices[i]);
        slots := slots[i := Some(g)];
      }
    }

    /** Whatever has finished is the tree of its own place. */
    ghost predicate Joined(slots: seq<Option<Group>>, tree: nat, kp: nat, indices: seq<nat>)
    {
      && |slots| == |indices|
      && forall i :: 0 <= i < |slots| && slots[i].Some? ==>
           slots[i].value == ForsSign(hash, p, seeds, tree, kp, i, indices[i])
    }

    /** `fors_sign`: one thread a tree, finishing in any order, joined in the order of the trees. */
    method ForsSignLoop(tree: nat, kp: nat, indices: seq<nat>, schedule: seq<nat>)
      returns (groups: seq<Group>, flat: seq<Bytes>)
      requires MidOk() && tree < Pow2(64) && kp < Pow2(32) && ForsRoom(p) && |indices| <= p.k
      requires forall i :: 0 <= i < |indices| ==> indices[i] < Pow2(p.a)
      ensures groups == ForsGroupsSigned(hash, p, seeds, tree, kp, indices)
      ensures flat == ForsElements(groups)
    {
      hide ForsSign, Pow2, MidOk, ForsRoom;
      var slots: seq<Option<Group>> := seq(|indices|, _ => None);
      var n := 0;
      while n < |schedule| && |indices| > 0
        invariant 0 <= n <= |schedule| && Joined(slots, tree, kp, indices)
      {
        slots := ForsThread(tree, kp, indices, schedule[n] % |indices|, slots);
        n := n + 1;
      }
      groups, flat := [], [];
      var i := 0;
      while i < |indices|
        invariant 0 <= i <= |indices| && |groups| == i && flat == ForsElements(groups)
        invariant Joined(slots, tree, kp, indices)
        invariant forall j :: 0 <= j < i ==> groups[j] == ForsSign(hash, p, seeds, tree, kp, j, indices[j])
      {
        slots := ForsThread(tree, kp, indices, i, slots);
        var g := slots[i].value;
        assert (groups + [g])[..i] == groups;
        groups := groups + [g];
        flat := flat + ([g.sk] + g.auth);
        i := i + 1;
      }
    }

    /** The message digest's three parts, the FORS groups they select and the key those imply. */
    method ForsPartSigned(digest: Bytes, schedule: seq<nat>) returns (groups: seq<Group>, flat: seq<Bytes>, pkFors: Bytes)
      requires MidOk() && p.WellFormed() && |digest| == p.m
      ensures var tree, leaf, indices := IdxTree(p, digest), IdxLeaf(p, digest), ForsIndices(p, digest);
              && groups == ForsGroupsSigned(hash, p, seeds, tree, leaf, indices)
              && flat == ForsElements(groups)
              && pkFors == ForsPkFromSig(hash, seeds.pkSeed, p, tree, leaf, groups, indices)
    {
      hide *;
      ShapeFacts(p);
      IndicesBelow(p, digest);
      StartIndices(p, digest);
      WellFormedForsRoom(p);
      DigestParts(p);
      var md, idxTree, idxLeaf := SplitDigest(p, digest);
      IndicesOf(p, digest);
      ghost var read: nat;
      var indices: seq<nat>;
      indices, read := Base2bLoop(md, p.a, p.k);
      groups, flat := ForsSignLoop(idxTree, idxLeaf, indices, schedule);
      ForsSignedSizes(hash, p, seeds, idxTree, idxLeaf, indices);
      FlatForsGroups(groups, p.a);
      PartsIn(p, flat, md);
      var again: seq<nat>;
      var roots: seq<Bytes>;
      again, roots, pkFors := ForsPart(hash, p, seeds.pkSeed, flat, md, idxTree, idxLeaf);
    }

    /** One hypertree layer: sign the node, open the leaf, move to the layer's root. */
    method SignLayer(node: Bytes, layer: nat, tree: nat, leaf: nat, cores: nat, schedule: seq<nat>)
      returns (wots: seq<Bytes>, auth: seq<Bytes>, root: Bytes)
      requires Valid() && |node| == N && layer < 256 && tree < Pow2(64) && leaf < Pow2(p.hp) && p.hp <= 31
      modifies this`held
      ensures Valid()
      ensures wots == WotsSign(hash, p, seeds, node, layer, tree, leaf)
      ensures auth == AuthPath(XmssLeaf(hash, p, seeds, layer, tree), XmssJoin(hash, seeds.pkSeed, layer, tree), leaf, p.hp)
      ensures root == TreeRoot(hash, p, seeds, layer, tree)
    {
      hide *;
      ValidMid();
      LeafFits(p.hp, leaf);
      wots := hasher.WotsSignLoop(node, layer, tree, leaf);
      root, auth := XmssTree(layer, tree, leaf, cores, schedule);
    }

    /** The hypertree loop: tree and leaf shift down by one layer each turn, every element appended in order. */
    method SignHypertree(idxTree: nat, idxLeaf: nat, pkFors: Bytes, out0: Bytes, cores: nat, schedule: seq<nat>)
      returns (out: Bytes)
      requires Valid() && |pkFors| == N && idxTree < Pow2(64) && idxLeaf < Pow2(p.hp) && p.hp <= 31 && p.d <= 256
      modifies this`held
      ensures Valid()
      ensures out == out0 + Concat(HtElements(LayersSigned(hash, p, seeds, idxTree, idxLeaf, pkFors)))
    {
      hide *;
      FirstNode(hash, p, seeds, idxTree, pkFors);
      ghost var layers := LayersSigned(hash, p, seeds, idxTree, idxLeaf, pkFors);
      NoLayers(layers);
      LayerStep(p, idxTree, idxLeaf, 0);
      out := out0;
      assert out0 + [] == out0;
      var node, tree, leaf := pkFors, idxTree, idxLeaf;
      var layer := 0;
      while layer < p.d
        invariant 0 <= layer <= p.d && Valid() && |node| == N
        invariant 0 <= tree < Pow2(64) && 0 <= leaf < Pow2(p.hp)
        invariant var at := if layer == 0 then 0 else layer - 1;
                  tree == LayerTree(p, idxTree, at) && leaf == LayerLeaf(p, idxTree, idxLeaf, at)
        invariant node == SignedNode(hash, p, seeds, idxTree, pkFors, layer)
        invariant out == out0 + Concat(HtElements(layers[..layer]))
      {
        if layer > 0 {
          LayerStep(p, idxTree, idxLeaf, layer - 1);
          ShrSteps(tree, p.hp);
          leaf := Low(tree, p.hp);
          tree := Shr(tree, p.hp);
        }
        var wots, auth, root := SignLayer(node, layer, tree, leaf, cores, schedule);
        LayerAppended(hash, p, seeds, idxTree, idxLeaf, pkFors, layer, wots, auth);
        NextNode(hash, p, seeds, idxTree, pkFors, layer);
        ghost var was := out;
        out := out + Concat(wots);
        out := out + Concat(auth);
        assert out == was + (Concat(wots) + Concat(auth));
        node := root;
        layer := layer + 1;
      }
      assert layers[..layer] == layers;
    }

    /** Signing under a given randomizer. */
    method SignRandomized(message: Bytes, r: Bytes, cores: nat, schedule: seq<nat>) returns (out: Bytes)
      requires Valid() && p.WellFormed()
      modifies this`held
      ensures Valid() && out == ToBytes(SignWith(hash, p, seeds, publicKey, r, message))
    {
      hide *;
      ValidMid();
      ShapeFacts(p);
      WellFormedForsRoom(p);
      ManyLayers(p);
      var digest := HMsgLoop(hash, p, r, publicKey, ContextPrefixed(message));
      StartIndices(p, digest);
      var groups, flat, pkFors := ForsPartSigned(digest, schedule);
      var md, idxTree, idxLeaf := SplitDigest(p, digest);
      out := SignHypertree(idxTree, idxLeaf, pkFors, r + Concat(flat), cores, schedule);
      SignWithIs(hash, p, seeds, publicKey, r, message);
      SignedBytes(hash, p, seeds, r, digest);
    }

    /** `sign`: the wire bytes of the signature the specification gives, whatever was signed before. */
    method Sign(message: Bytes, hmac: Hmac, cores: nat, schedule: seq<nat>) returns (out: Bytes)
      requires Valid() && p.WellFormed()
      modifies this`held
      ensures Valid()
      ensures var r := hmac(seeds.skPrf, seeds.pkSeed + ContextPrefixed(message))[..N];
              out == ToBytes(SignWith(hash, p, seeds, publicKey, r, message))
    {
      hide Valid, Params.WellFormed, SignWith, ToBytes;
      var randomness := hmac(seeds.skPrf, seeds.pkSeed + ContextPrefixed(message))[..N];
      out := SignRandomized(message, randomness, cores, schedule);
    }
  }

  lemma IndicesOf(p: Params, digest: Bytes)
    requires p.WellFormed() && |digest| == p.m
    ensures ForsIndices(p, digest) == Base2b(Md(p, digest), p.a, p.k)
  {
    hide Params.WellFormed, Md, Base2b;
  }

  lemma {:induction false} ConcatAppend(a: seq<Bytes>, b: seq<Bytes>)
    ensures Concat(a + b) == Concat(a) + Concat(b)
  {
    if |a| == 0 {
      assert a + b == b;
    } else {
      assert (a + b)[1..] == a[1..] + b;
      ConcatAppend(a[1..], b);
      assert a[0] + (Concat(a[1..]) + Concat(b)) == a[0] + Concat(a[1..]) + Concat(b);
    }
  }

  lemma FirstNode(hash: Hash, p: DigitParams, sd: Seeds, idxTree: nat, pkFors: Bytes)
    requires |pkFors| == N
    ensures SignedNode(hash, p, sd, idxTree, pkFors, 0) == pkFors
  {
  }

  lemma NextNode(hash: Hash, p: DigitParams, sd: Seeds, idxTree: nat, pkFors: Bytes, layer: nat)
    requires |pkFors| == N
    ensures SignedNode(hash, p, sd, idxTree, pkFors, layer + 1) == TreeRoot(hash, p, sd, layer, LayerTree(p, idxTree, layer))
  {
    hide TreeRoot, LayerTree;
  }

  lemma NoLayers(layers: seq<Layer>)
    ensures Concat(HtElements(layers[..0])) == []
  {
  }

  lemma LayerAppended(hash: Hash, p: DigitParams, sd: Seeds, idxTree: nat, idxLeaf: nat, pkFors: Bytes, layer: nat,
                      wots: seq<Bytes>, auth: seq<Bytes>)
    requires |pkFors| == N && layer < p.d
    requires var tree, leaf := LayerTree(p, idxTree, layer), LayerLeaf(p, idxTree, idxLeaf, layer);
             && wots == WotsSign(hash, p, sd, SignedNode(hash, p, sd, idxTree, pkFors, layer), layer, tree, leaf)
             && auth == AuthPath(XmssLeaf(hash, p, sd, layer, tree), XmssJoin(hash, sd.pkSeed, layer, tree), leaf, p.hp)
    ensures var layers := LayersSigned(hash, p, sd, idxTree, idxLeaf, pkFors);
            Concat(HtElements(layers[..layer + 1]))
            == Concat(HtElements(layers[..layer])) + (Concat(wots) + Concat(auth))
  {
    hide LayersSigned, WotsSign, AuthPath, SignedNode, LayerTree, LayerLeaf, XmssLeaf, XmssJoin;
    var layers := LayersSigned(hash, p, sd, idxTree, idxLeaf, pkFors);
    assert layers[..layer + 1][..layer] == layers[..layer];
    ConcatAppend(HtElements(layers[..layer]), wots + auth);
    ConcatAppend(wots, auth);
  }

  /** The flat list cut into groups again is the groups. */
  lemma FlatForsGroups(groups: seq<Group>, a: nat)
    requires forall g :: g in groups ==> |g.auth| == a
    ensures |ForsElements(groups)| == |groups| * (1 + a)
    ensures ForsGroups(ForsElements(groups), a, |groups|) == groups
  {
    FlatLength(groups, a);
    hide ForsElements;
    var cut := ForsGroups(ForsElements(groups), a, |groups|);
    forall i | 0 <= i < |groups|
      ensures cut[i] == groups[i]
    {
      FlatGroupAt(groups, a, i);
    }
  }

  lemma {:induction false} FlatLength(groups: seq<Group>, a: nat)
    requires forall g :: g in groups ==> |g.auth| == a
    ensures |ForsElements(groups)| == |groups| * (1 + a)
  {
    if |groups| > 0 {
      assert groups[|groups| - 1] in groups;
      FlatLength(groups[..|groups| - 1], a);
      RecordFits(|groups| - 1, |groups|, 1 + a);
    }
  }

  lemma {:induction false} FlatGroupAt(groups: seq<Group>, a: nat, i: nat)
    requires forall g :: g in groups ==> |g.auth| == a
    requires i < |groups| && |ForsElements(groups)| == |groups| * (1 + a)
    ensures ForsGroup(ForsElements(groups), a, |groups|, i) == groups[i]
  {
    hide *;
    var n := |groups| - 1;
    var last := groups[n];
    assert last in groups;
    assert forall g :: g in groups[..n] ==> g in groups;
    FlatLength(groups[..n], a);
    FlatSnoc(groups);
    var all, front := ForsElements(groups), ForsElements(groups[..n]);
    var at := i * (1 + a);
    GroupIs(all, a, |groups|, i, at);
    if i < n {
      FlatGroupAt(groups[..n], a, i);
      GroupIs(front, a, n, i, at);
      SliceKept(front, [last.sk] + last.auth, at, a);
    } else {
      SliceLast(front, last, at);
    }
  }

  lemma FlatSnoc(groups: seq<Group>)
    requires |groups| > 0
    ensures var last := groups[|groups| - 1];
            ForsElements(groups) == ForsElements(groups[..|groups| - 1]) + ([last.sk] + last.auth)
  {
  }

  lemma GroupIs(fors: seq<Bytes>, a: nat, k: nat, i: nat, at: nat)
    requires |fors| == k * (1 + a) && i < k && at == i * (1 + a)
    ensures at + 1 + a <= |fors| && ForsGroup(fors, a, k, i) == Group(fors[at], Slice(fors, at + 1, a))
  {
    RecordFits(i, k, 1 + a);
    hide Slice;
  }

  lemma SliceKept(front: seq<Bytes>, more: seq<Bytes>, at: nat, a: nat)
    requires at + 1 + a <= |front|
    ensures (front + more)[at] == front[at] && Slice(front + more, at + 1, a) == Slice(front, at + 1, a)
  {
  }

  lemma SliceLast(front: seq<Bytes>, g: Group, at: nat)
    requires at == |front|
    ensures (front + ([g.sk] + g.auth))[at] == g.sk && Slice(front + ([g.sk] + g.auth), at + 1, |g.auth|) == g.auth
  {
  }

  /** The bytes of a signature, part by part. */
  lemma SignedBytes(hash: Hash, p: DigitParams, sd: Seeds, r: Bytes, digest: Bytes)
    requires p.WellFormed() && |digest| == p.m
    ensures var tree, leaf, indices := IdxTree(p, digest), IdxLeaf(p, digest), ForsIndices(p, digest);
            var groups := ForsGroupsSigned(hash, p, sd, tree, leaf, indices);
            var pkFors := ForsPkFromSig(hash, sd.pkSeed, p, tree, leaf, groups, indices);
            ToBytes(SignDigest(hash, p, sd, r, digest))
            == r + Concat(ForsElements(groups)) + Concat(HtElements(LayersSigned(hash, p, sd, tree, leaf, pkFors)))
  {
    hide Params.WellFormed, IdxTree, IdxLeaf, ForsIndices, ForsGroupsSigned, ForsPkFromSig, LayersSigned;
    hide ForsElements, HtElements;
    var sig := SignDigest(hash, p, sd, r, digest);
    ConcatAppend([r] + ForsElements(sig.fors), HtElements(sig.ht));
    ConcatAppend([r], ForsElements(sig.fors));
    ConcatOne(r);
  }
}
