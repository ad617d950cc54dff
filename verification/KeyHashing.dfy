/** The signer's hashing: secrets, chains, leaves and nodes, every one of them resumed from the midstate. */
module KeyHashing {
  import opened Arith
  import opened Bytes
  import opened Machine
  import opened Params
  import opened Adrs
  import opened AdrsBytes
  import opened Reference
  import opened HostVerifier
  import opened Signing
  import HashInputs
  import Midstate

  /** What every hash of one key shares: the midstate, the set and the seeds. */
  class Hasher {
    const mid: Midstate.Midstate
    const hash: Hash
    const p: DigitParams
    const seeds: Seeds

    /** The midstate is this key's, and its messages fit the buffer. */
    ghost predicate Valid()
    {
      && mid.Valid() && mid.seed == seeds.pkSeed && hash == Midstate.Sha256(mid.compress, mid.iv)
      && |seeds.skSeed| == N && p.lgw != 1
    }

    constructor (compress: Midstate.Compress, iv: Midstate.State, p: DigitParams, seeds: Seeds)
      requires p.lgw != 1 && |seeds.skSeed| == N && |seeds.pkSeed| == N
      ensures Valid() && this.hash == Midstate.Sha256(compress, iv) && this.p == p && this.seeds == seeds
    {
      this.mid := new Midstate.Midstate(compress, iv, seeds.pkSeed);
      this.hash, this.p, this.seeds := Midstate.Sha256(compress, iv), p, seeds;
    }

    /** The address every chain of one key pair starts from. */
    method ChainAddress(layer: nat, tree: nat, kp: nat) returns (a: AddressBytes)
      requires layer < 256 && tree < Pow2(64) && kp < Pow2(32)
      ensures fresh(a) && fresh(a.bytes) && a.Valid() && a.addr == ChainAddr(layer, tree, kp, 0)
    {
      hide AddressBytes.Valid, Pow2;
      a := new AddressBytes();
      a.SetLayer(layer);
      a.SetTreeAddress(tree);
      a.SetTypeAndClear(WOTS_HASH);
      a.SetKeyPairAddress(kp);
    }

    /** `chain`, every step resumed from the midstate. */
    method ChainLoop(adrs: AddressBytes, x: Bytes, start: nat, steps: nat) returns (tmp: Bytes)
      requires Valid() && adrs.Valid() && start + steps <= Pow2(32) && |x| == N
      ensures tmp == Chain(hash, seeds.pkSeed, adrs.addr, x, start, steps) && |tmp| == N
    {
      hide Pow2, AHash, AddressBytes.Valid, Midstate.Sha256;
      var a := new AddressBytes.Copy(adrs);
      tmp := x;
      var n := 0;
      while n < steps
        invariant 0 <= n <= steps && a.Valid() && |tmp| == N
        invariant a.addr.(w3 := 0) == adrs.addr.(w3 := 0)
        invariant tmp == Chain(hash, seeds.pkSeed, adrs.addr, x, start, n)
      {
        a.SetHashAddress(start + n);
        ConcatOne(tmp);
        tmp := mid.HashParts(a, [tmp]);
        n := n + 1;
      }
    }

    /** `wots_sk`. */
    method WotsSecret(layer: nat, tree: nat, kp: nat, i: nat) returns (sk: Bytes)
      requires Valid() && layer < 256 && tree < Pow2(64) && kp < Pow2(32) && i < Pow2(32)
      ensures sk == WotsSk(hash, seeds, layer, tree, kp, i) && |sk| == N
      ensures exists x :: Laid(x, seeds.pkSeed, layer, tree, 5, kp, i, 0, seeds.skSeed) && sk == hash(x)[..16]
    {
      hide Pow2, AHash, AddressBytes.Valid, Midstate.Sha256;
      var a := new AddressBytes();
      a.SetLayer(layer);
      a.SetTreeAddress(tree);
      a.SetTypeAndClear(WOTS_PRF);
      a.SetKeyPairAddress(kp);
      a.SetChainAddress(i);
      ConcatOne(seeds.skSeed);
      sk := mid.HashParts(a, [seeds.skSeed]);
      ghost var x := HashInputs.ChainSecretInput(hash, seeds, layer, tree, kp, i);
    }

    /** `fors_sk`. */
    method ForsSecret(tree: nat, kp: nat, index: nat) returns (sk: Bytes)
      requires Valid() && tree < Pow2(64) && kp < Pow2(32) && index < Pow2(32)
      ensures sk == ForsSk(hash, seeds, tree, kp, index)
      ensures exists x :: Laid(x, seeds.pkSeed, 0, tree, 6, kp, 0, index, seeds.skSeed) && sk == hash(x)[..16]
    {
      hide Pow2, AHash, AddressBytes.Valid, Midstate.Sha256;
      var a := new AddressBytes();
      a.SetTreeAddress(tree);
      a.SetTypeAndClear(FORS_PRF);
      a.SetKeyPairAddress(kp);
      a.SetTreeIndex(index);
      ConcatOne(seeds.skSeed);
      sk := mid.HashParts(a, [seeds.skSeed]);
      ghost var x := HashInputs.ForsSecretInput(hash, seeds, tree, kp, index);
    }

    /** `wots_sign`. */
    method WotsSignLoop(m: Bytes, layer: nat, tree: nat, kp: nat) returns (sig: seq<Bytes>)
      requires Valid() && |m| == N && layer < 256 && tree < Pow2(64) && kp < Pow2(32)
      ensures sig == WotsSign(hash, p, seeds, m, layer, tree, kp)
    {
      hide Params.Len, Params.W, Pow2, AddressBytes.Valid, WotsDigit, WotsValue, Hasher.Valid;
      ChainRoom(p);
      var msg := WotsMessage(p, m);
      var a := ChainAddress(layer, tree, kp);
      sig := WotsValues(a, m, msg, layer, tree, kp);
    }

    /** Each chain run to its digit. */
    method WotsValues(a: AddressBytes, m: Bytes, msg: seq<nat>, layer: nat, tree: nat, kp: nat) returns (sig: seq<Bytes>)
      requires Valid() && |m| == N && |msg| == p.Len() <= 256 && p.W() <= 256
      requires layer < 256 && tree < Pow2(64) && kp < Pow2(32)
      requires forall i :: 0 <= i < p.Len() ==> msg[i] == WotsDigit(p, m, i)
      requires a.Valid() && a.addr == ChainAddr(layer, tree, kp, 0)
      modifies a, a.bytes
      ensures |sig| == p.Len()
      ensures forall j :: 0 <= j < p.Len() ==> sig[j] == WotsValue(hash, p, seeds, m, layer, tree, kp, j)
    {
      AddressRoom();
      hide Params.Len, Params.W, Pow2, AddressBytes.Valid, Chain, WotsDigit, WotsSk;
      sig := [];
      var i := 0;
      while i < |msg|
        invariant 0 <= i <= |msg| && |sig| == i && a.Valid()
        invariant a.addr.(w2 := 0) == ChainAddr(layer, tree, kp, 0)
        invariant forall j :: 0 <= j < i ==> sig[j] == WotsValue(hash, p, seeds, m, layer, tree, kp, j)
      {
        a.SetChainAddress(i);
        var sk := WotsSecret(layer, tree, kp, i);
        var end := ChainLoop(a, sk, 0, msg[i]);
        sig := sig + [end];
        i := i + 1;
      }
    }

    /** Every chain of one key pair, run to its end. */
    method ChainEndsLoop(a: AddressBytes, layer: nat, tree: nat, kp: nat) returns (tmp: seq<Bytes>)
      requires Valid() && a.Valid() && a.addr == ChainAddr(layer, tree, kp, 0) && p.Len() <= 256 && 1 <= p.W() <= 256
      requires layer < 256 && tree < Pow2(64) && kp < Pow2(32)
      modifies a, a.bytes
      ensures a.Valid() && a.addr.(w2 := 0) == ChainAddr(layer, tree, kp, 0)
      ensures |Concat(tmp)| == p.Len() * N
      ensures Concat(tmp) == PkEnds(hash, p, seeds, layer, tree, kp, p.Len())
    {
      AddressRoom();
      hide Params.Len, Params.W, Pow2, AddressBytes.Valid, Chain, WotsSk, AHash;
      tmp := [];
      var i := 0;
      while i < p.Len()
        invariant 0 <= i <= p.Len() && a.Valid()
        invariant a.addr.(w2 := 0) == ChainAddr(layer, tree, kp, 0)
        invariant |Concat(tmp)| == i * N
        invariant Concat(tmp) == PkEnds(hash, p, seeds, layer, tree, kp, i)
      {
        a.SetChainAddress(i);
        var sk := WotsSecret(layer, tree, kp, i);
        var end := ChainLoop(a, sk, 0, p.W() - 1);
        ConcatSnoc(tmp, end);
        tmp := tmp + [end];
        i := i + 1;
      }
    }

    /** `wots_pk_gen`. */
    method WotsPkGenLoop(layer: nat, tree: nat, kp: nat) returns (pk: Bytes)
      requires Valid() && layer < 256 && tree < Pow2(64) && kp < Pow2(32)
      ensures pk == WotsPkGen(hash, p, seeds, layer, tree, kp)
    {
      ChainRoom(p);
      Midstate.LongestMessageFits(p);
      hide Params.Len, Params.W, Pow2, AddressBytes.Valid, PkEnds, AHash;
      var a := ChainAddress(layer, tree, kp);
      var tmp := ChainEndsLoop(a, layer, tree, kp);
      var pkAdrs := new AddressBytes.Copy(a);
      pkAdrs.SetTypeAndClear(WOTS_PK);
      pkAdrs.SetKeyPairAddress(kp);
      pk := mid.HashParts(pkAdrs, tmp);
    }

    /** Leaf `index` of the FORS trees, counted across all of them. */
    method ForsLeafHash(tree: nat, kp: nat, index: nat) returns (leaf: Bytes)
      requires Valid() && tree < Pow2(64) && kp < Pow2(32) && index < Pow2(32)
      ensures leaf == AHash(hash, seeds.pkSeed, ForsAddr(tree, kp).(w3 := index), ForsSk(hash, seeds, tree, kp, index))
    {
      hide Pow2, AHash, AddressBytes.Valid, Midstate.Sha256, ForsSk;
      var sk := ForsSecret(tree, kp, index);
      var a := ForsAddress(tree, kp);
      a.SetTreeIndex(index);
      ConcatOne(sk);
      leaf := mid.HashParts(a, [sk]);
    }

    /** The address every node of one position's FORS trees starts from. */
    method ForsAddress(tree: nat, kp: nat) returns (a: AddressBytes)
      requires tree < Pow2(64) && kp < Pow2(32)
      ensures fresh(a) && fresh(a.bytes) && a.Valid() && a.addr == ForsAddr(tree, kp)
    {
      hide AddressBytes.Valid, Pow2;
      a := new AddressBytes();
      a.SetTreeAddress(tree);
      a.SetTypeAndClear(FORS_TREE);
      a.SetKeyPairAddress(kp);
    }

    /** A FORS node from its children. */
    method ForsNodeHash(tree: nat, kp: nat, height: nat, index: nat, left: Bytes, right: Bytes) returns (node: Bytes)
      requires Valid() && tree < Pow2(64) && kp < Pow2(32) && height < Pow2(32) && index < Pow2(32)
      requires |left| == N && |right| == N
      ensures node == AHash(hash, seeds.pkSeed, ForsAddr(tree, kp).(w2 := height, w3 := index), left + right)
    {
      hide Pow2, AHash, AddressBytes.Valid, Midstate.Sha256;
      var a := ForsAddress(tree, kp);
      a.SetTreeHeight(height);
      a.SetTreeIndex(index);
      ConcatTwo(left, right);
      node := mid.HashParts(a, [left, right]);
    }

    /** An XMSS node from its children. */
    method XmssNodeHash(layer: nat, tree: nat, height: nat, index: nat, left: Bytes, right: Bytes) returns (node: Bytes)
      requires Valid() && layer < 256 && tree < Pow2(64) && height < Pow2(32) && index < Pow2(32)
      requires |left| == N && |right| == N
      ensures node == AHash(hash, seeds.pkSeed, Addr(layer, tree, TREE, 0, height, index), left + right)
    {
      hide Pow2, AHash, AddressBytes.Valid, Midstate.Sha256;
      var a := new AddressBytes();
      a.SetLayer(layer);
      a.SetTreeAddress(tree);
      a.SetTypeAndClear(TREE);
      a.SetTreeHeight(height);
      a.SetTreeIndex(index);
      ConcatTwo(left, right);
      node := mid.HashParts(a, [left, right]);
    }
  }
}
