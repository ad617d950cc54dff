/**
 * What the host-side verifier computes: FIPS 205 Algorithms 8, 11, 17 and 20 for the SHA2 category-1 shape, as plain
 * functions of the hash, the parameter set, the public key, the signature elements and the message.
 */
module Reference {
  import opened Arith
  import opened Bytes
  import opened Machine
  import opened Params
  import opened Adrs

  datatype PublicKey = PublicKey(seed: Bytes, root: Bytes)

  // ---- digits --------------------------------------------------------------

  /** base_2b: the first `count` b-bit fields, most significant first. */
  function Base2b(x: Bytes, b: nat, count: nat): (r: seq<nat>)
    requires b * count <= 8 * |x|
    ensures |r| == count
    ensures forall i :: 0 <= i < count ==> b * i + b <= 8 * |x| && r[i] == Field(x, b * i, b)
    ensures forall i :: 0 <= i < count ==> r[i] < Pow2(b)
  {
    if count == 0 then []
    else
      assert b * (count - 1) + b == b * count;
      FieldBound(x, b * (count - 1), b);
      Base2b(x, b, count - 1) + [Field(x, b * (count - 1), b)]
  }

  /** The checksum: how far each digit is from w - 1, summed. */
  function Checksum(digits: seq<nat>, w: nat): nat
    requires forall i :: 0 <= i < |digits| ==> digits[i] < w
  {
    if |digits| == 0 then 0 else Checksum(digits[..|digits| - 1], w) + (w - 1 - digits[|digits| - 1])
  }

  function DigitsOf(p: Params, m: Bytes): (d: seq<nat>)
    requires p.lgw in {1, 2, 4, 8} && |m| == N
    ensures |d| == p.Len1() && forall i :: 0 <= i < |d| ==> d[i] < p.W()
    ensures forall i :: 0 <= i < |d| ==> p.lgw * i + p.lgw <= 8 * N && d[i] == Field(m, p.lgw * i, p.lgw)
  {
    Base2b(m, p.lgw, p.Len1())
  }

  function ChecksumOf(p: Params, m: Bytes): nat
    requires p.lgw in {1, 2, 4, 8} && |m| == N
  {
    Checksum(DigitsOf(p, m), p.W())
  }

  lemma {:induction false} ChecksumBound(digits: seq<nat>, w: nat)
    requires forall i :: 0 <= i < |digits| ==> digits[i] < w
    requires 1 <= w <= 256
    ensures Checksum(digits, w) <= |digits| * (w - 1) && Checksum(digits, w) <= |digits| * 255
  {
    if |digits| > 0 {
      ChecksumBound(digits[..|digits| - 1], w);
      RecordFits(|digits| - 1, |digits|, w - 1);
    }
  }

  /** The checksum fits the bits its digits are cut from. */
  lemma ChecksumFits(p: Params, m: Bytes)
    requires p.lgw in {1, 2, 4, 8} && |m| == N
    ensures ChecksumOf(p, m) < Pow2(p.CsumBits()) 
  {
    hide Pow2;
    DigitCounts(p);
    ChecksumBound(DigitsOf(p, m), p.W());
  }

  /** Digit j of the checksum's own len2 * lgw bits. */
  function ChecksumDigit(p: Params, csum: nat, j: nat): (r: nat)
    requires p.lgw > 0 && j < p.Len2()
    ensures r < p.W()
  {
    MulMono(j + 1, p.Len2(), p.lgw);
    Low(Shr(csum, p.CsumBits() - p.lgw * (j + 1)), p.lgw)
  }

  /** Digit i of the extended message: message digits, then checksum digits. */
  function WotsDigit(p: Params, m: Bytes, i: nat): (r: nat)
    requires p.lgw in {1, 2, 4, 8} && |m| == N && i < p.Len()
    ensures r < p.W()
  {
    if i < p.Len1() then DigitsOf(p, m)[i] else ChecksumDigit(p, ChecksumOf(p, m), i - p.Len1())
  }

  // ---- WOTS+ and Merkle paths ----------------------------------------------

  /** `s` iterations of F from hash address i. */
  function Chain(hash: Hash, seed: Bytes, a: Addr, x: Bytes, i: nat, s: nat): Bytes
  {
    if s == 0 then x else AHash(hash, seed, a.(w3 := i + s - 1), Chain(hash, seed, a, x, i, s - 1))
  }

  function ChainAddr(layer: nat, tree: nat, kp: nat, i: nat): Addr
  {
    Addr(layer, tree, WOTS_HASH, kp, i, 0)
  }

  /** The ends of the first n chains, concatenated. */
  function ChainEnds(hash: Hash, seed: Bytes, p: Params, layer: nat, tree: nat, kp: nat, sig: seq<Bytes>, m: Bytes,
                     n: nat): Bytes
    requires p.lgw in {1, 2, 4, 8} && |m| == N && n <= p.Len() <= |sig|
  {
    if n == 0 then []
    else
      var digit := WotsDigit(p, m, n - 1);
      ChainEnds(hash, seed, p, layer, tree, kp, sig, m, n - 1)
      + Chain(hash, seed, ChainAddr(layer, tree, kp, n - 1), sig[n - 1], digit, p.W() - 1 - digit)
  }

  /** wots_pkFromSig. */
  function WotsPkFromSig(hash: Hash, seed: Bytes, p: Params, layer: nat, tree: nat, kp: nat, sig: seq<Bytes>,
                         m: Bytes): Bytes
    requires p.lgw in {1, 2, 4, 8} && |m| == N && p.Len() <= |sig|
  {
    AHash(hash, seed, Addr(layer, tree, WOTS_PK, kp, 0, 0),
          ChainEnds(hash, seed, p, layer, tree, kp, sig, m, p.Len()))
  }

  /**
   * The node n levels above `leaf`. `a` carries the tree's address, `pos` the global index whose shifts are the
   * node indices, `idx` the local index whose bits order the two children.
   */
  function PathUp(hash: Hash, seed: Bytes, a: Addr, pos: nat, idx: nat, leaf: Bytes, auth: seq<Bytes>, n: nat): Bytes
    requires n <= |auth|
  {
    if n == 0 then leaf
    else
      var node := PathUp(hash, seed, a, pos, idx, leaf, auth, n - 1);
      var at := a.(w2 := n, w3 := Shr(pos, n));
      if Shr(idx, n - 1) % 2 == 0 then AHash(hash, seed, at, node + auth[n - 1])
      else AHash(hash, seed, at, auth[n - 1] + node)
  }

  lemma PathUpLength(hash: Hash, seed: Bytes, a: Addr, pos: nat, idx: nat, leaf: Bytes, auth: seq<Bytes>, n: nat)
    requires n <= |auth| && |leaf| == N
    ensures |PathUp(hash, seed, a, pos, idx, leaf, auth, n)| == N
  {
  }

  /** xmss_pkFromSig. */
  function XmssPkFromSig(hash: Hash, seed: Bytes, p: Params, layer: nat, tree: nat, idx: nat, wots: seq<Bytes>,
                         auth: seq<Bytes>, m: Bytes): (r: Bytes)
    requires p.lgw in {1, 2, 4, 8} && |m| == N && p.Len() <= |wots|
    ensures |r| == N
  {
    var leaf := WotsPkFromSig(hash, seed, p, layer, tree, idx, wots, m);
    PathUpLength(hash, seed, Addr(layer, tree, TREE, 0, 0, 0), idx, idx, leaf, auth, |auth|);
    PathUp(hash, seed, Addr(layer, tree, TREE, 0, 0, 0), idx, idx, leaf, auth, |auth|)
  }

  // ---- FORS ----------------------------------------------------------------

  function ForsAddr(tree: nat, kp: nat): Addr { Addr(0, tree, FORS_TREE, kp, 0, 0) }

  /** A revealed FORS secret and its path. */
  datatype Group = Group(sk: Bytes, auth: seq<Bytes>)

  /** The global index of a leaf of FORS tree i. */
  function ForsPos(p: Params, i: nat, idx: nat): nat { i * Pow2(p.a) + idx }

  /** Root of FORS tree i from its opened secret and path. */
  function ForsRoot(hash: Hash, seed: Bytes, p: Params, tree: nat, kp: nat, g: Group, i: nat, idx: nat): Bytes
  {
    var a := ForsAddr(tree, kp);
    var pos := ForsPos(p, i, idx);
    PathUp(hash, seed, a, pos, idx, AHash(hash, seed, a.(w3 := pos), g.sk), g.auth, |g.auth|)
  }

  /** The first n roots, concatenated. */
  function ForsRoots(hash: Hash, seed: Bytes, p: Params, tree: nat, kp: nat, groups: seq<Group>, indices: seq<nat>,
                     n: nat): Bytes
    requires n <= |groups| && n <= |indices|
  {
    if n == 0 then []
    else
      ForsRoots(hash, seed, p, tree, kp, groups, indices, n - 1)
      + ForsRoot(hash, seed, p, tree, kp, groups[n - 1], n - 1, indices[n - 1])
  }

  /** fors_pkFromSig. */
  function ForsPkFromSig(hash: Hash, seed: Bytes, p: Params, tree: nat, kp: nat, groups: seq<Group>, indices: seq<nat>)
    : (r: Bytes)
    requires |groups| == |indices|
    ensures |r| == N
  {
    AHash(hash, seed, Addr(0, tree, FORS_ROOTS, kp, 0, 0),
          ForsRoots(hash, seed, p, tree, kp, groups, indices, |groups|))
  }

  // ---- the digest and the hypertree ----------------------------------------

  /** H_msg: an inner digest, then one MGF1 block cut to m bytes. */
  function HMsg(hash: Hash, p: Params, r: Bytes, pk: PublicKey, message: Bytes): (d: Bytes)
    requires p.m <= 32
    ensures |d| == p.m
  {
    hash(r + pk.seed + hash(r + pk.seed + pk.root + message) + ToBe(0, 4))[..p.m]
  }

  /** M' for the empty context. */
  function ContextPrefixed(message: Bytes): Bytes { [0, 0] + message }

  /** The FORS part of the digest. */
  function Md(p: Params, digest: Bytes): (md: Bytes)
    requires p.WellFormed() && |digest| == p.m
    ensures p.a * p.k <= 8 * |md|
  {
    DigestParts(p);
    digest[..p.MdLen()]
  }

  function IdxTree(p: Params, digest: Bytes): nat
    requires p.WellFormed() && |digest| == p.m
  {
    DigestParts(p);
    if p.IdxTreeBits() == 0 then 0
    else Low(Be(digest[p.MdLen()..p.MdLen() + p.IdxTreeLen()]), p.IdxTreeBits())
  }

  function IdxLeaf(p: Params, digest: Bytes): nat
    requires p.WellFormed() && |digest| == p.m
  {
    DigestParts(p);
    Low(Be(digest[p.MdLen() + p.IdxTreeLen()..]), p.hp)
  }

  /** Tree address in force at a layer. */
  function LayerTree(p: Params, idxTree: nat, layer: nat): nat { Shr(idxTree, p.hp * layer) }

  /** Key pair address in force at a layer. */
  function LayerLeaf(p: Params, idxTree: nat, idxLeaf: nat, layer: nat): nat
  {
    if layer == 0 then idxLeaf else Low(Shr(idxTree, p.hp * (layer - 1)), p.hp)
  }

  /** One hypertree layer of a signature: WOTS+ values and an authentication path. */
  datatype Layer = Layer(wots: seq<Bytes>, auth: seq<Bytes>)

  /** A signature by its parts. */
  datatype Signature = Signature(randomness: Bytes, fors: seq<Group>, ht: seq<Layer>)

  predicate ElementSizes(xs: seq<Bytes>) { forall e :: e in xs ==> |e| == N }

  /** The set's number of elements everywhere, of any length. */
  predicate Fits(p: Params, sig: Signature)
    requires p.lgw > 0
  {
    |sig.fors| == p.k && (forall g :: g in sig.fors ==> |g.auth| == p.a) && |sig.ht| == p.d && LayersFit(p, sig.ht)
  }

  predicate LayersFit(p: Params, ht: seq<Layer>)
    requires p.lgw > 0
  {
    forall i: nat :: i < |ht| ==> |ht[i].wots| == p.Len() && |ht[i].auth| == p.hp
  }

  /** Every element is N bytes, as in a signature that comes from its wire form. */
  predicate Measured(sig: Signature)
  {
    && |sig.randomness| == N && (forall g :: g in sig.fors ==> |g.sk| == N && ElementSizes(g.auth))
    && LayersMeasured(sig.ht)
  }

  predicate LayersMeasured(ht: seq<Layer>)
  {
    forall i: nat :: i < |ht| ==> ElementSizes(ht[i].wots) && ElementSizes(ht[i].auth)
  }

  /** The node entering hypertree layer n. */
  function HtNode(hash: Hash, p: Params, seed: Bytes, ht: seq<Layer>, idxTree: nat, idxLeaf: nat, pkFors: Bytes, n: nat)
    : (r: Bytes)
    requires p.lgw in {1, 2, 4, 8} && LayersFit(p, ht) && |pkFors| == N && n <= |ht|
    ensures |r| == N
  {
    if n == 0 then pkFors
    else
      var layer := n - 1;
      XmssPkFromSig(hash, seed, p, layer, LayerTree(p, idxTree, layer), LayerLeaf(p, idxTree, idxLeaf, layer),
                    ht[layer].wots, ht[layer].auth, HtNode(hash, p, seed, ht, idxTree, idxLeaf, pkFors, layer))
  }

  /** Which leaf of each FORS tree the digest opens. */
  function ForsIndices(p: Params, digest: Bytes): (r: seq<nat>)
    requires p.WellFormed() && |digest| == p.m
    ensures |r| == p.k
  {
    Base2b(Md(p, digest), p.a, p.k)
  }

  /** The hypertree root a signature implies. */
  function CandidateRoot(hash: Hash, p: Params, pk: PublicKey, sig: Signature, message: Bytes): (r: Bytes)
    requires p.WellFormed() && Fits(p, sig)
    ensures |r| == N
  {
    RootFromDigest(hash, p, pk, sig, HMsg(hash, p, sig.randomness, pk, ContextPrefixed(message)))
  }

  function RootFromDigest(hash: Hash, p: Params, pk: PublicKey, sig: Signature, digest: Bytes): (r: Bytes)
    requires p.WellFormed() && Fits(p, sig) && |digest| == p.m
    ensures |r| == N
  {
    var tree, leaf := IdxTree(p, digest), IdxLeaf(p, digest);
    HtNode(hash, p, pk.seed, sig.ht, tree, leaf,
           ForsPkFromSig(hash, pk.seed, p, tree, leaf, sig.fors, ForsIndices(p, digest)), |sig.ht|)
  }

  /** verify. */
  predicate Verifies(hash: Hash, p: Params, pk: PublicKey, sig: Signature, message: Bytes)
    requires p.WellFormed() && Fits(p, sig)
  {
    CandidateRoot(hash, p, pk, sig, message) == pk.root
  }
}
