/** The SLH-DSA verifier as a sequence of emitter calls, phase by phase, for any parameter set. */
module SlhProgram {
  import opened Arith
  import opened Bytes
  import opened Lists
  import opened Numbers
  import opened Machine
  import opened Params
  import opened Adrs
  import opened Frames
  import opened Emission
  import opened Reference

  // ---- composite helpers ---------------------------------------------------

  function Discard(s: Slot): seq<Macro> { [Roll(s), DropTop] }

  /** Append little-endian bytes k - 1 .. 0 to the accumulator, one at a time. */
  function ReverseBytes(k: nat): seq<Macro>
  {
    if k == 0 then []
    else [Swap, Dup, Substr(k - 1, k)] + [RollDepth(2), Swap, Cat] + ReverseBytes(k - 1)
  }

  /** The number on top as `width` big-endian bytes. */
  function BeBytes(width: nat): seq<Macro>
  {
    if width <= 1 then [Num2Bin(width)]
    else [Num2Bin(width), Dup, Substr(width - 1, width)] + ReverseBytes(width - 1) + [Nip]
  }

  /** One Horner step over byte i of a slot. */
  function BeIntStep(s: Slot, i: nat): seq<Macro>
  {
    [Number(256), BinaryNum(Mul), Pick(s), Substr(i, i + 1)] + [Data([0]), Cat, Bin2Num, BinaryNum(Add)]
  }

  function BeIntSteps(s: Slot, start: nat, len: nat): seq<Macro>
  {
    if len == 0 then [] else BeIntSteps(s, start, len - 1) + BeIntStep(s, start + len - 1)
  }

  /** Bytes [start, start + len) of a slot as a big-endian integer; a field that would not fit 63 bits is refused. */
  function BeInt(s: Slot, start: nat, len: nat): seq<Macro>
  {
    if 0 < len <= 7 then [Number(0)] + BeIntSteps(s, start, len) else [Refuse]
  }

  /** Divide by 2^shift, or nothing at all for a zero shift. */
  function ShiftDown(shift: nat): seq<Macro>
  {
    if shift > 0 then [Number(Pow2(shift)), BinaryNum(Div)] else []
  }

  function MaskTo(bits: nat): seq<Macro> { [Number(Pow2(bits)), BinaryNum(Mod)] }

  /** One byte of a slot, shifted down, masked to `bits` unless that is zero. */
  function ByteField(s: Slot, byte: nat, shift: nat, bits: nat): seq<Macro>
  {
    [Pick(s)] + [Substr(byte, byte + 1), Data([0]), Cat, Bin2Num]
    + ShiftDown(shift)
    + (if bits > 0 then MaskTo(bits) else [])
  }

  /** The i-th lgw-bit digit of a slot; the mask is skipped for the first digit of a byte. */
  function DigitAt(p: Params, s: Slot, i: nat): seq<Macro>
    requires p.lgw in {1, 2, 4, 8}
  {
    var perByte := 8 / p.lgw;
    var pos := i % perByte;
    ByteField(s, i / perByte, DigitShift(p, pos), if pos > 0 then p.lgw else 0)
  }

  function DigitShift(p: Params, pos: nat): nat
    requires p.lgw in {1, 2, 4, 8} && pos < 8 / p.lgw
  {
    MulMono(pos + 1, 8 / p.lgw, p.lgw);
    8 - p.lgw * (pos + 1)
  }

  /** The eight tree address bytes; a constant when there is only one tree. */
  function TreeBytes(p: Params, s: Slot): seq<Macro>
    requires p.d > 0
  {
    if p.IdxTreeBits() == 0 then [Data(Zeros(8))] else [Pick(s)] + BeBytes(8)
  }

  /** Prefix on top, message beneath: Trunc_n(SHA-256(prefix || message)). */
  function FinishHash(): seq<Macro> { [Swap, Cat, Sha256, Substr(0, N)] }

  // ---- phases --------------------------------------------------------------

  function HMsgPhase(p: Params, pk: PublicKey): seq<Macro>
  {
    [Fetch(R), Dup, Data(pk.seed + pk.root + [0, 0]), Cat, Roll(D), Cat, Sha256]
    + ([Swap, Data(pk.seed), Cat, Swap, Cat]
       + [Data(ToBe(0, 4)), Cat, Sha256, Substr(0, p.m), NameTop(Digest)])
  }

  /** The low `bits` bits of a big-endian digest field. */
  function DigestIndex(start: nat, len: nat, bits: nat): seq<Macro>
  {
    BeInt(Digest, start, len) + MaskTo(bits)
  }

  function IndicesPhase(p: Params): seq<Macro>
    requires p.d > 0
  {
    (if p.IdxTreeBits() == 0 then [Number(0)] else DigestIndex(p.MdLen(), p.IdxTreeLen(), p.IdxTreeBits()))
    + [NameTop(Tree)]
    + DigestIndex(p.MdLen() + p.IdxTreeLen(), p.IdxLeafLen(), p.hp)
    + [NameTop(Leaf)]
  }

  /** pad || layer || treeAddress. */
  function ContextBase(p: Params, pk: PublicKey, layer: nat, tree: Slot): seq<Macro>
    requires p.d > 0
  {
    [Data(HashPad(pk.seed) + [layer % 256])] + TreeBytes(p, tree) + [Cat]
  }

  /** .. || type || keyPairAddress. */
  function ContextTail(ty: Bytes): seq<Macro>
  {
    [Data(ty), Cat, Pick(Leaf)] + BeBytes(4) + [Cat]
  }

  /** pad || layer || treeAddress || type || keyPairAddress for the FORS contexts, then zero words. */
  function HashContext(p: Params, pk: PublicKey, layer: nat, ty: nat, words: nat): seq<Macro>
    requires p.d > 0
  {
    ContextBase(p, pk, layer, Tree) + ContextTail([ty % 256]) + ZeroWords(words)
  }

  function ZeroWords(words: nat): seq<Macro>
  {
    if words == 0 then [] else ZeroWords(words - 1) + [Data(Zeros(4)), Cat]
  }

  /** H(prefix || a || b), the operand order chosen by a bit of a run-time index. */
  function MerkleStep(s: Slot, bit: nat): seq<Macro>
  {
    [NameTop(Pfx), Roll(Node), Roll(Auth), Pick(s)] + ShiftDown(bit) + [Number(2), BinaryNum(Mod)]
    + [Gate([Swap]), Cat, Cat, Sha256, Substr(0, N), NameTop(Node)]
  }

  /** Fetch the sibling and build the address of the parent. */
  function PathPrefix(ctx: Slot, pos: Slot, width: nat, level: nat): seq<Macro>
    requires width <= 4
  {
    [Fetch(Auth), Pick(pos), Number(Pow2(level + 1)), BinaryNum(Div)] + BeBytes(width)
    + [Pick(ctx), Data(ToBe(level + 1, 4) + Zeros(4 - width)), Cat, Swap, Cat]
  }

  /** One level of a path. */
  function PathLevel(ctx: Slot, pos: Slot, bits: Slot, width: nat, level: nat): seq<Macro>
    requires width <= 4
  {
    PathPrefix(ctx, pos, width, level) + MerkleStep(bits, level)
  }

  function PathLevels(ctx: Slot, pos: Slot, bits: Slot, width: nat, n: nat): seq<Macro>
    requires width <= 4
  {
    if n == 0 then [] else PathLevels(ctx, pos, bits, width, n - 1) + PathLevel(ctx, pos, bits, width, n - 1)
  }

  /** indices[i] out of the digest, through a window that may be wider than the field but not leave the digest. */
  function ForsIndex(p: Params, i: nat): seq<Macro>
    requires p.a > 0
  {
    if p.ForsByte(i) + p.ForsFieldBytes(i) <= p.m then
      WindowField(p.ForsByte(i), p.ForsFieldBytes(i), ForsShift(p, i), p.a)
    else [Refuse]
  }

  function WindowField(byte: nat, bytes: nat, shift: nat, bits: nat): seq<Macro>
  {
    BeInt(Digest, byte, bytes) + ShiftDown(shift) + MaskTo(bits) + [NameTop(Idx)]
  }

  function ForsShift(p: Params, i: nat): nat
  {
    CeilDivBounds(p.a + i * p.a % 8, 8);
    p.ForsFieldBytes(i) * 8 - p.a - i * p.a % 8
  }

  /** The global leaf index i * 2^a + indices[i]. */
  function ForsPosition(p: Params, i: nat): seq<Macro>
  {
    [Pick(Idx), Number(i * Pow2(p.a)), BinaryNum(Add), NameTop(Lx)]
  }

  function ForsLeaf(width: nat): seq<Macro>
    requires width <= 4
  {
    [Fetch(Sk), Pick(Hcf), Data(Zeros(4 + (4 - width))), Cat, Pick(Lx)] + BeBytes(width) + [Cat]
    + FinishHash() + [NameTop(Node)]
  }

  /** Index, position and leaf of tree i. */
  function ForsOpen(p: Params, i: nat): seq<Macro>
    requires Sized(p)
  {
    ForsIndex(p, i) + ForsPosition(p, i) + ForsLeaf(p.ForsIndexWidth())
  }

  function ForsClose(): seq<Macro>
  {
    [Roll(Racc), Swap, Cat, NameTop(Racc)] + Discard(Lx) + Discard(Idx)
  }

  function ForsTree(p: Params, i: nat): seq<Macro>
    requires Sized(p)
  {
    ForsOpen(p, i) + PathLevels(Hcf, Lx, Idx, p.ForsIndexWidth(), p.a) + ForsClose()
  }

  function ForsTrees(p: Params, n: nat): seq<Macro>
    requires Sized(p)
  {
    if n == 0 then [] else ForsTrees(p, n - 1) + ForsTree(p, n - 1)
  }

  function ForsContexts(p: Params, pk: PublicKey): seq<Macro>
    requires p.d > 0
  {
    HashContext(p, pk, 0, FORS_TREE, 0) + [NameTop(Hcf)] + HashContext(p, pk, 0, FORS_ROOTS, 2) + [NameTop(Racc)]
  }

  function ForsEnd(): seq<Macro>
  {
    [Roll(Racc), Sha256, Substr(0, N), NameTop(Node)] + Discard(Hcf) + Discard(Digest)
  }

  function ForsPhase(p: Params, pk: PublicKey): seq<Macro>
    requires Sized(p)
  {
    ForsContexts(p, pk) + ForsTrees(p, p.k) + ForsEnd()
  }

  // ---- WOTS+ ---------------------------------------------------------------

  function ChecksumSteps(p: Params, n: nat): seq<Macro>
    requires p.lgw in {1, 2, 4, 8}
  {
    if n == 0 then []
    else
      ChecksumSteps(p, n - 1) + DigitAt(p, Node, n - 1)
      + [Number(p.W() - 1), Swap, BinaryNum(Sub), BinaryNum(Add), NameTop(Csum)]
  }

  /** Digit i: re-read from the node, or shifted out of the checksum. */
  function ChainDigit(p: Params, i: nat): seq<Macro>
    requires p.lgw in {1, 2, 4, 8} && i < p.Len()
  {
    if i < p.Len1() then DigitAt(p, Node, i)
    else
      var j := i - p.Len1();
      [Pick(Csum)] + ShiftDown(ChecksumShift(p, j)) + (if j > 0 then MaskTo(p.lgw) else [])
  }

  function ChecksumShift(p: Params, j: nat): nat
    requires p.lgw in {1, 2, 4, 8} && j < p.Len2()
  {
    MulMono(j + 1, p.Len2(), p.lgw);
    p.CsumBits() - p.lgw * (j + 1)
  }

  /** One emitted chain step, gated on digit <= step. */
  function ChainStep(step: nat): seq<Macro>
  {
    [Over, Number(step), BinaryNum(LessThanOrEqual),
     Gate([Pick(Hcwi), Data([step % 256]), Cat, Swap, Cat, Sha256, Substr(0, N), NameTop(X)])]
  }

  function ChainSteps(n: nat): seq<Macro>
  {
    if n == 0 then [] else ChainSteps(n - 1) + ChainStep(n - 1)
  }

  function ChainOpen(p: Params, i: nat): seq<Macro>
    requires p.lgw in {1, 2, 4, 8} && i < p.Len()
  {
    ChainDigit(p, i) + [NameTop(D), Pick(Hcw), Data(ToBe(i, 4) + Zeros(3)), Cat, NameTop(Hcwi), Roll(D), Fetch(X)]
  }

  function ChainClose(): seq<Macro>
  {
    Discard(D) + Discard(Hcwi) + [Roll(Acc), Swap, Cat, NameTop(Acc)]
  }

  function ChainPhase(p: Params, i: nat): seq<Macro>
    requires p.lgw in {1, 2, 4, 8} && i < p.Len()
  {
    ChainOpen(p, i) + ChainSteps(p.W() - 1) + ChainClose()
  }

  function ChainPhases(p: Params, n: nat): seq<Macro>
    requires p.lgw in {1, 2, 4, 8} && n <= p.Len()
  {
    if n == 0 then [] else ChainPhases(p, n - 1) + ChainPhase(p, n - 1)
  }

  function WotsOpen(p: Params): seq<Macro>
    requires p.lgw in {1, 2, 4, 8}
  {
    [Number(0), NameTop(Csum)] + ChecksumSteps(p, p.Len1()) + [Pick(Hcp), NameTop(Acc)]
  }

  function WotsClose(): seq<Macro>
  {
    [Roll(Acc), Sha256, Substr(0, N), NameTop(Wpk)]
    + (Discard(Node) + Discard(Csum) + Discard(Hcw) + Discard(Hcp)) + [NameTop(Node)]
  }

  function WotsPhase(p: Params): seq<Macro>
    requires p.lgw in {1, 2, 4, 8}
  {
    WotsOpen(p) + ChainPhases(p, p.Len()) + WotsClose()
  }

  // ---- hypertree -----------------------------------------------------------

  function LayerIndices(p: Params, layer: nat): seq<Macro>
  {
    if layer == 0 then [Pick(Tree), NameTop(Ltree), Pick(Leaf), NameTop(Lleaf)]
    else
      [Pick(Tree), Number(Pow2(p.hp * layer)), BinaryNum(Div), NameTop(Ltree)]
      + [Pick(Tree), Number(Pow2(p.hp * (layer - 1))), BinaryNum(Div)] + MaskTo(p.hp) + [NameTop(Lleaf)]
  }

  /** The three contexts that share a base. */
  function DerivedContexts(): seq<Macro>
  {
    [Pick(Hcb), Data([WOTS_HASH]), Cat, Pick(Kp4), Cat, NameTop(Hcw)]
    + [Pick(Hcb), Data([WOTS_PK]), Cat, Pick(Kp4), Cat, Data(Zeros(8)), Cat, NameTop(Hcp)]
    + [Pick(Hcb), Data([TREE]), Cat, Data(Zeros(4)), Cat, NameTop(Hct)]
  }

  function LayerContexts(p: Params, pk: PublicKey, layer: nat): seq<Macro>
    requires p.d > 0
  {
    ContextBase(p, pk, layer, Ltree) + [NameTop(Hcb)]
    + ([Pick(Lleaf)] + BeBytes(4) + [NameTop(Kp4)])
    + DerivedContexts()
    + Discard(Hcb) + Discard(Kp4)
  }

  function LayerEnd(): seq<Macro>
  {
    Discard(Hct) + Discard(Ltree) + Discard(Lleaf)
  }

  function LayerPhase(p: Params, pk: PublicKey, layer: nat): seq<Macro>
    requires Sized(p)
  {
    LayerIndices(p, layer) + LayerContexts(p, pk, layer) + WotsPhase(p)
    + PathLevels(Hct, Lleaf, Lleaf, p.XmssIndexWidth(), p.hp)
    + LayerEnd()
  }

  function LayerPhases(p: Params, pk: PublicKey, n: nat): seq<Macro>
    requires Sized(p)
  {
    if n == 0 then [] else LayerPhases(p, pk, n - 1) + LayerPhase(p, pk, n - 1)
  }

  /** Everything up to the closing checks. */
  function BodyPhases(p: Params, pk: PublicKey): seq<Macro>
    requires Sized(p)
  {
    HMsgPhase(p, pk) + IndicesPhase(p) + ForsPhase(p, pk) + LayerPhases(p, pk, p.d) + Discard(Tree) + Discard(Leaf)
  }

  /** Emit a body, check what it consumed and left, then compare the node it leaves with a pinned root. */
  function EmitChecked(blobs: seq<nat>, body: seq<Macro>, elements: nat, root: Bytes, e: Em): Option<Em>
  {
    match EmitAll(blobs, body, e)
    case None => None
    case Some(b) =>
      if b.next == elements && b.pending == 0 && b.f == Cons(Node, Nil) then
        EmitAll(blobs, [Data(root), Equal], b)
      else None
  }

  /** The generator proper. */
  function EmitBody(p: Params, pk: PublicKey, blobs: seq<nat>, e: Em): Option<Em>
    requires Sized(p)
  {
    EmitChecked(blobs, BodyPhases(p, pk), p.SigElements(), pk.root, e)
  }

  function Prologue(count: nat): seq<Op>
  {
    if count == 0 then [] else [OpToAltStack] + Prologue(count - 1)
  }

  /** The generator's state once the message is on the stack: one named entry, nothing fetched. */
  function Begin(code: seq<Op>): Em { Em(code, Cons(D, Nil), 0, 0, 0) }

  /** Code and recorded peak of the bare verifier. */
  function EmitVerify(p: Params, pk: PublicKey, blobs: seq<nat>): Option<Em>
    requires Sized(p)
  {
    EmitBody(p, pk, blobs, Begin(Prologue(|blobs|)))
  }
}
