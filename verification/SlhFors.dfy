/** H_msg, the index split and the FORS phase. */
module SlhFors {
  import opened Arith
  import opened Bytes
  import opened Lists
  import opened Numbers
  import opened Machine
  import opened Params
  import opened Adrs
  import opened Frames
  import opened Emission
  import opened EvalSteps
  import opened Reference
  import opened SlhProgram
  import opened SlhHelpers
  import opened SlhPath

  // ---- H_msg ---------------------------------------------------------------

  /** The inner digest, over randomness, key and message. */
  lemma InnerHashOk(h: Hash, sig: seq<Bytes>, pk: PublicKey, msg: Bytes, t: NS, el: nat)
    requires el < |sig|
    ensures var r := Elem(sig, el);
            Eval(h, sig, [Fetch(R), Dup, Data(pk.seed + pk.root + [0, 0]), Cat, Roll(D), Cat, Sha256],
                 St(Cons(Item(D, Blob(msg)), t), el))
            == St(Cons(Tr(Blob(h(r + pk.seed + pk.root + ContextPrefixed(msg)))), Cons(Item(R, Blob(r)), t)), el + 1)
  {
    hide Eval, Do, Elem, Find, Remove;
    SequenceRules(h, sig);
    DisplayRules(h, sig);
    ShuffleRules(h, sig);
    NamingRules(h, sig);
    BytesRules(h, sig);
    var r := Elem(sig, el);
    assert r + (pk.seed + pk.root + [0, 0]) + msg == r + pk.seed + pk.root + ContextPrefixed(msg);
  }

  /** The outer digest, cut to m bytes. */
  lemma OuterHashOk(h: Hash, sig: seq<Bytes>, r: Bytes, seed: Bytes, inner: Bytes, m: nat, t: NS, el: nat)
    requires m <= 32
    ensures Eval(h, sig, [Swap, Data(seed), Cat, Swap, Cat] + [Data(ToBe(0, 4)), Cat, Sha256, Substr(0, m), NameTop(Digest)],
                 St(Cons(Tr(Blob(inner)), Cons(Item(R, Blob(r)), t)), el))
            == St(Cons(Item(Digest, Blob(h(r + seed + inner + ToBe(0, 4))[..m])), t), el)
  {
    hide Eval, Do, ToBe;
    SequenceRules(h, sig);
    DisplayRules(h, sig);
    ShuffleRules(h, sig);
    NamingRules(h, sig);
    BytesRules(h, sig);
    var d := h(r + seed + inner + ToBe(0, 4));
    assert d[0..m] == d[..m];
  }

  lemma HMsgPhaseOk(h: Hash, sig: seq<Bytes>, p: Params, pk: PublicKey, msg: Bytes, t: NS, el: nat)
    requires p.m <= 32 && el < |sig|
    ensures Eval(h, sig, HMsgPhase(p, pk), St(Cons(Item(D, Blob(msg)), t), el))
            == St(Cons(Item(Digest, Blob(HMsg(h, p, Elem(sig, el), pk, ContextPrefixed(msg)))), t), el + 1)
  {
    hide Eval, Elem, ToBe;
    var r := Elem(sig, el);
    InnerHashOk(h, sig, pk, msg, t, el);
    OuterHashOk(h, sig, r, pk.seed, h(r + pk.seed + pk.root + ContextPrefixed(msg)), p.m, t, el + 1);
    EvalAppend(h, sig, [Fetch(R), Dup, Data(pk.seed + pk.root + [0, 0]), Cat, Roll(D), Cat, Sha256],
               [Swap, Data(pk.seed), Cat, Swap, Cat] + [Data(ToBe(0, 4)), Cat, Sha256, Substr(0, p.m), NameTop(Digest)],
               St(Cons(Item(D, Blob(msg)), t), el));
  }

  // ---- indices -------------------------------------------------------------

  lemma DigestIndexOk(h: Hash, sig: seq<Bytes>, d: Bytes, start: nat, len: nat, bits: nat, t: NS, el: nat)
    requires Find(t, Digest) == Some(Blob(d)) && start + len <= |d| <= 32 && 0 < len <= 7 && bits <= 56
    ensures Eval(h, sig, DigestIndex(start, len, bits), St(t, el))
            == St(Cons(Tr(Num(Low(Be(d[start..start + len]), bits))), t), el)
  {
    hide Eval, Do, BeInt, MaskTo, Low;
    SequenceRules(h, sig);
    BeIntOk(h, sig, Digest, d, start, len, t, el);
    PowerFits(56);
    MaskToOk(h, sig, Be(d[start..start + len]), bits, t, el);
  }

  lemma TwoIndices(h: Hash, sig: seq<Bytes>, a: seq<Macro>, b: seq<Macro>, tree: nat, leaf: nat, t: NS, el: nat)
    requires Eval(h, sig, a, St(t, el)) == St(Cons(Tr(Num(tree)), t), el)
    requires var t2 := Cons(Item(Tree, Num(tree)), t);
             Eval(h, sig, b, St(t2, el)) == St(Cons(Tr(Num(leaf)), t2), el)
    ensures Eval(h, sig, a + [NameTop(Tree)] + b + [NameTop(Leaf)], St(t, el))
            == St(Cons(Item(Leaf, Num(leaf)), Cons(Item(Tree, Num(tree)), t)), el)
  {
    hide Eval, Do;
    SequenceRules(h, sig);
    NamingRules(h, sig);
  }

  lemma TreeIndexOk(h: Hash, sig: seq<Bytes>, p: Params, d: Bytes, t: NS, el: nat)
    requires p.d > 0 && p.WellFormed() && |d| == p.m && Find(t, Digest) == Some(Blob(d))
    ensures Eval(h, sig, if p.IdxTreeBits() == 0 then [Number(0)]
                         else DigestIndex(p.MdLen(), p.IdxTreeLen(), p.IdxTreeBits()), St(t, el))
            == St(Cons(Tr(Num(IdxTree(p, d))), t), el)
  {
    TreeBits(p);
    DigestParts(p);
    hide Eval, Do, DigestIndex, Low, CeilDiv, Params.MdLen, Params.IdxTreeLen, Params.IdxTreeBits, Params.IdxLeafLen;
    hide Params.WellFormed;
    if p.IdxTreeBits() > 0 {
      DigestIndexOk(h, sig, d, p.MdLen(), p.IdxTreeLen(), p.IdxTreeBits(), t, el);
    } else {
      SequenceRules(h, sig);
      ShuffleRules(h, sig);
    }
  }

  lemma LeafIndexOk(h: Hash, sig: seq<Bytes>, p: Params, d: Bytes, t: NS, el: nat)
    requires p.WellFormed() && |d| == p.m && Find(t, Digest) == Some(Blob(d))
    ensures Eval(h, sig, DigestIndex(p.MdLen() + p.IdxTreeLen(), p.IdxLeafLen(), p.hp), St(t, el))
            == St(Cons(Tr(Num(IdxLeaf(p, d))), t), el)
  {
    DigestParts(p);
    LeafBytes(p);
    IndexWidths(p);
    hide Eval, DigestIndex, Low, CeilDiv, Params.MdLen, Params.IdxTreeLen, Params.IdxLeafLen, Params.WellFormed;
    var at := p.MdLen() + p.IdxTreeLen();
    assert d[at..at + p.IdxLeafLen()] == d[at..];
    DigestIndexOk(h, sig, d, at, p.IdxLeafLen(), p.hp, t, el);
  }

  /** The two hypertree indices, carved out of the digest and named. */
  lemma IndicesPhaseOk(h: Hash, sig: seq<Bytes>, p: Params, d: Bytes, t: NS, el: nat)
    requires p.d > 0 && p.WellFormed() && |d| == p.m
    ensures var t1 := Cons(Item(Digest, Blob(d)), t);
            Eval(h, sig, IndicesPhase(p), St(t1, el))
            == St(Cons(Item(Leaf, Num(IdxLeaf(p, d))), Cons(Item(Tree, Num(IdxTree(p, d))), t1)), el)
  {
    hide Eval, DigestIndex, IdxTree, IdxLeaf, CeilDiv, Params.MdLen, Params.IdxTreeLen, Params.IdxTreeBits;
    hide Params.IdxLeafLen, Params.WellFormed;
    var t1 := Cons(Item(Digest, Blob(d)), t);
    TreeIndexOk(h, sig, p, d, t1, el);
    LeafIndexOk(h, sig, p, d, Cons(Item(Tree, Num(IdxTree(p, d))), t1), el);
    TwoIndices(h, sig,
               if p.IdxTreeBits() == 0 then [Number(0)]
               else DigestIndex(p.MdLen(), p.IdxTreeLen(), p.IdxTreeBits()),
               DigestIndex(p.MdLen() + p.IdxTreeLen(), p.IdxLeafLen(), p.hp),
               IdxTree(p, d), IdxLeaf(p, d), t1, el);
  }

  // ---- hash contexts -------------------------------------------------------

  /** Index values within the bounds the address words and the engine allow. */
  predicate SmallIndices(p: Params, tree: nat, leaf: nat)
    requires p.d > 0
  {
    tree < Pow2(63) && (p.IdxTreeBits() == 0 ==> tree == 0) && leaf < Pow2(31)
  }

  lemma {:induction false} ZeroWordsOk(h: Hash, sig: seq<Bytes>, c: Bytes, words: nat, t: NS, el: nat)
    ensures Eval(h, sig, ZeroWords(words), St(Cons(Tr(Blob(c)), t), el))
            == St(Cons(Tr(Blob(c + Zeros(4 * words))), t), el)
  {
    hide Eval, Do;
    SequenceRules(h, sig);
    ShuffleRules(h, sig);
    BytesRules(h, sig);
    if words == 0 {
      assert c + Zeros(0) == c;
    } else {
      ZeroWordsOk(h, sig, c, words - 1, t, el);
      assert c + Zeros(4 * (words - 1)) + Zeros(4) == c + Zeros(4 * words);
    }
  }

  lemma ContextBaseOk(h: Hash, sig: seq<Bytes>, p: Params, pk: PublicKey, layer: nat, s: Slot, tree: nat, t: NS, el: nat)
    requires p.d > 0 && tree < Pow2(63) && (p.IdxTreeBits() == 0 ==> tree == 0)
    requires Find(t, s) == Some(Num(tree)) && s != Transient
    ensures Eval(h, sig, ContextBase(p, pk, layer, s), St(t, el))
            == St(Cons(Tr(Blob(HashPad(pk.seed) + [layer % 256] + ToBe(tree, 8))), t), el)
  {
    hide Eval, Do, TreeBytes, ToBe, HashPad, Params.IdxTreeBits, Pow2;
    SequenceRules(h, sig);
    ShuffleRules(h, sig);
    NamingRules(h, sig);
    BytesRules(h, sig);
    TreeBytesOk(h, sig, p, s, tree, Cons(Tr(Blob(HashPad(pk.seed) + [layer % 256])), t), el);
  }

  lemma ContextTailOk(h: Hash, sig: seq<Bytes>, ty: Bytes, c: Bytes, leaf: nat, t: NS, el: nat)
    requires leaf < Pow2(31) && Find(t, Leaf) == Some(Num(leaf))
    ensures Eval(h, sig, ContextTail(ty), St(Cons(Tr(Blob(c)), t), el))
            == St(Cons(Tr(Blob(c + ty + ToBe(leaf, 4))), t), el)
  {
    hide Eval, Do, BeBytes, ToBe, Pow2;
    SequenceRules(h, sig);
    ShuffleRules(h, sig);
    NamingRules(h, sig);
    BytesRules(h, sig);
    BeBytesOk(h, sig, leaf, 4, Cons(Tr(Blob(c + ty)), t), el);
  }

  lemma HashContextOk(h: Hash, sig: seq<Bytes>, p: Params, pk: PublicKey, ty: nat, words: nat, tree: nat, leaf: nat,
                      t: NS, el: nat)
    requires p.d > 0 && SmallIndices(p, tree, leaf)
    requires Find(t, Tree) == Some(Num(tree)) && Find(t, Leaf) == Some(Num(leaf))
    ensures Eval(h, sig, HashContext(p, pk, 0, ty, words), St(t, el))
            == St(Cons(Tr(Blob(ContextBytes(pk.seed, Addr(0, tree, ty, leaf, 0, 0)) + Zeros(4 * words))), t), el)
  {
    hide Eval, ContextBase, ContextTail, ToBe, HashPad, ZeroWords, Zeros, Params.IdxTreeBits, Pow2, Find;
    SequenceRules(h, sig);
    ContextBaseOk(h, sig, p, pk, 0, Tree, tree, t, el);
    var b0 := HashPad(pk.seed) + [0 % 256] + ToBe(tree, 8);
    ContextTailOk(h, sig, [ty % 256], b0, leaf, t, el);
    ZeroWordsOk(h, sig, b0 + [ty % 256] + ToBe(leaf, 4), words, t, el);
  }

  // ---- one FORS tree -------------------------------------------------------

  /** The widened window returns the field base_2b defines on md. */
  lemma ForsIndexValue(p: Params, d: Bytes, i: nat)
    requires p.WellFormed() && |d| == p.m && i < p.k
    ensures p.a * i + p.a <= 8 * |Md(p, d)|
    ensures p.ForsByte(i) + p.ForsFieldBytes(i) <= |d|
    ensures Low(Shr(Be(d[p.ForsByte(i)..p.ForsByte(i) + p.ForsFieldBytes(i)]), ForsShift(p, i)), p.a)
            == Field(Md(p, d), p.a * i, p.a)
  {
    DigestParts(p);
    RecordFits(i, p.k, p.a);
    WindowPlace(p, i);
    hide Params.WellFormed, CeilDiv, Params.IdxTreeLen, Params.IdxLeafLen, Low, Shr, Field, Be;
    ForsWindow(d, p.MdLen(), p.a * i, p.a, p.ForsByte(i), p.ForsFieldBytes(i), p.a * i - 8 * p.ForsByte(i));
  }

  lemma WindowPlace(p: Params, i: nat)
    requires p.WellFormed() && i < p.k
    ensures p.ForsByte(i) + p.ForsFieldBytes(i) <= p.m
    ensures p.a * i == 8 * p.ForsByte(i) + p.a * i % 8
    ensures ForsShift(p, i) == p.ForsFieldBytes(i) * 8 - p.a - p.a * i % 8
    ensures p.a + p.a * i % 8 <= 8 * p.ForsFieldBytes(i)
  {
    hide *;
    WindowInside(p, i);
    assert p.a * i == i * p.a;
    WindowCovers(p, i, p.a * i);
  }

  lemma WindowInside(p: Params, i: nat)
    requires p.WellFormed() && i < p.k
    ensures p.ForsByte(i) + p.ForsFieldBytes(i) <= p.m
  {
    hide Params.ForsByte, Params.ForsFieldBytes, Params.ForsIndexWidth, Params.XmssIndexWidth;
    hide Params.MdLen, Params.IdxTreeLen, Params.IdxLeafLen, Pow2;
  }

  lemma WindowCovers(p: Params, i: nat, off: nat)
    requires off == i * p.a
    ensures off == 8 * p.ForsByte(i) + off % 8
    ensures ForsShift(p, i) == p.ForsFieldBytes(i) * 8 - p.a - off % 8
    ensures p.a + off % 8 <= 8 * p.ForsFieldBytes(i)
  {
    CeilDivBounds(p.a + off % 8, 8);
    DivBounds(off, 8);
    hide CeilDiv;
  }

  lemma ForsWindow(d: Bytes, mdLen: nat, off: nat, a: nat, byte: nat, bytes: nat, r: nat)
    requires mdLen <= |d| && off + a <= 8 * mdLen && byte + bytes <= |d|
    requires off == 8 * byte + r && r + a <= 8 * bytes
    ensures Low(Shr(Be(d[byte..byte + bytes]), bytes * 8 - a - r), a) == Field(d[..mdLen], off, a)
  {
    FieldPrefix(d, mdLen, off, a);
    FieldWindow(d, byte, byte + bytes, off, a);
  }

  lemma WindowFieldOk(h: Hash, sig: seq<Bytes>, d: Bytes, byte: nat, bytes: nat, shift: nat, bits: nat, t: NS, el: nat)
    requires Find(t, Digest) == Some(Blob(d)) && byte + bytes <= |d| <= 32 && 0 < bytes <= 7 && shift <= 56 && bits <= 56
    ensures Eval(h, sig, WindowField(byte, bytes, shift, bits), St(t, el))
            == St(Cons(Item(Idx, Num(Low(Shr(Be(d[byte..byte + bytes]), shift), bits))), t), el)
  {
    hide Eval, Do, BeInt, MaskTo, ShiftDown, Low, Shr, Pow2, Be;
    SequenceRules(h, sig);
    NamingRules(h, sig);
    PowerFits(56);
    BeIntOk(h, sig, Digest, d, byte, bytes, t, el);
    var v := Be(d[byte..byte + bytes]);
    ShiftDownOk(h, sig, v, shift, t, el);
    MaskToOk(h, sig, Shr(v, shift), bits, t, el);
  }

  lemma FieldBytesBound(p: Params, i: nat)
    requires p.a <= 30
    ensures 3 <= p.ForsFieldBytes(i) <= 5 && ForsShift(p, i) <= 40
  {
    CeilDivBounds(p.a + i * p.a % 8, 8);
  }

  lemma ForsPositionOk(h: Hash, sig: seq<Bytes>, p: Params, i: nat, idx: nat, t: NS, el: nat)
    requires ForsPos(p, i, idx) < NumLimit
    ensures Eval(h, sig, ForsPosition(p, i), St(Cons(Item(Idx, Num(idx)), t), el))
            == St(Cons(Item(Lx, Num(ForsPos(p, i, idx))), Cons(Item(Idx, Num(idx)), t)), el)
  {
    var base := i * Pow2(p.a);
    hide Eval, Do, Pow2;
    SequenceRules(h, sig);
    ShuffleRules(h, sig);
    NamingRules(h, sig);
    ArithRules(h, sig);
    assert idx + base == base + idx;
  }

  lemma ForsLeafRun(h: Hash, sig: seq<Bytes>, width: nat, c: Bytes, pos: nat, t: NS, el: nat)
    requires 1 <= width <= 4 && pos < Pow2(8 * width - 1)
    requires Find(t, Hcf) == Some(Blob(c)) && Find(t, Lx) == Some(Num(pos)) && el < |sig|
    ensures Eval(h, sig, ForsLeaf(width), St(t, el))
            == St(Cons(Item(Node, Blob(h(c + Zeros(4 + (4 - width)) + ToBe(pos, width) + Elem(sig, el))[..N])), t), el + 1)
  {
    hide Eval, Do, BeBytes, ToBe, FinishHash, Elem, Pow2, Zeros;
    SequenceRules(h, sig);
    DisplayRules(h, sig);
    ShuffleRules(h, sig);
    NamingRules(h, sig);
    BytesRules(h, sig);
    var below := Cons(Item(Sk, Blob(Elem(sig, el))), t);
    var c' := c + Zeros(4 + (4 - width));
    BeBytesOk(h, sig, pos, width, Cons(Tr(Blob(c')), below), el + 1);
    FinishHashOk(h, sig, Transient, c' + ToBe(pos, width), Sk, Elem(sig, el), t, el + 1);
  }

  /** The opened leaf: F over the revealed secret at the global leaf index. */
  lemma ForsLeafOk(h: Hash, sig: seq<Bytes>, width: nat, seed: Bytes, a: Addr, pos: nat, t: NS, el: nat)
    requires 1 <= width <= 4 && pos < Pow2(8 * width - 1) && a.w2 == 0
    requires Find(t, Hcf) == Some(Blob(ContextBytes(seed, a))) && Find(t, Lx) == Some(Num(pos))
    requires el < |sig|
    ensures Eval(h, sig, ForsLeaf(width), St(t, el))
            == St(Cons(Item(Node, Blob(AHash(h, seed, a.(w3 := pos), Elem(sig, el)))), t), el + 1)
  {
    hide Eval, ForsLeaf, ContextBytes, Elem, Find;
    ShrBound(pos, 0, width);
    assert Shr(pos, 0) == pos;
    ForsLeafPrefix(seed, a, pos, width);
    ForsLeafRun(h, sig, width, ContextBytes(seed, a), pos, t, el);
  }

  lemma ForsLeafPrefix(seed: Bytes, a: Addr, pos: nat, w: nat)
    requires 1 <= w <= 4 && ToBe(pos, 4) == Zeros(4 - w) + ToBe(pos, w) && a.w2 == 0
    ensures ContextBytes(seed, a) + Zeros(4 + (4 - w)) + ToBe(pos, w) == HashPad(seed) + Encode(a.(w3 := pos))
  {
    ContextEncodes(seed, a.(w3 := pos));
    SameContext(seed, a, 0, pos);
    ToBeZero(4);
    var c := ContextBytes(seed, a);
    assert c + Zeros(4 + (4 - w)) + ToBe(pos, w) == c + Zeros(4) + (Zeros(4 - w) + ToBe(pos, w));
  }

  // ---- all FORS trees ------------------------------------------------------

  /** A list of elements is what the signature holds from element `el` on. */
  ghost predicate ElemsAt(sig: seq<Bytes>, el: nat, xs: seq<Bytes>)
  {
    el + |xs| <= |sig| && forall j: nat :: j < |xs| ==> xs[j] == Elem(sig, el + j)
  }

  ghost predicate GroupAt(sig: seq<Bytes>, el: nat, g: Group)
  {
    el < |sig| && g.sk == Elem(sig, el) && ElemsAt(sig, el + 1, g.auth)
  }

  /** FORS groups of a + 1 elements each, in order from element `el`. */
  ghost predicate GroupsAt(sig: seq<Bytes>, el: nat, a: nat, groups: seq<Group>)
  {
    forall i: nat :: i < |groups| ==> |groups[i].auth| == a && GroupAt(sig, el + Span(1 + a, i), groups[i])
  }

  /** The window the emitter reads FORS index i through yields idx, and every number stays in range. */
  ghost predicate WindowReads(p: Params, d: Bytes, i: nat, idx: nat)
    requires Sized(p)
  {
    && p.ForsByte(i) + p.ForsFieldBytes(i) <= |d| == p.m <= 32 && 0 < p.ForsFieldBytes(i) <= 7 && ForsShift(p, i) <= 56
    && Low(Shr(Be(d[p.ForsByte(i)..p.ForsByte(i) + p.ForsFieldBytes(i)]), ForsShift(p, i)), p.a) == idx
    && PositionInRange(p, i, idx)
  }

  ghost predicate PositionInRange(p: Params, i: nat, idx: nat)
    requires Sized(p)
  {
    idx < NumLimit && ForsPos(p, i, idx) < NumLimit && ForsPos(p, i, idx) < Pow2(8 * p.ForsIndexWidth() - 1)
  }

  lemma WindowHolds(p: Params, d: Bytes, i: nat)
    requires p.WellFormed() && Sized(p) && |d| == p.m && i < p.k
    ensures WindowReads(p, d, i, ForsIndices(p, d)[i])
  {
    hide *;
    IndexWidths(p);
    ForsIndexValue(p, d, i);
    FieldBytesBound(p, i);
    IndexInMd(p, d, i, p.a * i);
    var idx := ForsIndices(p, d)[i];
    FieldBound(Md(p, d), p.a * i, p.a);
    PositionFits(p.k, p.a, i, idx, p.ForsIndexWidth());
    ReadsWhen(p, d, i, idx);
  }

  lemma IndexInMd(p: Params, d: Bytes, i: nat, off: nat)
    requires p.WellFormed() && |d| == p.m && i < p.k && off == p.a * i && off + p.a <= 8 * |Md(p, d)|
    ensures ForsIndices(p, d)[i] == Field(Md(p, d), off, p.a) && p.m <= 32
  {
    hide Md, Field;
  }

  lemma ReadsWhen(p: Params, d: Bytes, i: nat, idx: nat)
    requires Sized(p) && p.ForsByte(i) + p.ForsFieldBytes(i) <= |d| == p.m <= 32
    requires 0 < p.ForsFieldBytes(i) <= 7 && ForsShift(p, i) <= 56
    requires Low(Shr(Be(d[p.ForsByte(i)..p.ForsByte(i) + p.ForsFieldBytes(i)]), ForsShift(p, i)), p.a) == idx
    requires i * Pow2(p.a) + idx < Pow2(8 * p.ForsIndexWidth() - 1) && i * Pow2(p.a) + idx < NumLimit && idx < NumLimit
    ensures WindowReads(p, d, i, idx)
  {
    hide Low, Shr, Be, Sized, Pow2;
  }

  /** Positions stay within the width the index bytes are written with. */
  lemma PositionFits(k: nat, a: nat, i: nat, idx: nat, w: nat)
    requires 1 <= w <= 4 && k * Pow2(a) < Pow2(8 * w - 1) && i < k && idx < Pow2(a)
    ensures i * Pow2(a) + idx < Pow2(8 * w - 1) && i * Pow2(a) + idx < NumLimit && idx < NumLimit
  {
    hide Pow2;
    RecordFits(i, k, Pow2(a));
    Pow2Mono(8 * w - 1, 31);
    PowerFits(31);
  }

  lemma ForsIndexOk(h: Hash, sig: seq<Bytes>, p: Params, d: Bytes, i: nat, idx: nat, t: NS, el: nat)
    requires Sized(p) && WindowReads(p, d, i, idx) && Find(t, Digest) == Some(Blob(d))
    ensures Eval(h, sig, ForsIndex(p, i), St(t, el)) == St(Cons(Item(Idx, Num(idx)), t), el)
  {
    hide Eval, WindowField, Low, Shr, Params.ForsByte, Params.ForsFieldBytes, ForsShift, PositionInRange;
    WindowFieldOk(h, sig, d, p.ForsByte(i), p.ForsFieldBytes(i), ForsShift(p, i), p.a, t, el);
  }

  lemma ForsOpenOk(h: Hash, sig: seq<Bytes>, p: Params, d: Bytes, i: nat, idx: nat, seed: Bytes, a: Addr, t: NS, el: nat)
    requires Sized(p) && WindowReads(p, d, i, idx) && a.w2 == 0 && el < |sig|
    requires Find(t, Digest) == Some(Blob(d)) && Find(t, Hcf) == Some(Blob(ContextBytes(seed, a)))
    ensures var pos := ForsPos(p, i, idx);
            Eval(h, sig, ForsOpen(p, i), St(t, el))
            == St(Cons(Item(Node, Blob(AHash(h, seed, a.(w3 := pos), Elem(sig, el)))),
                       Cons(Item(Lx, Num(pos)), Cons(Item(Idx, Num(idx)), t))), el + 1)
  {
    hide Eval, ForsIndex, ForsPosition, ForsLeaf, ContextBytes, AHash, Elem, ForsPos, WindowReads, Pow2;
    hide Params.ForsIndexWidth;
    assert PositionInRange(p, i, idx) by { WindowInRange(p, d, i, idx); }
    var pos := ForsPos(p, i, idx);
    var t1 := Cons(Item(Idx, Num(idx)), t);
    var t2 := Cons(Item(Lx, Num(pos)), t1);
    assert Find(t1, Hcf) == Some(Blob(ContextBytes(seed, a)));
    assert Find(t2, Hcf) == Some(Blob(ContextBytes(seed, a)));
    ForsIndexOk(h, sig, p, d, i, idx, t, el);
    ForsPositionOk(h, sig, p, i, idx, t, el);
    ForsLeafOk(h, sig, p.ForsIndexWidth(), seed, a, pos, t2, el);
    EvalAppend(h, sig, ForsIndex(p, i), ForsPosition(p, i), St(t, el));
    EvalAppend(h, sig, ForsIndex(p, i) + ForsPosition(p, i), ForsLeaf(p.ForsIndexWidth()), St(t, el));
  }

  lemma WindowInRange(p: Params, d: Bytes, i: nat, idx: nat)
    requires Sized(p) && WindowReads(p, d, i, idx)
    ensures PositionInRange(p, i, idx)
  {
  }

  lemma ForsCloseOk(h: Hash, sig: seq<Bytes>, root: Bytes, pos: nat, idx: nat, racc: Bytes, t: NS, el: nat)
    ensures Eval(h, sig, ForsClose(),
                 St(Cons(Item(Node, Blob(root)), Cons(Item(Lx, Num(pos)), Cons(Item(Idx, Num(idx)),
                    Cons(Item(Racc, Blob(racc)), t)))), el))
            == St(Cons(Item(Racc, Blob(racc + root)), t), el)
  {
    hide Eval, Do;
    SequenceRules(h, sig);
    ShuffleRules(h, sig);
    NamingRules(h, sig);
    BytesRules(h, sig);
  }

  /** One tree: its root is appended to the accumulator and its temporaries are gone. */
  lemma ForsTreeOk(h: Hash, sig: seq<Bytes>, p: Params, seed: Bytes, d: Bytes, tree: nat, leaf: nat, i: nat, idx: nat,
                   g: Group, racc: Bytes, t: NS, el: nat)
    requires Sized(p) && WindowReads(p, d, i, idx) && |g.auth| == p.a && GroupAt(sig, el, g)
    requires Find(t, Digest) == Some(Blob(d)) && Find(t, Hcf) == Some(Blob(ContextBytes(seed, ForsAddr(tree, leaf))))
    ensures Eval(h, sig, ForsTree(p, i), St(Cons(Item(Racc, Blob(racc)), t), el))
            == St(Cons(Item(Racc, Blob(racc + ForsRoot(h, seed, p, tree, leaf, g, i, idx))), t), el + 1 + p.a)
  {
    hide Eval, Pow2, ForsOpen, ForsClose, PathLevels, ContextBytes, AHash, PathUp, Elem, ForsPos, WindowReads;
    hide Params.ForsIndexWidth;
    WindowInRange(p, d, i, idx);
    var base := Cons(Item(Racc, Blob(racc)), t);
    var a := ForsAddr(tree, leaf);
    var pos := ForsPos(p, i, idx);
    var t1 := Cons(Item(Idx, Num(idx)), base);
    var t2 := Cons(Item(Lx, Num(pos)), t1);
    assert Find(base, Hcf) == Find(t, Hcf) && Find(base, Digest) == Find(t, Digest);
    assert Find(t1, Hcf) == Find(t, Hcf) && Find(t1, Idx) == Some(Num(idx));
    assert Find(t2, Hcf) == Find(t, Hcf) && Find(t2, Idx) == Some(Num(idx)) && Find(t2, Lx) == Some(Num(pos));
    var leafNode := AHash(h, seed, a.(w3 := pos), g.sk);
    var root := PathUp(h, seed, a, pos, idx, leafNode, g.auth, p.a);
    ForsOpenOk(h, sig, p, d, i, idx, seed, a, base, el);
    PathLevelsOk(h, sig, Hcf, Lx, Idx, p.ForsIndexWidth(), p.a, seed, a, pos, idx, leafNode, g.auth, t2, el + 1);
    ForsCloseOk(h, sig, root, pos, idx, racc, t, el + 1 + p.a);
    var up := PathLevels(Hcf, Lx, Idx, p.ForsIndexWidth(), p.a);
    EvalAppend(h, sig, ForsOpen(p, i), up, St(base, el));
    EvalAppend(h, sig, ForsOpen(p, i) + up, ForsClose(), St(base, el));
  }

  /** All trees: the accumulator holds the reference's concatenated roots. */
  lemma {:induction false} ForsTreesOk(h: Hash, sig: seq<Bytes>, p: Params, seed: Bytes, d: Bytes, tree: nat, leaf: nat,
                                       groups: seq<Group>, indices: seq<nat>, racc: Bytes, t: NS, el: nat, n: nat)
    requires Sized(p) && n <= |groups| == |indices| && GroupsAt(sig, el, p.a, groups)
    requires forall i: nat :: i < |indices| ==> WindowReads(p, d, i, indices[i])
    requires Find(t, Digest) == Some(Blob(d)) && Find(t, Hcf) == Some(Blob(ContextBytes(seed, ForsAddr(tree, leaf))))
    ensures Eval(h, sig, ForsTrees(p, n), St(Cons(Item(Racc, Blob(racc)), t), el))
            == St(Cons(Item(Racc, Blob(racc + ForsRoots(h, seed, p, tree, leaf, groups, indices, n))), t),
                  el + Span(1 + p.a, n))
  {
    hide Sized, WindowReads, GroupAt, Eval, ContextBytes, ForsTree, ForsRoot, Find;
    var start := St(Cons(Item(Racc, Blob(racc)), t), el);
    if n == 0 {
      EvalNone(h, sig, start);
      assert racc + [] == racc;
    } else {
      var i := n - 1;
      ForsTreesOk(h, sig, p, seed, d, tree, leaf, groups, indices, racc, t, el, i);
      var roots := ForsRoots(h, seed, p, tree, leaf, groups, indices, i);
      var last := ForsRoot(h, seed, p, tree, leaf, groups[i], i, indices[i]);
      ForsTreeOk(h, sig, p, seed, d, tree, leaf, i, indices[i], groups[i], racc + roots, t, el + Span(1 + p.a, i));
      EvalAppend(h, sig, ForsTrees(p, i), ForsTree(p, i), start);
      assert racc + roots + last == racc + (roots + last);
    }
  }

  /** The stack the FORS phase starts from. */
  function ForsStart(d: Bytes, tree: nat, leaf: nat, t: NS): NS
  {
    Cons(Item(Leaf, Num(leaf)), Cons(Item(Tree, Num(tree)), Cons(Item(Digest, Blob(d)), t)))
  }

  /** The two hash contexts of the phase. */
  lemma ForsContextsOk(h: Hash, sig: seq<Bytes>, p: Params, pk: PublicKey, d: Bytes, tree: nat, leaf: nat, t: NS, el: nat)
    requires p.d > 0 && SmallIndices(p, tree, leaf)
    ensures var before := ForsStart(d, tree, leaf, t);
            var c := ContextBytes(pk.seed, ForsAddr(tree, leaf));
            var racc := HashPad(pk.seed) + Encode(Addr(0, tree, FORS_ROOTS, leaf, 0, 0));
            var t1 := Cons(Item(Hcf, Blob(c)), before);
            && Eval(h, sig, HashContext(p, pk, 0, FORS_TREE, 0), St(before, el)) == St(Cons(Tr(Blob(c)), before), el)
            && Eval(h, sig, HashContext(p, pk, 0, FORS_ROOTS, 2), St(t1, el)) == St(Cons(Tr(Blob(racc)), t1), el)
            && Find(t1, Digest) == Some(Blob(d)) && Find(t1, Hcf) == Some(Blob(c))
  {
    hide Eval, HashContext, ContextBytes, Encode, HashPad, SmallIndices, Params.IdxTreeBits;
    var before := ForsStart(d, tree, leaf, t);
    var c := ContextBytes(pk.seed, ForsAddr(tree, leaf));
    var t1 := Cons(Item(Hcf, Blob(c)), before);
    NamingRules(h, sig);
    assert c + Zeros(4 * 0) == c;
    HashContextOk(h, sig, p, pk, FORS_TREE, 0, tree, leaf, before, el);
    RootsPrefix(pk.seed, Addr(0, tree, FORS_ROOTS, leaf, 0, 0));
    HashContextOk(h, sig, p, pk, FORS_ROOTS, 2, tree, leaf, t1, el);
  }

  /** The whole FORS phase: PK_FORS becomes the node, and nothing else is left behind. */
  lemma ForsPhaseOk(h: Hash, sig: seq<Bytes>, p: Params, pk: PublicKey, d: Bytes, tree: nat, leaf: nat,
                    groups: seq<Group>, indices: seq<nat>, t: NS, el: nat)
    requires Sized(p) && SmallIndices(p, tree, leaf)
    requires p.k == |groups| == |indices| && GroupsAt(sig, el, p.a, groups)
    requires forall i: nat :: i < |indices| ==> WindowReads(p, d, i, indices[i])
    ensures Eval(h, sig, ForsPhase(p, pk), St(ForsStart(d, tree, leaf, t), el))
            == St(Cons(Item(Node, Blob(ForsPkFromSig(h, pk.seed, p, tree, leaf, groups, indices))),
                       Cons(Item(Leaf, Num(leaf)), Cons(Item(Tree, Num(tree)), t))),
                  el + Span(1 + p.a, p.k))
  {
    hide *;
    SizedLayers(p);
    var c := ContextBytes(pk.seed, ForsAddr(tree, leaf));
    var racc := HashPad(pk.seed) + Encode(Addr(0, tree, FORS_ROOTS, leaf, 0, 0));
    var t1 := Cons(Item(Hcf, Blob(c)), ForsStart(d, tree, leaf, t));
    var roots := ForsRoots(h, pk.seed, p, tree, leaf, groups, indices, p.k);
    ForsContextsOk(h, sig, p, pk, d, tree, leaf, t, el);
    ForsTreesOk(h, sig, p, pk.seed, d, tree, leaf, groups, indices, racc, t1, el, p.k);
    ForsPhaseRun(h, sig, p, pk, d, tree, leaf, c, racc, racc + roots, t, el, el + Span(1 + p.a, p.k));
    ForsKey(h, pk.seed, p, tree, leaf, groups, indices);
  }

  lemma SizedLayers(p: Params)
    requires Sized(p)
    ensures p.d > 0
  {
  }

  lemma ForsKey(h: Hash, seed: Bytes, p: Params, tree: nat, leaf: nat, groups: seq<Group>, indices: seq<nat>)
    requires p.k == |groups| == |indices|
    ensures ForsPkFromSig(h, seed, p, tree, leaf, groups, indices)
            == h(HashPad(seed) + Encode(Addr(0, tree, FORS_ROOTS, leaf, 0, 0))
                 + ForsRoots(h, seed, p, tree, leaf, groups, indices, p.k))[..N]
  {
  }

  lemma RootsPrefix(seed: Bytes, a: Addr)
    requires a.w2 == 0 && a.w3 == 0
    ensures ContextBytes(seed, a) + Zeros(8) == HashPad(seed) + Encode(a)
  {
    ContextEncodes(seed, a);
    ToBeZero(4);
    assert ContextBytes(seed, a) + Zeros(4) + Zeros(4) == ContextBytes(seed, a) + Zeros(8);
  }

  /** How the phase's parts fit together on the stack. */
  lemma ForsPhaseRun(h: Hash, sig: seq<Bytes>, p: Params, pk: PublicKey, d: Bytes, tree: nat, leaf: nat, c: Bytes, racc: Bytes,
                     all: Bytes, t: NS, el: nat, end: nat)
    requires Sized(p)
    requires var before := ForsStart(d, tree, leaf, t);
             var t1 := Cons(Item(Hcf, Blob(c)), before);
             && Eval(h, sig, HashContext(p, pk, 0, FORS_TREE, 0), St(before, el)) == St(Cons(Tr(Blob(c)), before), el)
             && Eval(h, sig, HashContext(p, pk, 0, FORS_ROOTS, 2), St(t1, el)) == St(Cons(Tr(Blob(racc)), t1), el)
             && Eval(h, sig, ForsTrees(p, p.k), St(Cons(Item(Racc, Blob(racc)), t1), el))
                == St(Cons(Item(Racc, Blob(all)), t1), end)
    ensures Eval(h, sig, ForsPhase(p, pk), St(ForsStart(d, tree, leaf, t), el))
            == St(Cons(Item(Node, Blob(h(all)[..N])), Cons(Item(Leaf, Num(leaf)), Cons(Item(Tree, Num(tree)), t))), end)
  {
    hide Eval, Do, HashContext, ForsTrees, Sized, Discard;
    SequenceRules(h, sig);
    NamingRules(h, sig);
    ForsEndOk(h, sig, d, tree, leaf, c, all, t, end);
  }

  lemma ForsEndOk(h: Hash, sig: seq<Bytes>, d: Bytes, tree: nat, leaf: nat, c: Bytes, all: Bytes, t: NS, el: nat)
    ensures Eval(h, sig, ForsEnd(), St(Cons(Item(Racc, Blob(all)), Cons(Item(Hcf, Blob(c)), ForsStart(d, tree, leaf, t))), el))
            == St(Cons(Item(Node, Blob(h(all)[..N])), Cons(Item(Leaf, Num(leaf)), Cons(Item(Tree, Num(tree)), t))), el)
  {
    hide Eval, Do;
    SequenceRules(h, sig);
    ShuffleRules(h, sig);
    NamingRules(h, sig);
    BytesRules(h, sig);
    assert h(all)[0..N] == h(all)[..N];
  }
}
