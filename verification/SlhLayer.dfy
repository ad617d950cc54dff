/** The hypertree layers: indices in force, hash contexts, WOTS+ and the Merkle path to the layer's root. */
module SlhLayer {
  import opened Arith
  import opened Bytes
  import opened Lists
  import opened Numbers
  import opened Machine
  import opened Params
  import opened Adrs
  import opened Frames
  import opened Emission
  import opened EvalSteps
  import opened Reference
  import opened SlhProgram
  import opened SlhHelpers
  import opened SlhPath
  import opened SlhFors
  import opened SlhWots

  // ---- the indices in force ------------------------------------------------

  lemma DividedOk(h: Hash, sig: seq<Bytes>, s: Slot, n: nat, shift: nat, l: NS, el: nat)
    requires Find(l, s) == Some(Num(n)) && n < NumLimit && shift <= 62 && s != Transient
    ensures Eval(h, sig, [Pick(s), Number(Pow2(shift)), BinaryNum(Div)], St(l, el)) == St(Cons(Tr(Num(Shr(n, shift))), l), el)
    ensures Shr(n, shift) < NumLimit
  {
    hide Eval, Do, Find;
    PowerFits(shift);
    DivBounds(n, Pow2(shift));
    SequenceRules(h, sig);
    ShuffleRules(h, sig);
    NamingRules(h, sig);
    ArithRules(h, sig);
  }

  /** What one layer needs of its indices. */
  predicate LayerInRange(p: Params, tree: nat, leaf: nat, layer: nat)
    requires p.d > 0
  {
    && tree < NumLimit && p.hp <= 31 && p.hp * layer <= 62
    && LayerTree(p, tree, layer) < Pow2(63) && (p.IdxTreeBits() == 0 ==> LayerTree(p, tree, layer) == 0)
    && LayerLeaf(p, tree, leaf, layer) < Pow2(31)
    && LayerLeaf(p, tree, leaf, layer) < Pow2(8 * p.XmssIndexWidth() - 1)
  }

  function WithIndices(p: Params, tree: nat, leaf: nat, layer: nat, l: NS): NS
  {
    Cons(Item(Lleaf, Num(LayerLeaf(p, tree, leaf, layer))), Cons(Item(Ltree, Num(LayerTree(p, tree, layer))), l))
  }

  lemma LayerIndicesOk(h: Hash, sig: seq<Bytes>, p: Params, tree: nat, leaf: nat, layer: nat, l: NS, el: nat)
    requires p.d > 0 && tree < NumLimit && p.hp <= 31 && p.hp * layer <= 62
    requires Find(l, Tree) == Some(Num(tree)) && Find(l, Leaf) == Some(Num(leaf))
    ensures Eval(h, sig, LayerIndices(p, layer), St(l, el)) == St(WithIndices(p, tree, leaf, layer, l), el)
  {
    if layer == 0 {
      FirstIndicesOk(h, sig, p, tree, leaf, l, el);
    } else {
      hide *;
      MulMono(layer - 1, layer, p.hp);
      var hi, lo := p.hp * layer, p.hp * (layer - 1);
      ShiftedIndicesOk(h, sig, tree, hi, lo, p.hp, l, el);
      LayerIndicesLater(h, sig, p, layer, St(l, el));
      LaterIndices(p, tree, leaf, layer, l);
    }
  }

  lemma FirstIndicesOk(h: Hash, sig: seq<Bytes>, p: Params, tree: nat, leaf: nat, l: NS, el: nat)
    requires Find(l, Tree) == Some(Num(tree)) && Find(l, Leaf) == Some(Num(leaf))
    ensures Eval(h, sig, LayerIndices(p, 0), St(l, el)) == St(WithIndices(p, tree, leaf, 0, l), el)
  {
    ShrZero(tree);
    hide Eval, Do, Find, Shr, Low, MaskTo;
    SequenceRules(h, sig);
    NamingRules(h, sig);
    DisplayRules(h, sig);
  }

  /** Two shifted copies of the tree index, the second cut to one layer's bits. */
  lemma ShiftedIndicesOk(h: Hash, sig: seq<Bytes>, tree: nat, hi: nat, lo: nat, bits: nat, l: NS, el: nat)
    requires tree < NumLimit && hi <= 62 && lo <= 62 && bits <= 62 && Find(l, Tree) == Some(Num(tree))
    ensures Eval(h, sig, [Pick(Tree), Number(Pow2(hi)), BinaryNum(Div)] + [NameTop(Ltree)]
                         + [Pick(Tree), Number(Pow2(lo)), BinaryNum(Div)] + MaskTo(bits) + [NameTop(Lleaf)], St(l, el))
            == St(Cons(Item(Lleaf, Num(Low(Shr(tree, lo), bits))), Cons(Item(Ltree, Num(Shr(tree, hi))), l)), el)
  {
    hide Eval, Do, Find, Shr, Low, MaskTo, Pow2;
    SequenceRules(h, sig);
    NamingRules(h, sig);
    DividedOk(h, sig, Tree, tree, hi, l, el);
    var l1 := Cons(Item(Ltree, Num(Shr(tree, hi))), l);
    DividedOk(h, sig, Tree, tree, lo, l1, el);
    MaskToOk(h, sig, Shr(tree, lo), bits, l1, el);
  }

  lemma LaterIndices(p: Params, tree: nat, leaf: nat, layer: nat, l: NS)
    requires layer > 0
    ensures WithIndices(p, tree, leaf, layer, l)
            == Cons(Item(Lleaf, Num(Low(Shr(tree, p.hp * (layer - 1)), p.hp))),
                    Cons(Item(Ltree, Num(Shr(tree, p.hp * layer))), l))
  {
    hide Shr, Low;
  }

  lemma LayerIndicesLater(h: Hash, sig: seq<Bytes>, p: Params, layer: nat, st: St)
    requires layer > 0
    ensures Eval(h, sig, LayerIndices(p, layer), st)
            == Eval(h, sig, [Pick(Tree), Number(Pow2(p.hp * layer)), BinaryNum(Div)] + [NameTop(Ltree)]
                            + [Pick(Tree), Number(Pow2(p.hp * (layer - 1))), BinaryNum(Div)] + MaskTo(p.hp)
                            + [NameTop(Lleaf)], st)
  {
    hide Eval, Pow2;
    assert [Pick(Tree), Number(Pow2(p.hp * layer)), BinaryNum(Div)] + [NameTop(Ltree)]
           == [Pick(Tree), Number(Pow2(p.hp * layer)), BinaryNum(Div), NameTop(Ltree)];
    assert LayerIndices(p, layer)
           == [Pick(Tree), Number(Pow2(p.hp * layer)), BinaryNum(Div)] + [NameTop(Ltree)]
              + [Pick(Tree), Number(Pow2(p.hp * (layer - 1))), BinaryNum(Div)] + MaskTo(p.hp) + [NameTop(Lleaf)];
  }

  // ---- contexts ------------------------------------------------------------

  lemma KeyPairOk(h: Hash, sig: seq<Bytes>, kp: nat, l: NS, el: nat)
    requires Find(l, Lleaf) == Some(Num(kp)) && kp < Pow2(31)
    ensures Eval(h, sig, [Pick(Lleaf)] + BeBytes(4) + [NameTop(Kp4)], St(l, el))
            == St(Cons(Item(Kp4, Blob(ToBe(kp, 4))), l), el)
  {
    hide Eval, Do, BeBytes, ToBe, Pow2, Find;
    SequenceRules(h, sig);
    NamingRules(h, sig);
    BeBytesOk(h, sig, kp, 4, l, el);
  }

  lemma ChainContextOk(h: Hash, sig: seq<Bytes>, base: Bytes, kp4: Bytes, l: NS, el: nat)
    requires Find(l, Kp4) == Some(Blob(kp4)) && Find(l, Hcb) == Some(Blob(base))
    ensures Eval(h, sig, [Pick(Hcb), Data([WOTS_HASH]), Cat, Pick(Kp4), Cat, NameTop(Hcw)], St(l, el))
            == St(Cons(Item(Hcw, Blob(base + [WOTS_HASH] + kp4)), l), el)
  {
    hide Eval, Do, Zeros;
    SequenceRules(h, sig);
    DisplayRules(h, sig);
    ShuffleRules(h, sig);
    NamingRules(h, sig);
    BytesRules(h, sig);
  }

  lemma KeyContextOk(h: Hash, sig: seq<Bytes>, base: Bytes, kp4: Bytes, l: NS, el: nat)
    requires Find(l, Kp4) == Some(Blob(kp4)) && Find(l, Hcb) == Some(Blob(base))
    ensures Eval(h, sig, [Pick(Hcb), Data([WOTS_PK]), Cat, Pick(Kp4), Cat, Data(Zeros(8)), Cat, NameTop(Hcp)], St(l, el))
            == St(Cons(Item(Hcp, Blob(base + [WOTS_PK] + kp4 + Zeros(8))), l), el)
  {
    hide Eval, Do, Zeros;
    SequenceRules(h, sig);
    DisplayRules(h, sig);
    ShuffleRules(h, sig);
    NamingRules(h, sig);
    BytesRules(h, sig);
  }

  lemma TreeContextOk(h: Hash, sig: seq<Bytes>, base: Bytes, l: NS, el: nat)
    requires Find(l, Hcb) == Some(Blob(base))
    ensures Eval(h, sig, [Pick(Hcb), Data([TREE]), Cat, Data(Zeros(4)), Cat, NameTop(Hct)], St(l, el))
            == St(Cons(Item(Hct, Blob(base + [TREE] + Zeros(4))), l), el)
  {
    hide Eval, Do, Zeros;
    SequenceRules(h, sig);
    DisplayRules(h, sig);
    ShuffleRules(h, sig);
    NamingRules(h, sig);
    BytesRules(h, sig);
  }

  /** The three contexts are the reference's padded addresses. */
  lemma ContextValues(seed: Bytes, layer: nat, tree: nat, kp: nat)
    ensures var base := HashPad(seed) + [layer % 256] + ToBe(tree, 8);
            && base + [WOTS_HASH] + ToBe(kp, 4) == ContextBytes(seed, ChainAddr(layer, tree, kp, 0))
            && base + [WOTS_PK] + ToBe(kp, 4) + Zeros(8) == HashPad(seed) + Encode(Addr(layer, tree, WOTS_PK, kp, 0, 0))
            && base + [TREE] + Zeros(4) == ContextBytes(seed, Addr(layer, tree, TREE, 0, 0, 0))
  {
    ToBeZero(4);
    RootsPrefix(seed, Addr(layer, tree, WOTS_PK, kp, 0, 0));
  }

  lemma ContextsRemoved(h: Hash, sig: seq<Bytes>, node: Bytes, tree: nat, kp: nat, base: Bytes, kp4: Bytes, hcw: Bytes,
                        hcp: Bytes, hct: Bytes, t: NS)
    ensures var l := Cons(Item(Hct, Blob(hct)), Cons(Item(Hcp, Blob(hcp)), Cons(Item(Hcw, Blob(hcw)),
                     Cons(Item(Kp4, Blob(kp4)), Cons(Item(Hcb, Blob(base)),
                     Cons(Item(Lleaf, Num(kp)), Cons(Item(Ltree, Num(tree)), Cons(Item(Node, Blob(node)), t))))))));
            && Find(l, Hcb).Some? && Find(Remove(l, Hcb), Kp4).Some?
            && Remove(Remove(l, Hcb), Kp4) == LayerStack(node, tree, kp, hcw, hcp, hct, t)
            && Find(l.tail, Hcb) == Some(Blob(base))
  {
    hide Find, Remove;
    NamingRules(h, sig);
  }

  lemma DerivedParts(h: Hash, sig: seq<Bytes>, st: St)
    ensures Eval(h, sig, DerivedContexts(), st)
            == Eval(h, sig, [Pick(Hcb), Data([TREE]), Cat, Data(Zeros(4)), Cat, NameTop(Hct)],
               Eval(h, sig, [Pick(Hcb), Data([WOTS_PK]), Cat, Pick(Kp4), Cat, Data(Zeros(8)), Cat, NameTop(Hcp)],
               Eval(h, sig, [Pick(Hcb), Data([WOTS_HASH]), Cat, Pick(Kp4), Cat, NameTop(Hcw)], st)))
  {
    var d := [Pick(Hcb), Data([WOTS_HASH]), Cat, Pick(Kp4), Cat, NameTop(Hcw)];
    var e := [Pick(Hcb), Data([WOTS_PK]), Cat, Pick(Kp4), Cat, Data(Zeros(8)), Cat, NameTop(Hcp)];
    var f := [Pick(Hcb), Data([TREE]), Cat, Data(Zeros(4)), Cat, NameTop(Hct)];
    hide Eval, Zeros;
    EvalAppend(h, sig, d, e, st);
    EvalAppend(h, sig, d + e, f, st);
  }

  lemma LayerContextsParts(h: Hash, sig: seq<Bytes>, p: Params, pk: PublicKey, layer: nat, st: St)
    requires p.d > 0
    ensures Eval(h, sig, LayerContexts(p, pk, layer), st)
            == Eval(h, sig, Discard(Kp4), Eval(h, sig, Discard(Hcb), Eval(h, sig, DerivedContexts(),
               Eval(h, sig, [Pick(Lleaf)] + BeBytes(4) + [NameTop(Kp4)],
               Eval(h, sig, [NameTop(Hcb)], Eval(h, sig, ContextBase(p, pk, layer, Ltree), st))))))
  {
    var a, b := ContextBase(p, pk, layer, Ltree), [NameTop(Hcb)];
    var c := [Pick(Lleaf)] + BeBytes(4) + [NameTop(Kp4)];
    hide Eval, BeBytes, ContextBase, DerivedContexts, Discard;
    Chain5(h, sig, a, b, c, DerivedContexts(), Discard(Hcb), st);
    EvalAppend(h, sig, a + b + c + DerivedContexts() + Discard(Hcb), Discard(Kp4), st);
  }

  lemma LayerContextsOk(h: Hash, sig: seq<Bytes>, p: Params, pk: PublicKey, layer: nat, tree: nat, kp: nat, node: Bytes,
                        t: NS, el: nat)
    requires p.d > 0 && tree < Pow2(63) && (p.IdxTreeBits() == 0 ==> tree == 0) && kp < Pow2(31)
    ensures var hcw := ContextBytes(pk.seed, ChainAddr(layer, tree, kp, 0));
            var hcp := HashPad(pk.seed) + Encode(Addr(layer, tree, WOTS_PK, kp, 0, 0));
            var hct := ContextBytes(pk.seed, Addr(layer, tree, TREE, 0, 0, 0));
            Eval(h, sig, LayerContexts(p, pk, layer),
                 St(Cons(Item(Lleaf, Num(kp)), Cons(Item(Ltree, Num(tree)), Cons(Item(Node, Blob(node)), t))), el))
            == St(LayerStack(node, tree, kp, hcw, hcp, hct, t), el)
  {
    hide *;
    var l := Cons(Item(Lleaf, Num(kp)), Cons(Item(Ltree, Num(tree)), Cons(Item(Node, Blob(node)), t)));
    var base: Bytes, kp4: Bytes := HashPad(pk.seed) + [layer % 256] + ToBe(tree, 8), ToBe(kp, 4);
    var hcw := ContextBytes(pk.seed, ChainAddr(layer, tree, kp, 0));
    var hcp := HashPad(pk.seed) + Encode(Addr(layer, tree, WOTS_PK, kp, 0, 0));
    var hct := ContextBytes(pk.seed, Addr(layer, tree, TREE, 0, 0, 0));
    ContextValues(pk.seed, layer, tree, kp);
    NamingRules(h, sig);
    ContextBaseOk(h, sig, p, pk, layer, Ltree, tree, l, el);
    SequenceRules(h, sig);
    var l1 := Cons(Item(Hcb, Blob(base)), l);
    KeyPairOk(h, sig, kp, l1, el);
    ChainContextOk(h, sig, base, kp4, Cons(Item(Kp4, Blob(kp4)), l1), el);
    KeyContextOk(h, sig, base, kp4, Cons(Item(Hcw, Blob(hcw)), Cons(Item(Kp4, Blob(kp4)), l1)), el);
    var l4 := Cons(Item(Hcp, Blob(hcp)), Cons(Item(Hcw, Blob(hcw)), Cons(Item(Kp4, Blob(kp4)), l1)));
    ContextsRemoved(h, sig, node, tree, kp, base, kp4, hcw, hcp, hct, t);
    TreeContextOk(h, sig, base, l4, el);
    var l5 := Cons(Item(Hct, Blob(hct)), l4);
    DiscardOk(h, sig, Hcb, l5, el);
    DiscardOk(h, sig, Kp4, Remove(l5, Hcb), el);
    LayerContextsParts(h, sig, p, pk, layer, St(l, el));
    DerivedParts(h, sig, St(Cons(Item(Kp4, Blob(kp4)), l1), el));
  }

  // ---- one layer -----------------------------------------------------------

  lemma LayerClosed(h: Hash, sig: seq<Bytes>, node: Bytes, tree: nat, kp: nat, hct: Bytes, t: NS, el: nat)
    ensures Eval(h, sig, Discard(Hct) + Discard(Ltree) + Discard(Lleaf),
                 St(Cons(Item(Node, Blob(node)), LayerRest(tree, kp, hct, t)), el))
            == St(Cons(Item(Node, Blob(node)), t), el)
  {
    hide Eval, Do, Find, Remove;
    SequenceRules(h, sig);
    ShuffleRules(h, sig);
    NamingRules(h, sig);
  }

  lemma LayerPhaseParts(h: Hash, sig: seq<Bytes>, p: Params, pk: PublicKey, layer: nat, st: St)
    requires Sized(p)
    ensures Eval(h, sig, LayerPhase(p, pk, layer), st)
            == Eval(h, sig, Discard(Hct) + Discard(Ltree) + Discard(Lleaf),
               Eval(h, sig, PathLevels(Hct, Lleaf, Lleaf, p.XmssIndexWidth(), p.hp),
               Eval(h, sig, WotsPhase(p),
               Eval(h, sig, LayerContexts(p, pk, layer), Eval(h, sig, LayerIndices(p, layer), st)))))
  {
    var a, b, c := LayerIndices(p, layer), LayerContexts(p, pk, layer), WotsPhase(p);
    var d := PathLevels(Hct, Lleaf, Lleaf, p.XmssIndexWidth(), p.hp);
    var e := Discard(Hct) + Discard(Ltree) + Discard(Lleaf);
    hide Eval, LayerIndices, LayerContexts, WotsPhase, PathLevels, Discard, Sized, Params.XmssIndexWidth;
    assert LayerPhase(p, pk, layer) == a + b + c + d + e;
    Chain5(h, sig, a, b, c, d, e, st);
  }

  /** A layer's elements, WOTS+ values first. */
  ghost predicate LayerAt(p: Params, sig: seq<Bytes>, el: nat, layer: Layer)
    requires p.lgw > 0
  {
    && |layer.wots| == p.Len() && |layer.auth| == p.hp
    && ElemsAt(sig, el, layer.wots) && ElemsAt(sig, el + p.Len(), layer.auth)
  }

  lemma RestNames(h: Hash, sig: seq<Bytes>, tree: nat, kp: nat, hct: Bytes, t: NS)
    ensures var l := LayerRest(tree, kp, hct, t);
            Find(l, Hct) == Some(Blob(hct)) && Find(l, Lleaf) == Some(Num(kp))
  {
    NamingRules(h, sig);
  }

  /** The path above a leaf, through one index that serves as position and as bits. */
  lemma LayerPathOk(h: Hash, sig: seq<Bytes>, width: nat, seed: Bytes, layer: nat, tree: nat, kp: nat, leaf: Bytes,
                    auth: seq<Bytes>, t: NS, el: nat)
    requires 1 <= width <= 4 && |auth| <= 31 && kp < Pow2(8 * width - 1) && kp < NumLimit && ElemsAt(sig, el, auth)
    ensures var a := Addr(layer, tree, TREE, 0, 0, 0);
            var rest := LayerRest(tree, kp, ContextBytes(seed, a), t);
            Eval(h, sig, PathLevels(Hct, Lleaf, Lleaf, width, |auth|), St(Cons(Item(Node, Blob(leaf)), rest), el))
            == St(Cons(Item(Node, Blob(PathUp(h, seed, a, kp, kp, leaf, auth, |auth|))), rest), el + |auth|)
  {
    hide Eval, PathLevels, ContextBytes, PathUp, Pow2, Elem, LayerRest, Find;
    var a := Addr(layer, tree, TREE, 0, 0, 0);
    var hct := ContextBytes(seed, a);
    RestNames(h, sig, tree, kp, hct, t);
    PathLevelsOk(h, sig, Hct, Lleaf, Lleaf, width, |auth|, seed, a, kp, kp, leaf, auth, LayerRest(tree, kp, hct, t), el);
  }

  /** One layer: the node becomes the layer's root, under the tree and leaf in force. */
  lemma LayerPhaseOk(h: Hash, sig: seq<Bytes>, p: Params, pk: PublicKey, layer: nat, tree: nat, leaf: nat, m: Bytes, ly: Layer,
                     t: NS, el: nat)
    requires Sized(p) && |m| == N && LayerAt(p, sig, el, ly) && LayerInRange(p, tree, leaf, layer)
    requires Find(t, Tree) == Some(Num(tree)) && Find(t, Leaf) == Some(Num(leaf))
    ensures Eval(h, sig, LayerPhase(p, pk, layer), St(Cons(Item(Node, Blob(m)), t), el))
            == St(Cons(Item(Node, Blob(XmssPkFromSig(h, pk.seed, p, layer, LayerTree(p, tree, layer),
                                                     LayerLeaf(p, tree, leaf, layer), ly.wots, ly.auth, m))), t),
                  el + (p.Len() + p.hp))
  {
    hide *;
    SizedFacts(p);
    RangeFacts(p, tree, leaf, layer);
    LayerElements(p, sig, el, ly);
    NamingRules(h, sig);
    var ltree, kp := LayerTree(p, tree, layer), LayerLeaf(p, tree, leaf, layer);
    var hct := ContextBytes(pk.seed, Addr(layer, ltree, TREE, 0, 0, 0));
    LayerIndicesOk(h, sig, p, tree, leaf, layer, Cons(Item(Node, Blob(m)), t), el);
    LayerContextsOk(h, sig, p, pk, layer, ltree, kp, m, t, el);
    WotsPhaseOk(h, sig, p, pk.seed, layer, ltree, kp, m, ly.wots, hct, t, el);
    var wpk := WotsPkFromSig(h, pk.seed, p, layer, ltree, kp, ly.wots, m);
    LayerPathOk(h, sig, p.XmssIndexWidth(), pk.seed, layer, ltree, kp, wpk, ly.auth, t, el + p.Len());
    LayerClosed(h, sig, PathUp(h, pk.seed, Addr(layer, ltree, TREE, 0, 0, 0), kp, kp, wpk, ly.auth, p.hp), ltree, kp, hct,
                t, el + p.Len() + p.hp);
    XmssRoot(h, pk.seed, p, layer, ltree, kp, ly.wots, ly.auth, m);
    LayerPhaseParts(h, sig, p, pk, layer, St(Cons(Item(Node, Blob(m)), t), el));
  }

  lemma RangeFacts(p: Params, tree: nat, leaf: nat, layer: nat)
    requires p.d > 0 && LayerInRange(p, tree, leaf, layer)
    ensures tree < NumLimit && p.hp * layer <= 62
    ensures LayerTree(p, tree, layer) < Pow2(63) && (p.IdxTreeBits() == 0 ==> LayerTree(p, tree, layer) == 0)
    ensures LayerLeaf(p, tree, leaf, layer) < Pow2(31) && LayerLeaf(p, tree, leaf, layer) < NumLimit
    ensures LayerLeaf(p, tree, leaf, layer) < Pow2(8 * p.XmssIndexWidth() - 1)
    ensures forall l :: WithIndices(p, tree, leaf, layer, l)
                        == Cons(Item(Lleaf, Num(LayerLeaf(p, tree, leaf, layer))),
                                Cons(Item(Ltree, Num(LayerTree(p, tree, layer))), l))
  {
    PowerFits(31);
  }

  lemma SizedFacts(p: Params)
    requires Sized(p)
    ensures p.d > 0 && p.lgw in {1, 2, 4, 8} && 1 <= p.XmssIndexWidth() <= 4 && p.hp <= 31
  {
  }

  lemma LayerElements(p: Params, sig: seq<Bytes>, el: nat, ly: Layer)
    requires p.lgw > 0 && LayerAt(p, sig, el, ly)
    ensures |ly.wots| == p.Len() && |ly.auth| == p.hp
    ensures ElemsAt(sig, el, ly.wots) && ElemsAt(sig, el + p.Len(), ly.auth)
  {
  }

  lemma XmssRoot(h: Hash, seed: Bytes, p: Params, layer: nat, tree: nat, kp: nat, wots: seq<Bytes>, auth: seq<Bytes>,
                 m: Bytes)
    requires p.lgw in {1, 2, 4, 8} && |m| == N && p.Len() <= |wots|
    ensures XmssPkFromSig(h, seed, p, layer, tree, kp, wots, auth, m)
            == PathUp(h, seed, Addr(layer, tree, TREE, 0, 0, 0), kp, kp,
                      WotsPkFromSig(h, seed, p, layer, tree, kp, wots, m), auth, |auth|)
  {
  }

  // ---- all layers ----------------------------------------------------------

  ghost predicate LayersAt(p: Params, sig: seq<Bytes>, el: nat, ht: seq<Layer>)
    requires p.lgw > 0
  {
    forall i: nat :: i < |ht| ==> LayerAt(p, sig, el + Span(p.Len() + p.hp, i), ht[i])
  }

  /** Every layer: the node becomes the reference's hypertree node. */
  lemma {:induction false} LayerPhasesOk(h: Hash, sig: seq<Bytes>, p: Params, pk: PublicKey, tree: nat, leaf: nat, pkFors: Bytes,
                                         ht: seq<Layer>, t: NS, el: nat, n: nat)
    requires Sized(p) && |pkFors| == N && n <= |ht| && LayersFit(p, ht) && LayersAt(p, sig, el, ht)
    requires forall i: nat :: i < n ==> LayerInRange(p, tree, leaf, i)
    requires Find(t, Tree) == Some(Num(tree)) && Find(t, Leaf) == Some(Num(leaf))
    ensures Eval(h, sig, LayerPhases(p, pk, n), St(Cons(Item(Node, Blob(pkFors)), t), el))
            == St(Cons(Item(Node, Blob(HtNode(h, p, pk.seed, ht, tree, leaf, pkFors, n))), t),
                  el + Span(p.Len() + p.hp, n))
  {
    hide LayerInRange, LayersFit, LayerAt, Eval, LayerPhase, Find, XmssPkFromSig, LayerTree, LayerLeaf, Params.Len, Sized;
    hide Params.XmssIndexWidth, Params.ForsIndexWidth;
    SizedFacts(p);
    var start := St(Cons(Item(Node, Blob(pkFors)), t), el);
    if n == 0 {
      EvalNone(h, sig, start);
    } else {
      var i := n - 1;
      LayerPhasesOk(h, sig, p, pk, tree, leaf, pkFors, ht, t, el, i);
      LayerPhaseOk(h, sig, p, pk, i, tree, leaf, HtNode(h, p, pk.seed, ht, tree, leaf, pkFors, i), ht[i], t,
                   el + Span(p.Len() + p.hp, i));
      EvalAppend(h, sig, LayerPhases(p, pk, i), LayerPhase(p, pk, i), start);
    }
  }
}
