/** The whole verifier: the emitted script, run on its witness, decides exactly what the reference verifier decides. */
module SlhVerify {
  import opened Arith
  import opened Bytes
  import opened Lists
  import opened Numbers
  import opened Machine
  import opened Params
  import opened Frames
  import opened Emission
  import opened Witness
  import opened Faithful
  import opened EvalSteps
  import opened Reference
  import opened SlhProgram
  import opened SlhHelpers
  import opened SlhFors
  import opened SlhLayer

  // ---- a signature by its elements -----------------------------------------

  /** The elements [el, el + n) of a list. */
  function Elems(x: seq<Bytes>, el: nat, n: nat): (r: seq<Bytes>)
    requires el + n <= |x|
    ensures |r| == n && ElemsAt(x, el, r) && (ElementSizes(x) ==> ElementSizes(r))
  {
    x[el..el + n]
  }

  function ParseGroups(x: seq<Bytes>, el: nat, a: nat, n: nat): (r: seq<Group>)
    requires el + Span(1 + a, n) <= |x|
    ensures |r| == n
  {
    if n == 0 then []
    else
      var at := el + Span(1 + a, n - 1);
      ParseGroups(x, el, a, n - 1) + [Group(Elem(x, at), Elems(x, at + 1, a))]
  }

  function ParseLayers(x: seq<Bytes>, el: nat, len: nat, hp: nat, n: nat): (r: seq<Layer>)
    requires el + Span(len + hp, n) <= |x|
    ensures |r| == n
  {
    if n == 0 then []
    else
      var at := el + Span(len + hp, n - 1);
      ParseLayers(x, el, len, hp, n - 1) + [Layer(Elems(x, at, len), Elems(x, at + len, hp))]
  }

  /** How many elements the three parts of a signature have. */
  lemma PartsFill(p: Params)
    requires p.WellFormed()
    ensures 1 + Span(1 + p.a, p.k) + Span(p.Len() + p.hp, p.d) == p.SigElements()
  {
    assert p.lgw > 0 && p.h == p.hp * p.d;
    hide *;
    SpanIsProduct(1 + p.a, p.k);
    SpanIsProduct(p.Len() + p.hp, p.d);
    Distribute(p.d, p.Len(), p.hp);
    ElementTotal(p);
  }

  lemma Distribute(d: nat, len: nat, hp: nat)
    ensures d * (len + hp) == d * len + hp * d
  {
  }

  /** The elements are this signature's parts, in order. */
  ghost predicate Holds(p: Params, x: seq<Bytes>, sig: Signature)
    requires p.lgw > 0
  {
    && 0 < |x| && sig.randomness == Elem(x, 0)
    && GroupsAt(x, 1, p.a, sig.fors)
    && LayersAt(p, x, 1 + Span(1 + p.a, p.k), sig.ht)
  }

  predicate GroupsFit(a: nat, groups: seq<Group>) { forall g :: g in groups ==> |g.auth| == a }

  predicate GroupsMeasured(groups: seq<Group>) { forall g :: g in groups ==> |g.sk| == N && ElementSizes(g.auth) }

  lemma {:induction false} GroupsParsed(x: seq<Bytes>, el: nat, a: nat, n: nat)
    requires el + Span(1 + a, n) <= |x|
    ensures GroupsAt(x, el, a, ParseGroups(x, el, a, n)) && GroupsFit(a, ParseGroups(x, el, a, n))
    ensures ElementSizes(x) ==> GroupsMeasured(ParseGroups(x, el, a, n))
  {
    hide Elems, ElementSizes, ElemsAt, Elem;
    if n > 0 {
      GroupsParsed(x, el, a, n - 1);
      var at := el + Span(1 + a, n - 1);
      GroupParsed(x, at, a);
    }
  }

  lemma GroupParsed(x: seq<Bytes>, at: nat, a: nat)
    requires at + 1 + a <= |x|
    ensures var g := Group(Elem(x, at), Elems(x, at + 1, a));
            GroupAt(x, at, g) && |g.auth| == a && (ElementSizes(x) ==> |g.sk| == N && ElementSizes(g.auth))
  {
    hide Elems;
  }

  lemma {:induction false} LayersParsed(p: Params, x: seq<Bytes>, el: nat, n: nat)
    requires p.lgw > 0 && el + Span(p.Len() + p.hp, n) <= |x|
    ensures LayersAt(p, x, el, ParseLayers(x, el, p.Len(), p.hp, n))
    ensures LayersFit(p, ParseLayers(x, el, p.Len(), p.hp, n))
    ensures ElementSizes(x) ==> LayersMeasured(ParseLayers(x, el, p.Len(), p.hp, n))
  {
    hide Elem, Elems, ElementSizes, ElemsAt, Params.Len;
    if n > 0 {
      LayersParsed(p, x, el, n - 1);
    }
  }

  /** Room for every part. */
  predicate Covers(x: seq<Bytes>, a: nat, k: nat, len: nat, hp: nat, d: nat)
  {
    1 + Span(1 + a, k) + Span(len + hp, d) <= |x|
  }

  function ParseParts(x: seq<Bytes>, a: nat, k: nat, len: nat, hp: nat, d: nat): Signature
    requires Covers(x, a, k, len, hp, d)
  {
    Signature(Elem(x, 0), ParseGroups(x, 1, a, k), ParseLayers(x, 1 + Span(1 + a, k), len, hp, d))
  }

  lemma PartsFit(p: Params, x: seq<Bytes>)
    requires p.lgw > 0 && Covers(x, p.a, p.k, p.Len(), p.hp, p.d)
    ensures var sig := ParseParts(x, p.a, p.k, p.Len(), p.hp, p.d);
            Fits(p, sig) && Holds(p, x, sig) && (ElementSizes(x) ==> Measured(sig))
  {
    hide ParseGroups, ParseLayers, GroupsAt, LayersAt, LayersFit, LayersMeasured, Params.Len, Span;
    GroupsParsed(x, 1, p.a, p.k);
    LayersParsed(p, x, 1 + Span(1 + p.a, p.k), p.d);
  }

  lemma PartsWithin(p: Params, x: seq<Bytes>)
    requires p.WellFormed() && |x| == p.SigElements()
    ensures p.lgw > 0 && Covers(x, p.a, p.k, p.Len(), p.hp, p.d)
  {
    PartsFill(p);
    hide Params.WellFormed, Params.SigElements, Params.Len, Span;
  }

  lemma DigitWidth(p: Params)
    requires p.WellFormed()
    ensures p.lgw > 0 && p.SigLen() == p.SigElements() * ELEM
  {
    hide Params.SigElements;
  }

  function ParseWhole(p: Params, x: seq<Bytes>): (r: Signature)
    requires p.lgw > 0 && Covers(x, p.a, p.k, p.Len(), p.hp, p.d)
    ensures Fits(p, r) == true && (ElementSizes(x) ==> Measured(r))
  {
    PartsFit(p, x);
    ParseParts(x, p.a, p.k, p.Len(), p.hp, p.d)
  }

  /** A signature by its elements, whatever their lengths: nothing unless their number is exact. */
  function FromElements(p: Params, x: seq<Bytes>): (r: Option<Signature>)
    requires p.WellFormed()
    ensures r.Some? <==> |x| == p.SigElements()
    ensures r.Some? ==> Fits(p, r.value) && (ElementSizes(x) ==> Measured(r.value))
  {
    hide *;
    DigitWidth(p);
    if |x| != p.SigElements() then None
    else
      PartsWithin(p, x);
      Some(ParseWhole(p, x))
  }

  /** `Signature::from_bytes`: nothing unless the length is exact. */
  function FromBytes(p: Params, x: Bytes): (r: Option<Signature>)
    requires p.WellFormed()
    ensures r.Some? <==> |x| == p.SigLen()
    ensures r.Some? ==> Fits(p, r.value) && Measured(r.value)
  {
    hide *;
    DigitWidth(p);
    if |x| != p.SigLen() then None
    else
      ChunkSizes(x, p.SigElements());
      FromElements(p, Chunks(x, p.SigElements()))
  }

  lemma ChunkSizes(x: Bytes, n: nat)
    requires n * ELEM <= |x|
    ensures ElementSizes(Chunks(x, n))
  {
  }

  // ---- ranges --------------------------------------------------------------

  lemma LeafInRange(p: Params, leaf: nat)
    requires p.WellFormed() && leaf < Pow2(p.hp)
    ensures leaf < Pow2(31) && leaf < Pow2(8 * p.XmssIndexWidth() - 1)
  {
    IndexWidths(p);
    hide *;
    Pow2Mono(p.hp, 31);
  }

  lemma DigestIndicesInRange(p: Params, digest: Bytes)
    requires p.WellFormed() && |digest| == p.m
    ensures IdxTree(p, digest) < Pow2(56) && IdxLeaf(p, digest) < Pow2(p.hp)
    ensures p.IdxTreeBits() == 0 ==> IdxTree(p, digest) == 0
  {
    TreeBits(p);
    DigestParts(p);
    hide Pow2, Params.IdxTreeLen, Params.MdLen, Params.IdxLeafLen, Params.WellFormed, Params.IdxTreeBits, Be;
    Pow2Mono(p.IdxTreeBits(), 56);
  }

  lemma LayerIndicesBound(p: Params, tree: nat, leaf: nat, layer: nat)
    requires leaf < Pow2(p.hp)
    ensures LayerTree(p, tree, layer) <= tree && LayerLeaf(p, tree, leaf, layer) < Pow2(p.hp)
  {
    hide Pow2;
    DivBounds(tree, Pow2(p.hp * layer));
  }

  lemma HeightsInRange(p: Params, layer: nat)
    requires p.d > 0 && p.WellFormed() && layer < p.d
    ensures p.hp * layer <= 56 && p.hp <= 31
  {
    hide *;
    IndexWidths(p);
    TreeBits(p);
    MulMono(layer, p.d - 1, p.hp);
  }

  lemma LayerIndicesInRange(p: Params, tree: nat, leaf: nat, layer: nat)
    requires p.WellFormed() && tree < Pow2(56) && leaf < Pow2(p.hp) && layer < p.d
    requires p.IdxTreeBits() == 0 ==> tree == 0
    ensures LayerInRange(p, tree, leaf, layer)
  {
    hide Pow2, Params.WellFormed, Params.XmssIndexWidth, Params.IdxTreeBits, LayerTree, LayerLeaf;
    HeightsInRange(p, layer);
    PowerFits(56);
    Pow2Strict(56, 63);
    LayerIndicesBound(p, tree, leaf, layer);
    LeafInRange(p, LayerLeaf(p, tree, leaf, layer));
  }

  lemma IndicesReady(p: Params, digest: Bytes)
    requires p.WellFormed() && |digest| == p.m
    ensures p.d > 0
    ensures var tree, leaf := IdxTree(p, digest), IdxLeaf(p, digest);
            SmallIndices(p, tree, leaf) && forall i: nat :: i < p.d ==> LayerInRange(p, tree, leaf, i)
  {
    var tree, leaf := IdxTree(p, digest), IdxLeaf(p, digest);
    hide *;
    ShapeFacts(p);
    DigestIndicesInRange(p, digest);
    LeafInRange(p, leaf);
    Pow2Strict(56, 63);
    SmallIf(p, tree, leaf);
    forall i: nat | i < p.d
      ensures LayerInRange(p, tree, leaf, i)
    {
      LayerIndicesInRange(p, tree, leaf, i);
    }
  }

  lemma SmallIf(p: Params, tree: nat, leaf: nat)
    requires p.d > 0 && tree < Pow2(63) && (p.IdxTreeBits() == 0 ==> tree == 0) && leaf < Pow2(31)
    ensures SmallIndices(p, tree, leaf)
  {
    hide Pow2, Params.IdxTreeBits;
  }

  // ---- meaning of the body -------------------------------------------------

  /** The message alone, nothing fetched. */
  function FromMessage(msg: Bytes): St { St(Cons(Item(D, Blob(msg)), Nil), 0) }

  /** A node alone. */
  function NodeOnly(node: Bytes, el: nat): St { St(Cons(Item(Node, Blob(node)), Nil), el) }

  lemma Shapes(msg: Bytes, node: Bytes, el: nat)
    ensures FromMessage(msg) == St(Cons(Item(D, Blob(msg)), Nil), 0)
    ensures NodeOnly(node, el) == St(Cons(Item(Node, Blob(node)), Nil), el)
  {
  }

  lemma BodyParts(h: Hash, sig: seq<Bytes>, p: Params, pk: PublicKey, st: St)
    requires Sized(p)
    ensures Eval(h, sig, BodyPhases(p, pk), st)
            == Eval(h, sig, Discard(Leaf), Eval(h, sig, Discard(Tree), Eval(h, sig, LayerPhases(p, pk, p.d),
               Eval(h, sig, ForsPhase(p, pk), Eval(h, sig, IndicesPhase(p), Eval(h, sig, HMsgPhase(p, pk), st))))))
  {
    var a, b, c, d := HMsgPhase(p, pk), IndicesPhase(p), ForsPhase(p, pk), LayerPhases(p, pk, p.d);
    hide Eval, HMsgPhase, IndicesPhase, ForsPhase, LayerPhases, Discard, Sized;
    Chain5(h, sig, a, b, c, d, Discard(Tree), st);
    EvalAppend(h, sig, a + b + c + d + Discard(Tree), Discard(Leaf), st);
  }

  lemma BodyClosed(h: Hash, sig: seq<Bytes>, root: Bytes, tree: nat, leaf: nat, el: nat)
    ensures Eval(h, sig, Discard(Leaf), Eval(h, sig, Discard(Tree),
                 St(Cons(Item(Node, Blob(root)), Cons(Item(Leaf, Num(leaf)), Cons(Item(Tree, Num(tree)), Nil))), el)))
            == NodeOnly(root, el)
  {
    hide Eval, Do, Find, Remove;
    SequenceRules(h, sig);
    ShuffleRules(h, sig);
    NamingRules(h, sig);
  }

  lemma WindowsHold(p: Params, d: Bytes)
    requires p.WellFormed() && Sized(p) && |d| == p.m
    ensures forall i: nat :: i < p.k ==> WindowReads(p, d, i, ForsIndices(p, d)[i])
  {
    hide WindowReads, Params.WellFormed, Sized;
    forall i: nat | i < p.k
      ensures WindowReads(p, d, i, ForsIndices(p, d)[i])
    {
      WindowHolds(p, d, i);
    }
  }

  lemma PairNames(h: Hash, sig: seq<Bytes>, tree: nat, leaf: nat)
    ensures var kept := Cons(Item(Leaf, Num(leaf)), Cons(Item(Tree, Num(tree)), Nil));
            Find(kept, Tree) == Some(Num(tree)) && Find(kept, Leaf) == Some(Num(leaf))
    ensures forall d :: ForsStart(d, tree, leaf, Nil)
                        == Cons(Item(Leaf, Num(leaf)), Cons(Item(Tree, Num(tree)), Cons(Item(Digest, Blob(d)), Nil)))
  {
  }

  lemma FitsParts(p: Params, sig: Signature)
    requires p.lgw > 0 && Fits(p, sig)
    ensures |sig.fors| == p.k && |sig.ht| == p.d && LayersFit(p, sig.ht)
  {
  }

  lemma HoldsParts(p: Params, x: seq<Bytes>, sig: Signature)
    requires p.lgw > 0 && Holds(p, x, sig)
    ensures 0 < |x| && sig.randomness == Elem(x, 0)
    ensures GroupsAt(x, 1, p.a, sig.fors) && LayersAt(p, x, 1 + Span(1 + p.a, p.k), sig.ht)
  {
  }

  lemma RootIs(h: Hash, p: Params, pk: PublicKey, sig: Signature, digest: Bytes)
    requires p.WellFormed() && Fits(p, sig) && |digest| == p.m && |sig.ht| == p.d && |sig.fors| == p.k
    ensures var tree, leaf := IdxTree(p, digest), IdxLeaf(p, digest);
            RootFromDigest(h, p, pk, sig, digest)
            == HtNode(h, p, pk.seed, sig.ht, tree, leaf,
                      ForsPkFromSig(h, pk.seed, p, tree, leaf, sig.fors, ForsIndices(p, digest)), p.d)
  {
    hide HtNode, ForsPkFromSig, ForsIndices, IdxTree, IdxLeaf;
  }

  /** After H_msg: everything the digest decides. */
  lemma FromDigestOk(h: Hash, x: seq<Bytes>, p: Params, pk: PublicKey, sig: Signature, d: Bytes)
    requires p.WellFormed() && Sized(p) && Fits(p, sig) && Holds(p, x, sig) && |d| == p.m
    ensures Eval(h, x, Discard(Leaf), Eval(h, x, Discard(Tree), Eval(h, x, LayerPhases(p, pk, p.d),
            Eval(h, x, ForsPhase(p, pk), Eval(h, x, IndicesPhase(p), St(Cons(Item(Digest, Blob(d)), Nil), 1))))))
            == NodeOnly(RootFromDigest(h, p, pk, sig, d), p.SigElements())
  {
    hide *;
    SizedFacts(p);
    FitsParts(p, sig);
    HoldsParts(p, x, sig);
    var tree, leaf := IdxTree(p, d), IdxLeaf(p, d);
    var indices := ForsIndices(p, d);
    IndicesReady(p, d);
    WindowsHold(p, d);
    IndicesPhaseOk(h, x, p, d, Nil, 1);
    PairNames(h, x, tree, leaf);
    ForsPhaseOk(h, x, p, pk, d, tree, leaf, sig.fors, indices, Nil, 1);
    var pkFors := ForsPkFromSig(h, pk.seed, p, tree, leaf, sig.fors, indices);
    var kept := Cons(Item(Leaf, Num(leaf)), Cons(Item(Tree, Num(tree)), Nil));
    LayerPhasesOk(h, x, p, pk, tree, leaf, pkFors, sig.ht, kept, 1 + Span(1 + p.a, p.k), p.d);
    BodyClosed(h, x, HtNode(h, p, pk.seed, sig.ht, tree, leaf, pkFors, p.d), tree, leaf, p.SigElements());
    PartsFill(p);
    RootIs(h, p, pk, sig, d);
  }

  /** The body computes the reference's candidate root and consumes every element. */
  lemma BodyOk(h: Hash, x: seq<Bytes>, p: Params, pk: PublicKey, sig: Signature, msg: Bytes)
    requires p.WellFormed() && Sized(p) && Fits(p, sig) && Holds(p, x, sig)
    ensures Eval(h, x, BodyPhases(p, pk), FromMessage(msg))
            == NodeOnly(CandidateRoot(h, p, pk, sig, msg), p.SigElements())
  {
    hide *;
    SizedFacts(p);
    WidthFact(p);
    HoldsParts(p, x, sig);
    HMsgPhaseOk(h, x, p, pk, msg, Nil, 0);
    FromDigestOk(h, x, p, pk, sig, HMsg(h, p, sig.randomness, pk, ContextPrefixed(msg)));
    RootOfMessage(h, p, pk, sig, msg);
    Shapes(msg, CandidateRoot(h, p, pk, sig, msg), p.SigElements());
    BodyParts(h, x, p, pk, FromMessage(msg));
  }

  lemma WidthFact(p: Params)
    requires Sized(p)
    ensures p.m <= 32
  {
  }

  lemma RootOfMessage(h: Hash, p: Params, pk: PublicKey, sig: Signature, msg: Bytes)
    requires p.WellFormed() && p.m <= 32 && Fits(p, sig)
    ensures CandidateRoot(h, p, pk, sig, msg)
            == RootFromDigest(h, p, pk, sig, HMsg(h, p, sig.randomness, pk, ContextPrefixed(msg)))
  {
    hide RootFromDigest, HMsg, Fits;
  }

  /** The closing comparison with the pinned root. */
  lemma CompareOk(h: Hash, x: seq<Bytes>, root: Bytes, want: Bytes, el: nat)
    ensures Eval(h, x, [Data(want), Equal], NodeOnly(root, el))
            == St(Cons(Tr(Num(BoolNum(root == want))), Nil), el)
  {
    hide Eval, Do;
    SequenceRules(h, x);
    ShuffleRules(h, x);
    BytesRules(h, x);
  }

  // ---- code already emitted ------------------------------------------------

  function Prefixed(pre: seq<Op>, e: Em): Em { e.(code := pre + e.code) }

  /** Code already in the script does not change what is emitted after it. */
  lemma EmitOnePrefix(blobs: seq<nat>, m: Macro, pre: seq<Op>, e: Em)
    ensures EmitOne(blobs, m, Prefixed(pre, e))
            == match EmitOne(blobs, m, e) case Some(r) => Some(Prefixed(pre, r)) case None => None
  {
    hide PlainOps, PlainFrame, PlainNote, PlainAll, Locate, SliceOps;
    if m.Fetch? {
      RefillPrefix(blobs, pre, e);
    } else if m.Gate? {
      assert forall c: seq<Op> :: pre + (e.code + c) == pre + e.code + c;
    } else {
      assert pre + (e.code + PlainOps(m, e.f)) == pre + e.code + PlainOps(m, e.f);
    }
  }

  lemma RefillPrefix(blobs: seq<nat>, pre: seq<Op>, e: Em)
    ensures EmitRefill(blobs, Prefixed(pre, e))
            == match EmitRefill(blobs, e) case Some(r) => Some(Prefixed(pre, r)) case None => None
    ensures EmitRefill(blobs, e).Some? ==>
              pre + (EmitRefill(blobs, e).value.code + [OpFromAltStack])
              == pre + EmitRefill(blobs, e).value.code + [OpFromAltStack]
  {
    hide SliceOps, Locate;
    assert forall c: seq<Op> :: pre + (e.code + c) == pre + e.code + c;
  }

  lemma {:induction false} EmitAllPrefix(blobs: seq<nat>, ms: seq<Macro>, pre: seq<Op>, e: Em)
    ensures EmitAll(blobs, ms, Prefixed(pre, e))
            == match EmitAll(blobs, ms, e) case Some(r) => Some(Prefixed(pre, r)) case None => None
  {
    hide EmitOne;
    if |ms| > 0 {
      EmitOnePrefix(blobs, ms[0], pre, e);
      if EmitOne(blobs, ms[0], e).Some? {
        EmitAllPrefix(blobs, ms[1..], pre, EmitOne(blobs, ms[0], e).value);
      }
    }
  }

  // ---- the body on the engine ----------------------------------------------

  lemma {:induction false} PeakGrows(blobs: seq<nat>, ms: seq<Macro>, e: Em)
    requires EmitAll(blobs, ms, e).Some?
    ensures EmitAll(blobs, ms, e).value.peak >= e.peak
  {
    hide PlainFrame, PlainOps, PlainNote, PlainAll, Locate, SliceOps;
    if |ms| > 0 {
      if ms[0].Gate? && Drop(e.f, 1).Some? {
        var b := Block([], Drop(e.f, 1).value, e.peak);
        if PlainAll(ms[0].body, b).Some? {
          PlainAllPeak(ms[0].body, b, e.peak);
        }
      }
      PeakGrows(blobs, ms[1..], EmitOne(blobs, ms[0], e).value);
    }
  }

  /** The first two calls already hold three entries. */
  lemma PeakAtLeastThree(ms: seq<Macro>, blobs: seq<nat>, e: Em)
    requires |ms| >= 2 && ms[0] == Fetch(R) && ms[1] == Dup
    requires Len(e.f) == 1 && EmitAll(blobs, ms, e).Some?
    ensures EmitAll(blobs, ms, e).value.peak >= 3
  {
    hide Locate, SliceOps;
    assert EmitOne(blobs, ms[0], e).Some? && EmitOne(blobs, ms[0], e).value.f == Cons(R, e.f);
    var e1 := EmitOne(blobs, ms[0], e).value;
    assert ms[1..][0] == ms[1] && EmitAll(blobs, ms[1..], e1).Some?;
    assert EmitOne(blobs, ms[1], e1).Some? && EmitOne(blobs, ms[1], e1).value.peak >= 3;
    PeakGrows(blobs, ms[1..][1..], EmitOne(blobs, ms[1], e1).value);
  }

  lemma FirstCalls(p: Params, pk: PublicKey)
    requires Sized(p)
    ensures var ms := BodyPhases(p, pk);
            |ms| >= 2 && ms[0] == Fetch(R) && ms[1] == Dup
  {
    hide Sized, IndicesPhase, ForsPhase, LayerPhases, Discard, ToBe;
    assert |HMsgPhase(p, pk)| >= 2;
  }

  /** The machine the body starts from: the message alone on the stack, every blob queued. */
  ghost predicate Queued(blobs: seq<nat>, pushes: seq<Bytes>, msg: Bytes, m: VM<Val>)
  {
    && PlanFor(blobs, pushes)
    && m == VM(Cons(Blob(msg), Nil), BlobStack(pushes), Nil, m.peak) && Size(m) <= m.peak
  }

  /** What the emitted body leaves: one boolean, nothing queued, within the stack estimate. */
  ghost predicate Decides(env: Env, code: seq<Op>, m: VM<Val>, answer: bool, peak: nat, alt: int)
  {
    TRun(env, code, m).Some?
    && var r := TRun(env, code, m).value;
    r == VM(Cons(Num(BoolNum(answer)), Nil), Nil, Nil, r.peak) && r.peak <= Max(m.peak, peak + alt)
  }

  lemma StartTracks(env: Env, blobs: seq<nat>, pushes: seq<Bytes>, msg: Bytes, m: VM<Val>)
    requires Queued(blobs, pushes, msg, m)
    ensures Tracks(env, blobs, pushes, m, Begin([]), FromMessage(msg))
  {
    TRunEmpty(env, m);
    hide TRun;
  }

  lemma EndTracks(env: Env, blobs: seq<nat>, pushes: seq<Bytes>, m: VM<Val>, e: Em, v: Item)
    requires Positive(blobs) && m.cond == Nil && Tracks(env, blobs, pushes, m, e, St(Cons(v, Nil), Sum(blobs)))
    ensures e.next == Sum(blobs) && e.pending == 0 && e.f == Cons(v.name, Nil)
    ensures e.peak >= 1 ==>
              && TRun(env, e.code, m).Some?
              && var r := TRun(env, e.code, m).value;
              && r == VM(Cons(v.val, Nil), Nil, Nil, r.peak) && r.peak <= Max(m.peak, e.peak + AltMax(blobs))
  {
    hide TRun;
    QueueEnd(blobs, pushes);
  }

  /** Any body that means `root` passes the generator's checks and, run, answers whether that is the root wanted. */
  lemma CheckedRuns(env: Env, blobs: seq<nat>, pushes: seq<Bytes>, body: seq<Macro>, root: Bytes, want: Bytes, msg: Bytes,
                    m: VM<Val>)
    requires Queued(blobs, pushes, msg, m) && LongUpTo(blobs, pushes, Sum(blobs))
    requires |body| >= 2 && body[0] == Fetch(R) && body[1] == Dup
    requires Eval(env.hash, CutElems(blobs, pushes), body, FromMessage(msg)) == NodeOnly(root, Sum(blobs))
    ensures var e := EmitChecked(blobs, body, Sum(blobs), want, Begin([]));
            e.Some? && e.value.peak >= 3 && Decides(env, e.value.code, m, root == want, e.value.peak, AltMax(blobs))
  {
    var e0 := Begin([]);
    hide *;
    QueuedParts(blobs, pushes, msg, m);
    Shapes(msg, root, Sum(blobs));
    StartTracks(env, blobs, pushes, msg, m);
    EmitFollowsEval(env, blobs, pushes, m, body, e0, FromMessage(msg));
    PeakAtLeastThree(body, blobs, e0);
    var e1 := EmitAll(blobs, body, e0).value;
    EndTracks(env, blobs, pushes, m, e1, Item(Node, Blob(root)));
    CompareOk(env.hash, CutElems(blobs, pushes), root, want, Sum(blobs));
    EmitFollowsEval(env, blobs, pushes, m, [Data(want), Equal], e1, NodeOnly(root, Sum(blobs)));
    var e2 := EmitAll(blobs, [Data(want), Equal], e1).value;
    EndTracks(env, blobs, pushes, m, e2, Tr(Num(BoolNum(root == want))));
    ChecksPass(blobs, body, want, e0);
    DecidesFrom(env, e2.code, m, root == want, e2.peak, AltMax(blobs));
  }

  lemma QueuedParts(blobs: seq<nat>, pushes: seq<Bytes>, msg: Bytes, m: VM<Val>)
    requires Queued(blobs, pushes, msg, m)
    ensures Positive(blobs) && |pushes| == |blobs| && m.cond == Nil && Len(Begin([]).f) == 1
  {
  }

  lemma ChecksPass(blobs: seq<nat>, body: seq<Macro>, want: Bytes, e: Em)
    requires EmitAll(blobs, body, e).Some?
    requires var b := EmitAll(blobs, body, e).value;
             b.next == Sum(blobs) && b.pending == 0 && b.f == Cons(Node, Nil)
    ensures EmitChecked(blobs, body, Sum(blobs), want, e) == EmitAll(blobs, [Data(want), Equal], EmitAll(blobs, body, e).value)
  {
    hide EmitAll, Sum;
  }

  lemma DecidesFrom(env: Env, code: seq<Op>, m: VM<Val>, answer: bool, peak: nat, alt: int)
    requires TRun(env, code, m).Some?
    requires var r := TRun(env, code, m).value;
             r == VM(Cons(Num(BoolNum(answer)), Nil), Nil, Nil, r.peak) && r.peak <= Max(m.peak, peak + alt)
    ensures Decides(env, code, m, answer, peak, alt)
  {
  }

  lemma CheckedPrefix(blobs: seq<nat>, body: seq<Macro>, elements: nat, root: Bytes, pre: seq<Op>)
    ensures EmitChecked(blobs, body, elements, root, Begin(pre))
            == match EmitChecked(blobs, body, elements, root, Begin([]))
               case Some(r) => Some(Prefixed(pre, r)) case None => None
  {
    var e := Begin([]);
    hide EmitAll;
    assert pre + [] == pre;
    EmitAllPrefix(blobs, body, pre, e);
    if EmitAll(blobs, body, e).Some? {
      EmitAllPrefix(blobs, [Data(root), Equal], pre, EmitAll(blobs, body, e).value);
    }
  }

  // ---- the bare verifier script --------------------------------------------

  /** Moving the pushed blobs over turns them into a queue with the first one on top. */
  lemma {:induction false} PrologueRun(env: Env, s: seq<Bytes>, base: List<Bytes>, alt: List<Bytes>, peak: nat)
    requires |s| + Len(base) + Len(alt) <= peak
    ensures Run(env, Prologue(|s|), VM(PushAll(s, base), alt, Nil, peak)) == Some(VM(base, Stack(s, alt), Nil, peak))
  {
    if |s| > 0 {
      var n := |s| - 1;
      assert s == s[..n] + [s[n]];
      PushAllSnoc(s[..n], s[n], base);
      StackAppend(s[..n], [s[n]], alt);
      var last: seq<Bytes> := [s[n]];
      assert last[1..] == [] && Stack(last, alt) == Cons(s[n], alt);
      PrologueRun(env, s[..n], base, Cons(s[n], alt), peak);
      assert Prologue(|s|)[1..] == Prologue(n);
    }
  }

  lemma {:induction false} QueueRep(pushes: seq<Bytes>)
    ensures RepList(BlobStack(pushes)) == Stack(pushes, Nil)
  {
    if |pushes| > 0 {
      QueueRep(pushes[1..]);
    }
  }

  /** What a script leaves at the byte level: one boolean, both stacks otherwise empty, never more than `bound` items. */
  ghost predicate Answers(env: Env, code: seq<Op>, m: VM<Bytes>, answer: bool, bound: int)
  {
    Run(env, code, m).Some?
    && var r := Run(env, code, m).value;
    r == VM(Cons(MinEnc(BoolNum(answer)), Nil), Nil, Nil, r.peak) && r.peak <= bound
  }

  lemma DecidesAnswers(env: Env, code: seq<Op>, m: VM<Val>, answer: bool, peak: nat, alt: int)
    requires Decides(env, code, m, answer, peak, alt)
    ensures Answers(env, code, Rep(m), answer, Max(m.peak, peak + alt))
  {
    RunRep(env, code, m);
    hide TRun, Run;
  }

  /** The byte-level machine when the message is ready and the queue is built. */
  function Ready(pushes: seq<Bytes>, msg: Bytes, peak: nat): VM<Bytes>
  {
    VM(Cons(msg, Nil), Stack(pushes, Nil), Nil, peak)
  }

  /** A plan of non-empty blobs that covers the set's elements. */
  predicate Planned(p: Params, blobs: seq<nat>)
    requires p.WellFormed()
  {
    Positive(blobs) && Sum(blobs) == p.SigElements()
  }

  /** The signature some pushes are cut into, one push a blob, of any lengths. */
  function Given(p: Params, blobs: seq<nat>, pushes: seq<Bytes>): (r: Signature)
    requires p.WellFormed() && Planned(p, blobs) && |pushes| == |blobs|
    ensures Fits(p, r)
  {
    FromElements(p, CutElems(blobs, pushes)).value
  }

  lemma PlannedSizes(p: Params, blobs: seq<nat>, pushes: seq<Bytes>)
    requires p.lgw > 0 && Positive(blobs) && Sum(blobs) == p.SigElements() && |pushes| == |blobs|
    requires 0 < p.SigElements() && p.SigLen() < NumLimit
    ensures PlanFor(blobs, pushes) && |blobs| >= 1 && Largest(blobs) >= 1
  {
    hide Params.SigElements;
  }

  lemma PlannedFacts(p: Params, blobs: seq<nat>, pushes: seq<Bytes>)
    requires p.WellFormed() && Planned(p, blobs) && |pushes| == |blobs|
    ensures PlanFor(blobs, pushes) && |blobs| >= 1 && Largest(blobs) >= 1 && Sum(blobs) == p.SigElements()
    ensures p.lgw > 0 && Holds(p, CutElems(blobs, pushes), Given(p, blobs, pushes))
  {
    SignatureSize(p);
    GivenHolds(p, CutElems(blobs, pushes));
    hide Params.WellFormed, Params.SigElements, Params.SigLen, Holds, Sum, Largest, PlanFor, Positive, FromElements;
    PlannedSizes(p, blobs, pushes);
  }

  /** The parsed signature is what the elements are. */
  lemma GivenHolds(p: Params, x: seq<Bytes>)
    requires p.WellFormed() && |x| == p.SigElements()
    ensures p.lgw > 0 && Holds(p, x, FromElements(p, x).value)
  {
    hide Params.WellFormed, Params.Len, ParseParts, Holds, Span, Params.SigElements, Fits, Measured;
    PartsWithin(p, x);
    PartsFit(p, x);
  }

  lemma ReadyRep(blobs: seq<nat>, pushes: seq<Bytes>, msg: Bytes, peak: nat)
    requires PlanFor(blobs, pushes) && |blobs| + 1 <= peak
    ensures var m := VM(Cons(Blob(msg), Nil), BlobStack(pushes), Nil, peak);
            Queued(blobs, pushes, msg, m) && Rep(m) == Ready(pushes, msg, peak) && Rep(m).peak == peak
  {
    QueueRep(pushes);
    assert Len(Cons(Blob(msg), Nil)) == 1 && Len(BlobStack(pushes)) == |blobs|;
  }

  lemma EmitBodyIs(h: Hash, p: Params, pk: PublicKey, blobs: seq<nat>, sig: Signature, msg: Bytes, pre: seq<Op>)
    requires p.WellFormed() && Sized(p) && Fits(p, sig)
    ensures EmitBody(p, pk, blobs, Begin(pre))
            == EmitChecked(blobs, BodyPhases(p, pk), p.SigElements(), pk.root, Begin(pre))
    ensures Verifies(h, p, pk, sig, msg) <==> CandidateRoot(h, p, pk, sig, msg) == pk.root
  {
    hide EmitChecked, BodyPhases, CandidateRoot, Fits, Params.SigElements;
  }

  lemma AnswersAfter(env: Env, blobs: seq<nat>, pre: seq<Op>, e: Em, m0: VM<Bytes>, m1: VM<Bytes>, answer: bool)
    requires Run(env, pre, m0) == Some(m1) && Answers(env, e.code, m1, answer, Max(m1.peak, e.peak + AltMax(blobs)))
    requires m1.peak <= |blobs| + 3 && e.peak >= 3 && Largest(blobs) >= 1
    ensures Prefixed(pre, e).peak == e.peak
    ensures Answers(env, Prefixed(pre, e).code, m0, answer, PeakStackEstimate(blobs, e.peak))
  {
    hide Run;
    RunAppend(env, pre, e.code, m0);
  }

  /** The body's meaning on the elements the pushes are cut into. */
  lemma BodyMeans(env: Env, p: Params, pk: PublicKey, blobs: seq<nat>, pushes: seq<Bytes>, msg: Bytes)
    requires p.WellFormed() && Sized(p) && Planned(p, blobs) && |pushes| == |blobs|
    ensures Eval(env.hash, CutElems(blobs, pushes), BodyPhases(p, pk), FromMessage(msg))
            == NodeOnly(CandidateRoot(env.hash, p, pk, Given(p, blobs, pushes), msg), Sum(blobs))
  {
    hide *;
    PlannedFacts(p, blobs, pushes);
    BodyOk(env.hash, CutElems(blobs, pushes), p, pk, Given(p, blobs, pushes), msg);
  }

  // ---- pushes that are too short -------------------------------------------

  /** Slicing a push with too few bytes for its blob stops the script. */
  lemma ShortSlice(env: Env, bytes: Bytes, c: nat, m: VM<Bytes>, rest: List<Bytes>)
    requires !Long(c, bytes) && InRange(ELEM * c) && m.cond == Nil && m.alt == Cons(bytes, rest)
    ensures Run(env, SliceOps(c), m) == None
  {
    var k := c - 1;
    var head := [OpDup] + [PushNum(k * ELEM)] + [PushNum((k + 1) * ELEM)] + [OpSubstr];
    var tail := [OpToAltStack, PushNum(0), PushNum(k * ELEM), OpSubstr] + SlicePeel(k - 1) + [OpToAltStack];
    assert SliceOps(c) == [OpFromAltStack] + (head + tail) by {
      assert head == [OpDup, PushNum(k * ELEM), PushNum((k + 1) * ELEM), OpSubstr];
    }
    ShortSubstr(env, bytes, k, m, rest);
    hide Run, SlicePeel, SliceOps;
    RunSeq(env, [OpFromAltStack], head + tail, m);
    if Run(env, [OpFromAltStack], m).Some? {
      RunSeq(env, head, tail, Run(env, [OpFromAltStack], m).value);
    }
  }

  lemma ShortSubstr(env: Env, bytes: Bytes, k: nat, m: VM<Bytes>, rest: List<Bytes>)
    requires |bytes| < (k + 1) * ELEM && InRange((k + 1) * ELEM) && m.cond == Nil && m.alt == Cons(bytes, rest)
    ensures var r := Run(env, [OpFromAltStack], m);
            r.Some? && Run(env, [OpDup] + [PushNum(k * ELEM)] + [PushNum((k + 1) * ELEM)] + [OpSubstr], r.value) == None
  {
    var from, to := k * ELEM, (k + 1) * ELEM;
    var s := Cons(bytes, m.stack);
    One(env, OpFromAltStack, m);
    var m1 := Run(env, [OpFromAltStack], m).value;
    assert m1.stack == s && m1.cond == Nil;
    One(env, OpDup, m1);
    var m2 := Run(env, [OpDup], m1).value;
    One(env, PushNum(from), m2);
    var m3 := Run(env, [PushNum(from)], m2).value;
    One(env, PushNum(to), m3);
    var m4 := Run(env, [PushNum(to)], m3).value;
    assert m4.stack == Cons(MinEnc(to), Cons(MinEnc(from), Cons(bytes, s))) && m4.cond == Nil;
    AsNumMinEnc(from);
    AsNumMinEnc(to);
    assert Exec(env, OpSubstr, m4) == None by { hide MinEnc, AsNum; }
    One(env, OpSubstr, m4);
    hide Run, MinEnc;
    RunSeq(env, [OpDup], [PushNum(from)], m1);
    RunSeq(env, [OpDup] + [PushNum(from)], [PushNum(to)], m1);
    RunSeq(env, [OpDup] + [PushNum(from)] + [PushNum(to)], [OpSubstr], m1);
  }

  lemma One(env: Env, op: Op, m: VM<Bytes>)
    ensures Run(env, [op], m) == Step(env, op, m)
  {
    hide Step;
    assert [op][1..] == [];
  }

  /** Somewhere a body that fetches past element n fetches element n. */
  lemma {:induction false} FetchOf(hash: Hash, sig: seq<Bytes>, ms: seq<Macro>, st: St, n: nat) returns (i: nat)
    requires Eval(hash, sig, ms, st).St? && st.St? && st.el <= n < Eval(hash, sig, ms, st).el
    ensures i < |ms| && ms[i].Fetch?
    ensures Eval(hash, sig, ms[..i], st).St? && Eval(hash, sig, ms[..i], st).el == n
  {
    hide Do;
    var st' := Do(hash, sig, ms[0], st);
    if st'.Stuck? {
      StuckStays(hash, sig, ms[1..]);
    }
    GateFetchesNothing(hash, sig, ms[0], st);
    if ms[0].Fetch? && st.el == n {
      i := 0;
    } else {
      var j := FetchOf(hash, sig, ms[1..], st', n);
      i := j + 1;
      assert ms[..i][0] == ms[0] && ms[..i][1..] == ms[1..][..j];
    }
  }

  /** Generation only ever appends. */
  lemma CodeGrows(blobs: seq<nat>, ms: seq<Macro>, e: Em)
    requires EmitAll(blobs, ms, e).Some?
    ensures e.code <= EmitAll(blobs, ms, e).value.code
  {
    hide EmitAll;
    var bare := e.(code := []);
    assert Prefixed(e.code, bare) == e;
    EmitAllPrefix(blobs, ms, e.code, bare);
  }

  /** The first push that is too short, and the element its blob starts with. */
  lemma FirstShort(blobs: seq<nat>, pushes: seq<Bytes>) returns (b: nat)
    requires |pushes| == |blobs| && Positive(blobs) && !AllLong(blobs, pushes)
    ensures b < |blobs| && !Long(blobs[b], pushes[b]) && LongUpTo(blobs, pushes, Sum(blobs[..b]))
    ensures Sum(blobs[..b]) < Sum(blobs) && Pending(blobs, Sum(blobs[..b])) == 0
  {
    b := 0;
    while Long(blobs[b], pushes[b])
      invariant b < |blobs| && forall i: nat :: i < b ==> Long(blobs[i], pushes[i])
      decreases |blobs| - b
    {
      b := b + 1;
    }
    PendingAt(blobs, b);
    forall i: nat | i < |blobs| && Sum(blobs[..i]) < Sum(blobs[..b])
      ensures Long(blobs[i], pushes[i])
    {
      if i >= b {
        SumMono(blobs, b, i);
      }
    }
    SumMono(blobs, b + 1, |blobs|);
    assert blobs[..|blobs|] == blobs;
    assert blobs[..b + 1] == blobs[..b] + [blobs[b]];
    SumAppend(blobs[..b], [blobs[b]]);
    var one := [blobs[b]];
    assert one[1..] == [] && Sum(one) == blobs[b];
  }

  lemma SumMono(blobs: seq<nat>, i: nat, j: nat)
    requires i <= j <= |blobs|
    ensures Sum(blobs[..i]) <= Sum(blobs[..j])
  {
    assert blobs[..j] == blobs[..i] + blobs[i..j];
    SumAppend(blobs[..i], blobs[i..j]);
  }

  lemma {:induction false} PendingAt(blobs: seq<nat>, b: nat)
    requires b < |blobs| && Positive(blobs)
    ensures Pending(blobs, Sum(blobs[..b])) == 0
  {
    if b > 0 {
      assert blobs[..b][0] == blobs[0] && blobs[..b][1..] == blobs[1..][..b - 1];
      PendingAt(blobs[1..], b - 1);
    }
  }

  lemma {:induction false} SumStrict(blobs: seq<nat>, a: nat, b: nat)
    requires a < |blobs| && b < |blobs| && Positive(blobs) && Sum(blobs[..a]) == Sum(blobs[..b])
    ensures a == b
  {
    if a < b {
      assert blobs[..a + 1] == blobs[..a] + [blobs[a]];
      SumAppend(blobs[..a], [blobs[a]]);
      SumMono(blobs, a + 1, b);
    } else if b < a {
      assert blobs[..b + 1] == blobs[..b] + [blobs[b]];
      SumAppend(blobs[..b], [blobs[b]]);
      SumMono(blobs, b + 1, a);
    }
  }

  /** Code that stops goes on stopping whatever follows it. */
  lemma AbortStays(env: Env, head: seq<Op>, code: seq<Op>, m: VM<Bytes>)
    requires head <= code && Run(env, head, m) == None
    ensures Run(env, code, m) == None
  {
    hide Run;
    RunSeq(env, head, code[|head|..], m);
    assert head + code[|head|..] == code;
  }

  /** The generator's refill at call i is a prefix of everything it emits. */
  lemma RefillWithin(blobs: seq<nat>, ms: seq<Macro>, i: nat, e: Em)
    requires EmitAll(blobs, ms, e).Some? && i < |ms| && ms[i].Fetch?
    ensures EmitAll(blobs, ms[..i], e).Some?
    ensures var r := EmitRefill(blobs, EmitAll(blobs, ms[..i], e).value);
            r.Some? && r.value.code <= EmitAll(blobs, ms, e).value.code
  {
    hide EmitRefill;
    assert ms == ms[..i] + ms[i..];
    EmitAllAppend(blobs, ms[..i], ms[i..], e);
    var e1 := EmitAll(blobs, ms[..i], e).value;
    assert ms[i..][0] == ms[i] && EmitAll(blobs, ms[i..], e1).Some?;
    var e2 := EmitOne(blobs, ms[i], e1).value;
    CodeGrows(blobs, ms[i..][1..], e2);
  }

  /** Reaching the blob of a push that is too short, the machine stops in the middle of slicing it. */
  lemma SliceStops(env: Env, blobs: seq<nat>, pushes: seq<Bytes>, m: VM<Val>, e: Em, st: St, b: nat)
    requires m.cond == Nil && Tracks(env, blobs, pushes, m, e, st) && b < |blobs| && st.el == Sum(blobs[..b])
    requires st.el < Sum(blobs) && Pending(blobs, st.el) == 0 && !Long(blobs[b], pushes[b])
    ensures EmitRefill(blobs, e).Some? && Run(env, EmitRefill(blobs, e).value.code, Rep(m)) == None
  {
    hide TRun, Run, Sum, Largest, SliceOps, QueueAlt, Pending, ElemStack, CutBlob, CutElems, Long;
    var mid := TRun(env, e.code, m).value;
    var at, rest := QueueRefill(blobs, pushes, st.el);
    SumStrict(blobs, at, b);
    BlobWithin(blobs, b);
    RunRep(env, e.code, m);
    ShortSlice(env, pushes[b], blobs[b], Rep(mid), RepList(rest));
    RunSeq(env, e.code, SliceOps(blobs[b]), Rep(m));
  }

  /** A push that is too short stops any body that would fetch every element. */
  lemma ShortStops(env: Env, blobs: seq<nat>, pushes: seq<Bytes>, body: seq<Macro>, want: Bytes, msg: Bytes, m: VM<Val>,
                   end: St)
    requires Queued(blobs, pushes, msg, m) && |pushes| == |blobs| && !AllLong(blobs, pushes)
    requires Eval(env.hash, CutElems(blobs, pushes), body, FromMessage(msg)) == end && end.St? && end.el == Sum(blobs)
    requires EmitChecked(blobs, body, Sum(blobs), want, Begin([])).Some?
    ensures Run(env, EmitChecked(blobs, body, Sum(blobs), want, Begin([])).value.code, Rep(m)) == None
  {
    var xs, st, e := CutElems(blobs, pushes), FromMessage(msg), Begin([]);
    hide *;
    QueuedParts(blobs, pushes, msg, m);
    Shapes(msg, [], 0);
    var b := FirstShort(blobs, pushes);
    var i := FetchOf(env.hash, xs, body, st, Sum(blobs[..b]));
    StartTracks(env, blobs, pushes, msg, m);
    EmitFollowsEval(env, blobs, pushes, m, body[..i], e, st);
    var e1 := EmitAll(blobs, body[..i], e).value;
    SliceStops(env, blobs, pushes, m, e1, Eval(env.hash, xs, body[..i], st), b);
    CheckedCode(blobs, body, want, e);
    RefillWithin(blobs, body, i, e);
    AbortStays(env, EmitRefill(blobs, e1).value.code, EmitAll(blobs, body, e).value.code, Rep(m));
    AbortStays(env, EmitAll(blobs, body, e).value.code, EmitChecked(blobs, body, Sum(blobs), want, e).value.code, Rep(m));
  }

  lemma CheckedCode(blobs: seq<nat>, body: seq<Macro>, want: Bytes, e: Em)
    requires EmitChecked(blobs, body, Sum(blobs), want, e).Some?
    ensures EmitAll(blobs, body, e).Some?
    ensures EmitAll(blobs, body, e).value.code <= EmitChecked(blobs, body, Sum(blobs), want, e).value.code
  {
    hide EmitAll, Sum;
    CodeGrows(blobs, [Data(want), Equal], EmitAll(blobs, body, e).value);
  }

  // ---- any pushes ----------------------------------------------------------

  /**
   * What a script makes of any pushes, one a blob: when every push reaches the end of its blob it answers the verifier's
   * equation over the elements they are cut into, within the stack estimate; otherwise it stops.
   */
  ghost predicate Judges(env: Env, p: Params, pk: PublicKey, blobs: seq<nat>, pushes: seq<Bytes>, msg: Bytes, e: Option<Em>,
                         m0: VM<Bytes>)
    requires p.WellFormed() && Planned(p, blobs) && |pushes| == |blobs|
  {
    && e.Some?
    && if AllLong(blobs, pushes) then
         Answers(env, e.value.code, m0, Verifies(env.hash, p, pk, Given(p, blobs, pushes), msg),
                 PeakStackEstimate(blobs, e.value.peak))
       else Run(env, e.value.code, m0).None?
  }

  /** Generation depends on the set, key and plan only, so it succeeds whatever is pushed. */
  lemma GenerationSucceeds(env: Env, p: Params, pk: PublicKey, blobs: seq<nat>, pre: seq<Op>)
    requires p.WellFormed() && Sized(p) && Planned(p, blobs)
    ensures EmitBody(p, pk, blobs, Begin([])) == EmitChecked(blobs, BodyPhases(p, pk), Sum(blobs), pk.root, Begin([]))
    ensures EmitBody(p, pk, blobs, Begin([])).Some? && EmitBody(p, pk, blobs, Begin([])).value.peak >= 3
    ensures EmitBody(p, pk, blobs, Begin(pre)) == Some(Prefixed(pre, EmitBody(p, pk, blobs, Begin([])).value))
    ensures EmitBody(p, pk, blobs, Begin(pre)).value.code == pre + EmitBody(p, pk, blobs, Begin([])).value.code
  {
    hide *;
    var pushes := WitnessBlobs(blobs, Zeros(ELEM * Sum(blobs)));
    WitnessCut(blobs, Zeros(ELEM * Sum(blobs)));
    PlannedFacts(p, blobs, pushes);
    BodyMeans(env, p, pk, blobs, pushes, []);
    FirstCalls(p, pk);
    var body, root := BodyPhases(p, pk), CandidateRoot(env.hash, p, pk, Given(p, blobs, pushes), []);
    ReadyRep(blobs, pushes, [], |blobs| + 1);
    LongAll(blobs, pushes);
    CheckedRuns(env, blobs, pushes, body, root, pk.root, [], VM(Cons(Blob([]), Nil), BlobStack(pushes), Nil, |blobs| + 1));
    CheckedPrefix(blobs, body, Sum(blobs), pk.root, pre);
    EmitBodyIs(env.hash, p, pk, blobs, Given(p, blobs, pushes), [], pre);
    EmitBodyIs(env.hash, p, pk, blobs, Given(p, blobs, pushes), [], []);
    PrefixedCode(pre, EmitBody(p, pk, blobs, Begin([])).value);
  }

  lemma PrefixedCode(pre: seq<Op>, e: Em)
    ensures Prefixed(pre, e).code == pre + e.code
  {
  }

  lemma LongAll(blobs: seq<nat>, pushes: seq<Bytes>)
    requires |pushes| == |blobs| && AllLong(blobs, pushes)
    ensures forall n :: LongUpTo(blobs, pushes, n)
  {
  }

  /**
   * Once a prefix of the script has left the message on the stack and the pushes queued behind it, the rest of the
   * script judges them.
   */
  lemma ScriptJudges(env: Env, p: Params, pk: PublicKey, blobs: seq<nat>, pushes: seq<Bytes>, msg: Bytes, pre: seq<Op>,
                     m0: VM<Bytes>, peak: nat)
    requires p.WellFormed() && Sized(p) && Planned(p, blobs) && |pushes| == |blobs|
    requires |blobs| + 1 <= peak <= |blobs| + 3
    requires Run(env, pre, m0) == Some(Ready(pushes, msg, peak))
    ensures Judges(env, p, pk, blobs, pushes, msg, EmitBody(p, pk, blobs, Begin(pre)), m0)
  {
    hide *;
    PlannedFacts(p, blobs, pushes);
    var sig, body := Given(p, blobs, pushes), BodyPhases(p, pk);
    var root := CandidateRoot(env.hash, p, pk, sig, msg);
    var m := VM(Cons(Blob(msg), Nil), BlobStack(pushes), Nil, peak);
    ReadyRep(blobs, pushes, msg, peak);
    BodyMeans(env, p, pk, blobs, pushes, msg);
    FirstCalls(p, pk);
    GenerationSucceeds(env, p, pk, blobs, pre);
    EmitBodyIs(env.hash, p, pk, blobs, sig, msg, pre);
    var e := EmitBody(p, pk, blobs, Begin([])).value;
    if AllLong(blobs, pushes) {
      LongAll(blobs, pushes);
      CheckedRuns(env, blobs, pushes, body, root, pk.root, msg, m);
      DecidesAnswers(env, e.code, m, root == pk.root, e.peak, AltMax(blobs));
      AnswersAfter(env, blobs, pre, e, m0, Rep(m), root == pk.root);
    } else {
      Shapes(msg, root, Sum(blobs));
      ShortStops(env, blobs, pushes, body, pk.root, msg, m, NodeOnly(root, Sum(blobs)));
      RunSeq(env, pre, e.code, m0);
    }
    JudgesIf(env, p, pk, blobs, pushes, msg, EmitBody(p, pk, blobs, Begin(pre)), m0);
  }

  lemma JudgesIf(env: Env, p: Params, pk: PublicKey, blobs: seq<nat>, pushes: seq<Bytes>, msg: Bytes, e: Option<Em>,
                 m0: VM<Bytes>)
    requires p.WellFormed() && Planned(p, blobs) && |pushes| == |blobs| && e.Some?
    requires AllLong(blobs, pushes) ==>
               Answers(env, e.value.code, m0, Verifies(env.hash, p, pk, Given(p, blobs, pushes), msg),
                       PeakStackEstimate(blobs, e.value.peak))
    requires !AllLong(blobs, pushes) ==> Run(env, e.value.code, m0) == None
    ensures Judges(env, p, pk, blobs, pushes, msg, e, m0)
  {
    hide Given, AllLong, Answers, Verifies, Planned, Params.WellFormed;
  }

  /** A machine holding these pushes above a base, the last on top. */
  function Pushed(pushes: seq<Bytes>, base: List<Bytes>): VM<Bytes>
  {
    VM(PushAll(pushes, base), Nil, Nil, |pushes| + Len(base))
  }

  /**
   * Compiler correctness on any witness. For every well-formed set, key, positive plan, message and any pushes, one a
   * blob and of any lengths: the generated script stops if some push of a blob of several elements is shorter than them,
   * and otherwise ends with one boolean, the verifier's equation over the elements the pushes are cut into.
   */
  lemma VerifyAnyPushes(env: Env, p: Params, pk: PublicKey, blobs: seq<nat>, pushes: seq<Bytes>, msg: Bytes)
    requires p.WellFormed() && Planned(p, blobs) && |pushes| == |blobs|
    ensures Sized(p) && Judges(env, p, pk, blobs, pushes, msg, EmitVerify(p, pk, blobs), Pushed(pushes, Cons(msg, Nil)))
  {
    hide *;
    WellFormedSized(p);
    PrologueReady(env, pushes, msg);
    ScriptJudges(env, p, pk, blobs, pushes, msg, Prologue(|blobs|), Pushed(pushes, Cons(msg, Nil)), |blobs| + 1);
    EmitVerifyIs(p, pk, blobs);
  }

  lemma PrologueReady(env: Env, pushes: seq<Bytes>, msg: Bytes)
    ensures Run(env, Prologue(|pushes|), Pushed(pushes, Cons(msg, Nil))) == Some(Ready(pushes, msg, |pushes| + 1))
  {
    var none: List<Bytes> := Nil;
    assert Len(none) == 0 && Len(Cons(msg, none)) == 1 + Len(none);
    PrologueRun(env, pushes, Cons(msg, Nil), Nil, |pushes| + 1);
  }

  lemma EmitVerifyIs(p: Params, pk: PublicKey, blobs: seq<nat>)
    requires Sized(p)
    ensures EmitVerify(p, pk, blobs) == EmitBody(p, pk, blobs, Begin(Prologue(|blobs|)))
  {
    hide EmitBody;
  }

  // ---- the pushes of a signature -------------------------------------------

  /** Every push holds its blob's bytes; more may follow them unless the blob is a single element. */
  predicate Full(blobs: seq<nat>, pushes: seq<Bytes>)
    requires |pushes| == |blobs|
  {
    forall b: nat :: b < |blobs| ==>
      |pushes[b]| >= ELEM * blobs[b] && (blobs[b] == 1 ==> |pushes[b]| == ELEM)
  }

  /** The pushes without what follows their blobs. */
  function Trimmed(blobs: seq<nat>, pushes: seq<Bytes>): (r: seq<Bytes>)
    requires |pushes| == |blobs| && Full(blobs, pushes)
    ensures |r| == |blobs| && forall b: nat :: b < |blobs| ==> r[b] == pushes[b][..ELEM * blobs[b]]
  {
    seq(|blobs|, b requires 0 <= b < |blobs| && |pushes| == |blobs| && Full(blobs, pushes) => pushes[b][..ELEM * blobs[b]])
  }

  lemma {:induction false} TrimmedCut(blobs: seq<nat>, pushes: seq<Bytes>)
    requires |pushes| == |blobs| && Full(blobs, pushes)
    ensures CutElems(blobs, Trimmed(blobs, pushes)) == CutElems(blobs, pushes)
  {
    if |blobs| > 0 {
      var t := Trimmed(blobs, pushes);
      assert Full(blobs[1..], pushes[1..]) by {
        assert forall b: nat :: b < |blobs[1..]| ==> blobs[1..][b] == blobs[b + 1] && pushes[1..][b] == pushes[b + 1];
      }
      assert t[1..] == Trimmed(blobs[1..], pushes[1..]);
      TrimmedCut(blobs[1..], pushes[1..]);
      FirstCut(blobs[0], pushes[0]);
      forall j: nat | j < blobs[0]
        ensures CutElem(blobs[0], t[0], j) == CutElem(blobs[0], pushes[0], j)
      {
      }
      assert CutBlob(blobs[0], t[0]) == CutBlob(blobs[0], pushes[0]);
    }
  }

  /**
   * Pushes that hold the bytes of a signature are that signature to the script, whatever follows them in blobs of several
   * elements.
   */
  lemma FullPushes(p: Params, blobs: seq<nat>, pushes: seq<Bytes>)
    requires p.WellFormed() && Planned(p, blobs) && |pushes| == |blobs| && Full(blobs, pushes)
    ensures AllLong(blobs, pushes)
    ensures FromBytes(p, Concat(Trimmed(blobs, pushes))) == Some(Given(p, blobs, pushes))
  {
    var t := Trimmed(blobs, pushes);
    hide *;
    FullLong(blobs, pushes);
    TrimmedCut(blobs, pushes);
    PushesAreWitness(blobs, t);
    WitnessCut(blobs, Concat(t));
    GivenIsParsed(p, blobs, pushes, Concat(t));
  }

  lemma FullLong(blobs: seq<nat>, pushes: seq<Bytes>)
    requires |pushes| == |blobs| && Full(blobs, pushes)
    ensures AllLong(blobs, pushes)
    ensures forall b: nat :: b < |blobs| ==> |Trimmed(blobs, pushes)[b]| == ELEM * blobs[b]
  {
  }

  lemma GivenIsParsed(p: Params, blobs: seq<nat>, pushes: seq<Bytes>, x: Bytes)
    requires p.WellFormed() && Planned(p, blobs) && |pushes| == |blobs| && |x| == ELEM * Sum(blobs)
    requires CutElems(blobs, pushes) == Chunks(x, Sum(blobs))
    ensures |x| == p.SigLen() && FromBytes(p, x) == Some(Given(p, blobs, pushes))
  {
    DigitWidth(p);
    hide FromElements, Params.WellFormed, Params.SigElements, Params.SigLen, CutElems, Chunks, Sum;
  }

  /** A positive plan that covers the set's elements, and a signature of the right length. */
  predicate Fed(p: Params, blobs: seq<nat>, x: Bytes)
    requires p.WellFormed()
  {
    Positive(blobs) && Sum(blobs) == p.SigElements() && |x| == p.SigLen()
  }

  /** The witness of a signature gives the script that signature. */
  lemma FedFacts(p: Params, blobs: seq<nat>, x: Bytes)
    requires p.WellFormed() && Fed(p, blobs, x)
    ensures Planned(p, blobs) && |x| == ELEM * Sum(blobs) && |WitnessBlobs(blobs, x)| == |blobs|
    ensures AllLong(blobs, WitnessBlobs(blobs, x))
    ensures FromBytes(p, x) == Some(Given(p, blobs, WitnessBlobs(blobs, x)))
  {
    DigitWidth(p);
    hide Params.WellFormed, Params.SigElements, Params.SigLen, Sum, FromBytes, Given, AllLong;
    WitnessCut(blobs, x);
    GivenIsParsed(p, blobs, WitnessBlobs(blobs, x), x);
  }

  /**
   * Compiler correctness. For every well-formed set, key, positive plan, message and signature of the right length, the
   * generated script never aborts on its witness: it ends with a single boolean that is true exactly when the
   * reference verifier accepts, and no more than `peak_stack_estimate` items are ever held.
   */
  lemma VerifyScriptCorrect(env: Env, p: Params, pk: PublicKey, blobs: seq<nat>, x: Bytes, msg: Bytes)
    requires p.WellFormed() && Fed(p, blobs, x)
    ensures Sized(p) && |x| == ELEM * Sum(blobs)
    ensures var e := EmitVerify(p, pk, blobs);
            && e.Some?
            && Answers(env, e.value.code, Pushed(WitnessBlobs(blobs, x), Cons(msg, Nil)),
                       Verifies(env.hash, p, pk, FromBytes(p, x).value, msg),
                       PeakStackEstimate(blobs, e.value.peak))
  {
    hide *;
    FedFacts(p, blobs, x);
    VerifyAnyPushes(env, p, pk, blobs, WitnessBlobs(blobs, x), msg);
    JudgesWitness(env, p, pk, blobs, x, msg, EmitVerify(p, pk, blobs), Pushed(WitnessBlobs(blobs, x), Cons(msg, Nil)));
  }

  /** Judging the witness of a signature is answering for that signature. */
  lemma JudgesWitness(env: Env, p: Params, pk: PublicKey, blobs: seq<nat>, x: Bytes, msg: Bytes, e: Option<Em>, m0: VM<Bytes>)
    requires p.WellFormed() && Planned(p, blobs) && |x| == ELEM * Sum(blobs) && |WitnessBlobs(blobs, x)| == |blobs|
    requires AllLong(blobs, WitnessBlobs(blobs, x)) && FromBytes(p, x) == Some(Given(p, blobs, WitnessBlobs(blobs, x)))
    requires Judges(env, p, pk, blobs, WitnessBlobs(blobs, x), msg, e, m0)
    ensures e.Some?
    ensures Answers(env, e.value.code, m0, Verifies(env.hash, p, pk, FromBytes(p, x).value, msg),
                    PeakStackEstimate(blobs, e.value.peak))
  {
    hide Params.WellFormed, Planned, AllLong, FromBytes, Given, Answers, Verifies, WitnessBlobs;
  }
}
