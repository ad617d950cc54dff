/** The WOTS+ phase: checksum, gated chains and the compressed public key. */
module SlhWots {
  import opened Arith
  import opened Bytes
  import opened Lists
  import opened Numbers
  import opened Machine
  import opened Params
  import opened Adrs
  import opened Frames
  import opened Emission
  import opened Simulation
  import Faithful
  import opened EvalSteps
  import opened Reference
  import opened SlhProgram
  import opened SlhHelpers
  import opened SlhPath
  import opened SlhFors

  // ---- gates ---------------------------------------------------------------

  /** Straight-line primitives mean the same inside a gate as outside it. */
  lemma {:induction false} PlainEval(h: Hash, sig: seq<Bytes>, ms: seq<Macro>, l: NS, l': NS, el: nat)
    requires AllPlain(ms) && Eval(h, sig, ms, St(l, el)) == St(l', el)
    ensures DoPlainAll(h, ms, l) == Some(l')
  {
    hide DoPlain;
    if |ms| > 0 {
      assert !ms[0].Fetch? && !ms[0].Gate?;
      if DoPlain(h, ms[0], l).None? {
        Faithful.StuckStays(h, sig, ms[1..]);
      } else {
        PlainEval(h, sig, ms[1..], DoPlain(h, ms[0], l).value, l', el);
      }
    }
  }

  lemma {:induction false} BlockNames(h: Hash, ms: seq<Macro>, l: NS, b: Block)
    requires DoPlainAll(h, ms, l).Some? && b.f == Names(l)
    ensures PlainAll(ms, b).Some? && PlainAll(ms, b).value.f == Names(DoPlainAll(h, ms, l).value)
  {
    hide DoPlain, PlainFrame, PlainOps, PlainNote;
    if |ms| > 0 {
      PlainFrameOk(h, ms[0], l);
      BlockNames(h, ms[1..], DoPlain(h, ms[0], l).value, PlainOne(ms[0], b).value);
    }
  }

  /** A gate whose body keeps every name: either the body's effect or nothing. */
  lemma GateKeeps(h: Hash, sig: seq<Bytes>, body: seq<Macro>, n: nat, l: NS, l': NS, el: nat)
    requires AllPlain(body) && Eval(h, sig, body, St(l, el)) == St(l', el) && Names(l') == Names(l) && n in {0, 1}
    ensures Do(h, sig, Gate(body), St(Cons(Tr(Num(n)), l), el)) == St(if n == 1 then l' else l, el)
  {
    hide Eval, DoPlainAll, PlainAll;
    PlainEval(h, sig, body, l, l', el);
    BlockNames(h, body, l, Block([], Names(l), 0));
    ZipSelf(l);
  }

  // ---- checksum ------------------------------------------------------------

  /** Add one digit's distance from w - 1. */
  lemma ChecksumStepOk(h: Hash, sig: seq<Bytes>, p: Params, m: Bytes, i: nat, sum: nat, digit: nat, t: NS, el: nat)
    requires p.lgw in {1, 2, 4, 8} && |m| == N && p.lgw * i + p.lgw <= 8 * N
    requires digit == Field(m, p.lgw * i, p.lgw) && digit < p.W() <= 256 && sum + 256 < NumLimit
    requires Find(t, Node) == Some(Blob(m))
    ensures Eval(h, sig, DigitAt(p, Node, i) + [Number(p.W() - 1), Swap, BinaryNum(Sub), BinaryNum(Add), NameTop(Csum)],
                 St(Cons(Item(Csum, Num(sum)), t), el))
            == St(Cons(Item(Csum, Num(sum + (p.W() - 1 - digit))), t), el)
  {
    hide Eval, Do, DigitAt, Field, Params.W;
    SequenceRules(h, sig);
    DisplayRules(h, sig);
    ShuffleRules(h, sig);
    NamingRules(h, sig);
    ArithRules(h, sig);
    DigitAtOk(h, sig, p, Node, m, i, Cons(Item(Csum, Num(sum)), t), el);
  }

  lemma ChecksumGrows(d: seq<nat>, w: nat, n: nat)
    requires forall i :: 0 <= i < |d| ==> d[i] < w
    requires w <= 256 && |d| <= 128 && 0 < n <= |d|
    ensures Checksum(d[..n], w) == Checksum(d[..n - 1], w) + (w - 1 - d[n - 1])
    ensures Checksum(d[..n - 1], w) + 256 < NumLimit
  {
    assert d[..n][..n - 1] == d[..n - 1];
    assert d[0] < w;
    ChecksumBound(d[..n - 1], w);
  }

  lemma DigitIsField(p: Params, m: Bytes, i: nat)
    requires p.lgw in {1, 2, 4, 8} && |m| == N && i < |DigitsOf(p, m)|
    ensures var at := p.lgw * i;
            0 <= at && at + p.lgw <= 8 * |m| && DigitsOf(p, m)[i] == Field(m, at, p.lgw)
    ensures p.Len1() <= 128 && p.W() <= 256
  {
    hide *;
    DigitCounts(p);
  }

  lemma {:induction false} ChecksumStepsOk(h: Hash, sig: seq<Bytes>, p: Params, m: Bytes, n: nat, t: NS, el: nat)
    requires p.lgw in {1, 2, 4, 8} && |m| == N && n <= p.Len1() && Find(t, Node) == Some(Blob(m))
    ensures Eval(h, sig, ChecksumSteps(p, n), St(Cons(Item(Csum, Num(0)), t), el))
            == St(Cons(Item(Csum, Num(Checksum(DigitsOf(p, m)[..n], p.W()))), t), el)
  {
    hide Eval, DigitAt, DigitsOf, Params.W, Params.Len1, Field;
    var start := St(Cons(Item(Csum, Num(0)), t), el);
    if n == 0 {
      EvalNone(h, sig, start);
      assert DigitsOf(p, m)[..0] == [];
    } else {
      ChecksumStepsOk(h, sig, p, m, n - 1, t, el);
      var d := DigitsOf(p, m);
      DigitIsField(p, m, n - 1);
      ChecksumGrows(d, p.W(), n);
      ChecksumStepOk(h, sig, p, m, n - 1, Checksum(d[..n - 1], p.W()), d[n - 1], t, el);
      var tail := [Number(p.W() - 1), Swap, BinaryNum(Sub), BinaryNum(Add), NameTop(Csum)];
      assert ChecksumSteps(p, n) == ChecksumSteps(p, n - 1) + (DigitAt(p, Node, n - 1) + tail);
      EvalAppend(h, sig, ChecksumSteps(p, n - 1), DigitAt(p, Node, n - 1) + tail, start);
    }
  }

  // ---- one digit -----------------------------------------------------------

  lemma ChecksumDigitOk(h: Hash, sig: seq<Bytes>, csum: nat, bits: nat, lgw: nat, j: nat, shift: nat, t: NS, el: nat)
    requires csum < Pow2(bits) && bits <= 20 && lgw <= 8 && shift + lgw * (j + 1) == bits
    requires Find(t, Csum) == Some(Num(csum))
    ensures Eval(h, sig, [Pick(Csum)] + ShiftDown(shift) + (if j > 0 then MaskTo(lgw) else []), St(t, el))
            == St(Cons(Tr(Num(Low(Shr(csum, shift), lgw))), t), el)
  {
    hide Eval, Do, ShiftDown, MaskTo, Low, Shr, Pow2;
    SequenceRules(h, sig);
    NamingRules(h, sig);
    PowerFits(bits);
    ShiftDownOk(h, sig, csum, shift, t, el);
    if j > 0 {
      MaskToOk(h, sig, Shr(csum, shift), lgw, t, el);
    } else {
      TopDigit(csum, bits, lgw, shift);
    }
  }

  /** The first checksum digit needs no mask. */
  lemma TopDigit(csum: nat, bits: nat, lgw: nat, shift: nat)
    requires csum < Pow2(bits) && shift + lgw == bits
    ensures Low(Shr(csum, shift), lgw) == Shr(csum, shift)
  {
    Pow2Add(shift, lgw);
    DivLess(csum, Pow2(shift), Pow2(lgw));
    ModSmall(Shr(csum, shift), Pow2(lgw));
  }

  lemma ChainDigitOk(h: Hash, sig: seq<Bytes>, p: Params, m: Bytes, i: nat, t: NS, el: nat)
    requires p.lgw in {1, 2, 4, 8} && |m| == N && i < p.Len()
    requires Find(t, Node) == Some(Blob(m)) && Find(t, Csum) == Some(Num(ChecksumOf(p, m)))
    ensures Eval(h, sig, ChainDigit(p, i), St(t, el)) == St(Cons(Tr(Num(WotsDigit(p, m, i))), t), el)
  {
    hide Eval, Low, Shr, Field, DigitAt, ChecksumOf, ShiftDown, MaskTo, Find, Params.Len1, Params.Len2;
    if i < p.Len1() {
      DigitIsField(p, m, i);
      DigitAtOk(h, sig, p, Node, m, i, t, el);
    } else {
      DigitCounts(p);
      ChecksumFits(p, m);
      var j := i - p.Len1();
      ChecksumDigitOk(h, sig, ChecksumOf(p, m), p.CsumBits(), p.lgw, j, ChecksumShift(p, j), t, el);
    }
  }

  // ---- one chain -----------------------------------------------------------

  function ChainBody(step: nat): seq<Macro>
  {
    [Pick(Hcwi), Data([step % 256]), Cat, Swap, Cat, Sha256, Substr(0, N), NameTop(X)]
  }

  lemma ChainBodyOk(h: Hash, sig: seq<Bytes>, step: nat, c: Bytes, x: Bytes, t: NS, el: nat)
    requires Find(t, Hcwi) == Some(Blob(c))
    ensures Eval(h, sig, ChainBody(step), St(Cons(Item(X, Blob(x)), t), el))
            == St(Cons(Item(X, Blob(h(c + [step % 256] + x)[..N])), t), el)
  {
    hide Eval, Do;
    SequenceRules(h, sig);
    DisplayRules(h, sig);
    ShuffleRules(h, sig);
    NamingRules(h, sig);
    BytesRules(h, sig);
    var y := h(c + [step % 256] + x);
    assert y[0..N] == y[..N];
  }

  /** One emitted step hashes exactly when the digit is at or below it. */
  lemma ChainStepOk(h: Hash, sig: seq<Bytes>, step: nat, digit: nat, c: Bytes, x: Bytes, t: NS, el: nat)
    requires Find(t, Hcwi) == Some(Blob(c)) && digit < NumLimit && step < NumLimit
    ensures var below := Cons(Item(D, Num(digit)), t);
            Eval(h, sig, ChainStep(step), St(Cons(Item(X, Blob(x)), below), el))
            == St(Cons(Item(X, Blob(if digit <= step then h(c + [step % 256] + x)[..N] else x)), below), el)
  {
    hide Eval, Do, ChainBody;
    SequenceRules(h, sig);
    ShuffleRules(h, sig);
    ArithRules(h, sig);
    var below := Cons(Item(D, Num(digit)), t);
    var l, l' := Cons(Item(X, Blob(x)), below), Cons(Item(X, Blob(h(c + [step % 256] + x)[..N])), below);
    ChainBodyOk(h, sig, step, c, x, below, el);
    ChainBodyPlain(step);
    GateKeeps(h, sig, ChainBody(step), BoolNum(digit <= step), l, l', el);
    ChainStepIs(step);
  }

  lemma ChainBodyPlain(step: nat)
    ensures AllPlain(ChainBody(step))
  {
  }

  lemma ChainStepIs(step: nat)
    ensures ChainStep(step) == [Over, Number(step), BinaryNum(LessThanOrEqual), Gate(ChainBody(step))]
  {
  }

  /** The chain context followed by a step byte is the padded hash address of that step. */
  lemma StepEncodes(seed: Bytes, a: Addr, step: nat)
    requires step < 256
    ensures ContextBytes(seed, a) + (ToBe(a.w2, 4) + Zeros(3)) + [step % 256] == HashPad(seed) + Encode(a.(w3 := step))
  {
    hide HashPad, Encode;
    Pow2Eight();
    ToBeHighZeros(step, 1, 3);
    assert ToBe(step, 1) == [step % 256] by {
      assert ToBe(step / 256, 0) == [];
    }
    ContextEncodes(seed, a.(w3 := step));
    SameContext(seed, a, a.w2, step);
    var c := ContextBytes(seed, a);
    assert c + (ToBe(a.w2, 4) + Zeros(3)) + [step % 256] == c + ToBe(a.w2, 4) + (Zeros(3) + [step % 256]);
  }

  /** After n emitted steps the value is the reference chain from the digit, however many of them ran. */
  lemma {:induction false} ChainStepsOk(h: Hash, sig: seq<Bytes>, n: nat, digit: nat, seed: Bytes, a: Addr, x: Bytes,
                                        t: NS, el: nat)
    requires Find(t, Hcwi) == Some(Blob(ContextBytes(seed, a) + (ToBe(a.w2, 4) + Zeros(3))))
    requires digit < 256 && n <= 256
    ensures var below := Cons(Item(D, Num(digit)), t);
            Eval(h, sig, ChainSteps(n), St(Cons(Item(X, Blob(x)), below), el))
            == St(Cons(Item(X, Blob(Chain(h, seed, a, x, digit, Max(0, n - digit)))), below), el)
  {
    hide Eval, ChainStep, ContextBytes, ToBe, Encode, HashPad, Find;
    var start := St(Cons(Item(X, Blob(x)), Cons(Item(D, Num(digit)), t)), el);
    if n == 0 {
      EvalNone(h, sig, start);
    } else {
      ChainStepsOk(h, sig, n - 1, digit, seed, a, x, t, el);
      var c := ContextBytes(seed, a) + (ToBe(a.w2, 4) + Zeros(3));
      ChainStepOk(h, sig, n - 1, digit, c, Chain(h, seed, a, x, digit, Max(0, n - 1 - digit)), t, el);
      StepEncodes(seed, a, n - 1);
      EvalAppend(h, sig, ChainSteps(n - 1), ChainStep(n - 1), start);
    }
  }

  /** The digit and the chain's own context, then the fetched chain value. */
  lemma ChainOpenOk(h: Hash, sig: seq<Bytes>, digits: seq<Macro>, digit: nat, c: Bytes, suffix: Bytes, l: NS, el: nat)
    requires Eval(h, sig, digits, St(l, el)) == St(Cons(Tr(Num(digit)), l), el)
    requires Find(l, Hcw) == Some(Blob(c)) && el < |sig|
    ensures Eval(h, sig, digits + [NameTop(D), Pick(Hcw), Data(suffix), Cat, NameTop(Hcwi), Roll(D), Fetch(X)], St(l, el))
            == St(Cons(Item(X, Blob(Elem(sig, el))), Cons(Item(D, Num(digit)), Cons(Item(Hcwi, Blob(c + suffix)), l))),
                  el + 1)
  {
    hide Eval, Do, Elem, Find, Remove;
    SequenceRules(h, sig);
    ShuffleRules(h, sig);
    NamingRules(h, sig);
    BytesRules(h, sig);
    var a, b := [NameTop(D), Pick(Hcw), Data(suffix), Cat], [NameTop(Hcwi), Roll(D), Fetch(X)];
    var named := Cons(Item(D, Num(digit)), l);
    assert Eval(h, sig, a, St(Cons(Tr(Num(digit)), l), el)) == St(Cons(Tr(Blob(c + suffix)), named), el);
    SplitDisplay(h, sig, [NameTop(D), Pick(Hcw), Data(suffix), Cat, NameTop(Hcwi), Roll(D), Fetch(X)], a, b,
                 St(Cons(Tr(Num(digit)), l), el));
  }

  lemma ChainCloseOk(h: Hash, sig: seq<Bytes>, x: Bytes, digit: nat, c: Bytes, acc: Bytes, t: NS, el: nat)
    ensures Eval(h, sig, Discard(D) + Discard(Hcwi) + [Roll(Acc), Swap, Cat, NameTop(Acc)],
                 St(Cons(Item(X, Blob(x)), Cons(Item(D, Num(digit)), Cons(Item(Hcwi, Blob(c)),
                    Cons(Item(Acc, Blob(acc)), t)))), el))
            == St(Cons(Item(Acc, Blob(acc + x)), t), el)
  {
    hide Eval, Do;
    SequenceRules(h, sig);
    ShuffleRules(h, sig);
    NamingRules(h, sig);
    BytesRules(h, sig);
  }

  /** One chain: its end is appended to the accumulator. */
  lemma ChainPhaseOk(h: Hash, sig: seq<Bytes>, p: Params, seed: Bytes, a: Addr, m: Bytes, i: nat, acc: Bytes, t: NS, el: nat)
    requires p.lgw in {1, 2, 4, 8} && |m| == N && i < p.Len() && el < |sig| && a.w2 == i
    requires Find(t, Node) == Some(Blob(m)) && Find(t, Csum) == Some(Num(ChecksumOf(p, m)))
    requires Find(t, Hcw) == Some(Blob(ContextBytes(seed, a)))
    ensures var digit := WotsDigit(p, m, i);
            Eval(h, sig, ChainPhase(p, i), St(Cons(Item(Acc, Blob(acc)), t), el))
            == St(Cons(Item(Acc, Blob(acc + Chain(h, seed, a, Elem(sig, el), digit, p.W() - 1 - digit))), t), el + 1)
  {
    hide *;
    DigitCounts(p);
    var l := Cons(Item(Acc, Blob(acc)), t);
    var digit := WotsDigit(p, m, i);
    var c := ContextBytes(seed, a);
    var suffix := ToBe(i, 4) + Zeros(3);
    var x := Elem(sig, el);
    NotNegative(p.W() - 1 - digit);
    ChainNames(acc, c + suffix, t);
    ChainDigitOk(h, sig, p, m, i, l, el);
    ChainOpenOk(h, sig, ChainDigit(p, i), digit, c, suffix, l, el);
    var t2 := Cons(Item(Hcwi, Blob(c + suffix)), l);
    ChainStepsOk(h, sig, p.W() - 1, digit, seed, a, x, t2, el + 1);
    ChainCloseOk(h, sig, Chain(h, seed, a, x, digit, p.W() - 1 - digit), digit, c + suffix, acc, t, el + 1);
    ChainPhaseParts(h, sig, p, i, St(l, el));
  }

  lemma ChainNames(acc: Bytes, context: Bytes, t: NS)
    ensures var l := Cons(Item(Acc, Blob(acc)), t);
            && Find(l, Node) == Find(t, Node) && Find(l, Csum) == Find(t, Csum) && Find(l, Hcw) == Find(t, Hcw)
            && Find(Cons(Item(Hcwi, Blob(context)), l), Hcwi) == Some(Blob(context))
  {
  }

  lemma NotNegative(n: int)
    requires n >= 0
    ensures Max(0, n) == n
  {
  }

  lemma ChainPhaseParts(h: Hash, sig: seq<Bytes>, p: Params, i: nat, st: St)
    requires p.lgw in {1, 2, 4, 8} && i < p.Len() && p.W() >= 1
    ensures var head := ChainDigit(p, i)
                        + [NameTop(D), Pick(Hcw), Data(ToBe(i, 4) + Zeros(3)), Cat, NameTop(Hcwi), Roll(D), Fetch(X)];
            var tail := Discard(D) + Discard(Hcwi) + [Roll(Acc), Swap, Cat, NameTop(Acc)];
            Eval(h, sig, ChainPhase(p, i), st)
            == Eval(h, sig, tail, Eval(h, sig, ChainSteps(p.W() - 1), Eval(h, sig, head, st)))
  {
    hide Eval, ChainDigit, ChainSteps, Discard, ToBe, Params.W, Params.Len;
    var head, tail := ChainOpen(p, i), ChainClose();
    EvalAppend(h, sig, head, ChainSteps(p.W() - 1), st);
    EvalAppend(h, sig, head + ChainSteps(p.W() - 1), tail, st);
  }

  // ---- all chains ----------------------------------------------------------

  lemma ChainContext(seed: Bytes, layer: nat, tree: nat, kp: nat, i: nat)
    ensures ContextBytes(seed, ChainAddr(layer, tree, kp, i)) == ContextBytes(seed, ChainAddr(layer, tree, kp, 0))
  {
  }

  /** All chains: the accumulator gains the reference's concatenated chain ends. */
  lemma {:induction false} ChainPhasesOk(h: Hash, sig: seq<Bytes>, p: Params, seed: Bytes, layer: nat, tree: nat, kp: nat,
                                         m: Bytes, wots: seq<Bytes>, acc: Bytes, t: NS, el: nat, n: nat)
    requires p.lgw in {1, 2, 4, 8} && |m| == N && n <= p.Len() <= |wots| && ElemsAt(sig, el, wots)
    requires Find(t, Node) == Some(Blob(m)) && Find(t, Csum) == Some(Num(ChecksumOf(p, m)))
    requires Find(t, Hcw) == Some(Blob(ContextBytes(seed, ChainAddr(layer, tree, kp, 0))))
    ensures Eval(h, sig, ChainPhases(p, n), St(Cons(Item(Acc, Blob(acc)), t), el))
            == St(Cons(Item(Acc, Blob(acc + ChainEnds(h, seed, p, layer, tree, kp, wots, m, n))), t), el + n)
  {
    hide Eval, ChainPhase, ContextBytes, Find, Elem, ChecksumOf, WotsDigit, Chain, Params.W, Params.Len;
    var start := St(Cons(Item(Acc, Blob(acc)), t), el);
    if n == 0 {
      EvalNone(h, sig, start);
      assert acc + [] == acc;
    } else {
      var i := n - 1;
      ChainPhasesOk(h, sig, p, seed, layer, tree, kp, m, wots, acc, t, el, i);
      var ends := ChainEnds(h, seed, p, layer, tree, kp, wots, m, i);
      ChainContext(seed, layer, tree, kp, i);
      ChainPhaseOk(h, sig, p, seed, ChainAddr(layer, tree, kp, i), m, i, acc + ends, t, el + i);
      var digit := WotsDigit(p, m, i);
      var last := Chain(h, seed, ChainAddr(layer, tree, kp, i), wots[i], digit, p.W() - 1 - digit);
      assert acc + ends + last == acc + (ends + last);
      EvalAppend(h, sig, ChainPhases(p, i), ChainPhase(p, i), start);
    }
  }

  /** Bottom to top: tree and key pair indices in force, the chain, public-key and tree contexts, above the kept pair. */
  function LayerStack(node: Bytes, tree: nat, kp: nat, hcw: Bytes, hcp: Bytes, hct: Bytes, t: NS): NS
  {
    Cons(Item(Hct, Blob(hct)), Cons(Item(Hcp, Blob(hcp)), Cons(Item(Hcw, Blob(hcw)),
    Cons(Item(Lleaf, Num(kp)), Cons(Item(Ltree, Num(tree)), Cons(Item(Node, Blob(node)), t))))))
  }

  function LayerRest(tree: nat, kp: nat, hct: Bytes, t: NS): NS
  {
    Cons(Item(Hct, Blob(hct)), Cons(Item(Lleaf, Num(kp)), Cons(Item(Ltree, Num(tree)), t)))
  }

  /** Dropping a named value from wherever it sits. */
  lemma DiscardOk(h: Hash, sig: seq<Bytes>, s: Slot, l: NS, el: nat)
    requires Find(l, s).Some?
    ensures Eval(h, sig, Discard(s), St(l, el)) == St(Remove(l, s), el)
  {
    hide Eval, Do, Find, Remove;
    SequenceRules(h, sig);
    ShuffleRules(h, sig);
    NamingRules(h, sig);
  }

  /** Dropping four values in turn. */
  lemma DiscardFour(h: Hash, sig: seq<Bytes>, a: Slot, b: Slot, c: Slot, d: Slot, l: NS, el: nat)
    requires Find(l, a).Some? && Find(Remove(l, a), b).Some? && Find(Remove(Remove(l, a), b), c).Some?
    requires Find(Remove(Remove(Remove(l, a), b), c), d).Some?
    ensures Eval(h, sig, Discard(a) + Discard(b) + Discard(c) + Discard(d), St(l, el))
            == St(Remove(Remove(Remove(Remove(l, a), b), c), d), el)
  {
    hide Eval, Discard, Find, Remove;
    SequenceRules(h, sig);
    DiscardOk(h, sig, a, l, el);
    DiscardOk(h, sig, b, Remove(l, a), el);
    DiscardOk(h, sig, c, Remove(Remove(l, a), b), el);
    DiscardOk(h, sig, d, Remove(Remove(Remove(l, a), b), c), el);
  }

  lemma WotsHashOk(h: Hash, sig: seq<Bytes>, all: Bytes, l: NS, el: nat)
    ensures Eval(h, sig, [Roll(Acc), Sha256, Substr(0, N), NameTop(Wpk)], St(Cons(Item(Acc, Blob(all)), l), el))
            == St(Cons(Item(Wpk, Blob(h(all)[..N])), l), el)
  {
    hide Eval, Do;
    SequenceRules(h, sig);
    NamingRules(h, sig);
    BytesRules(h, sig);
    assert h(all)[0..N] == h(all)[..N];
  }

  lemma WotsRemoved(h: Hash, sig: seq<Bytes>, node: Bytes, tree: nat, kp: nat, hcw: Bytes, hcp: Bytes, hct: Bytes, csum: nat,
                    pk: Bytes, t: NS)
    ensures var l := Cons(Item(Wpk, Blob(pk)), Cons(Item(Csum, Num(csum)), LayerStack(node, tree, kp, hcw, hcp, hct, t)));
            && Find(l, Node).Some? && Find(Remove(l, Node), Csum).Some?
            && Find(Remove(Remove(l, Node), Csum), Hcw).Some?
            && Find(Remove(Remove(Remove(l, Node), Csum), Hcw), Hcp).Some?
            && Remove(Remove(Remove(Remove(l, Node), Csum), Hcw), Hcp)
               == Cons(Item(Wpk, Blob(pk)), LayerRest(tree, kp, hct, t))
  {
    hide Find, Remove;
    NamingRules(h, sig);
  }

  lemma WotsCloseOk(h: Hash, sig: seq<Bytes>, node: Bytes, tree: nat, kp: nat, hcw: Bytes, hcp: Bytes, hct: Bytes, csum: nat,
                    all: Bytes, t: NS, el: nat)
    ensures Eval(h, sig, [Roll(Acc), Sha256, Substr(0, N), NameTop(Wpk)]
                         + (Discard(Node) + Discard(Csum) + Discard(Hcw) + Discard(Hcp)) + [NameTop(Node)],
                 St(Cons(Item(Acc, Blob(all)), Cons(Item(Csum, Num(csum)), LayerStack(node, tree, kp, hcw, hcp, hct, t))), el))
            == St(Cons(Item(Node, Blob(h(all)[..N])), LayerRest(tree, kp, hct, t)), el)
  {
    var pk := h(all)[..N];
    hide *;
    var l := Cons(Item(Csum, Num(csum)), LayerStack(node, tree, kp, hcw, hcp, hct, t));
    WotsHashOk(h, sig, all, l, el);
    WotsRemoved(h, sig, node, tree, kp, hcw, hcp, hct, csum, pk, t);
    DiscardFour(h, sig, Node, Csum, Hcw, Hcp, Cons(Item(Wpk, Blob(pk)), l), el);
    RenameTop(h, sig, Wpk, Node, pk, LayerRest(tree, kp, hct, t), el);
    CloseParts(h, sig, St(Cons(Item(Acc, Blob(all)), l), el));
  }

  lemma RenameTop(h: Hash, sig: seq<Bytes>, was: Slot, now: Slot, x: Bytes, t: NS, el: nat)
    ensures Eval(h, sig, [NameTop(now)], St(Cons(Item(was, Blob(x)), t), el)) == St(Cons(Item(now, Blob(x)), t), el)
  {
    hide Eval, Do;
    SequenceRules(h, sig);
    NamingRules(h, sig);
  }

  lemma CloseParts(h: Hash, sig: seq<Bytes>, s: St)
    ensures Eval(h, sig, [Roll(Acc), Sha256, Substr(0, N), NameTop(Wpk)]
                         + (Discard(Node) + Discard(Csum) + Discard(Hcw) + Discard(Hcp)) + [NameTop(Node)], s)
            == Eval(h, sig, [NameTop(Node)],
                    Eval(h, sig, Discard(Node) + Discard(Csum) + Discard(Hcw) + Discard(Hcp),
                         Eval(h, sig, [Roll(Acc), Sha256, Substr(0, N), NameTop(Wpk)], s)))
  {
    hide Eval, Do, Discard;
    SequenceRules(h, sig);
  }

  lemma WotsOpenOk(h: Hash, sig: seq<Bytes>, p: Params, m: Bytes, hcp: Bytes, l: NS, el: nat)
    requires p.lgw in {1, 2, 4, 8} && |m| == N && Find(l, Node) == Some(Blob(m)) && Find(l, Hcp) == Some(Blob(hcp))
    ensures Eval(h, sig, [Number(0), NameTop(Csum)] + ChecksumSteps(p, p.Len1()) + [Pick(Hcp), NameTop(Acc)], St(l, el))
            == St(Cons(Item(Acc, Blob(hcp)), Cons(Item(Csum, Num(ChecksumOf(p, m))), l)), el)
  {
    hide Eval, Do, ChecksumSteps, DigitsOf, Params.Len1;
    SequenceRules(h, sig);
    ShuffleRules(h, sig);
    NamingRules(h, sig);
    ChecksumStepsOk(h, sig, p, m, p.Len1(), l, el);
    assert DigitsOf(p, m)[..p.Len1()] == DigitsOf(p, m);
  }

  lemma WotsParts(h: Hash, sig: seq<Bytes>, p: Params, st: St)
    requires p.lgw in {1, 2, 4, 8}
    ensures var open := [Number(0), NameTop(Csum)] + ChecksumSteps(p, p.Len1()) + [Pick(Hcp), NameTop(Acc)];
            var close := [Roll(Acc), Sha256, Substr(0, N), NameTop(Wpk)]
                         + (Discard(Node) + Discard(Csum) + Discard(Hcw) + Discard(Hcp)) + [NameTop(Node)];
            Eval(h, sig, WotsPhase(p), st)
            == Eval(h, sig, close, Eval(h, sig, ChainPhases(p, p.Len()), Eval(h, sig, open, st)))
  {
    hide Eval, ChecksumSteps, ChainPhases, Discard, Params.Len, Params.Len1;
    var open, close := WotsOpen(p), WotsClose();
    var chains := ChainPhases(p, p.Len());
    EvalAppend(h, sig, open, chains, st);
    EvalAppend(h, sig, open + chains, close, st);
  }

  /** The compressed public key is the hash of its prefix and the chain ends. */
  lemma WotsKey(h: Hash, seed: Bytes, p: Params, layer: nat, tree: nat, kp: nat, wots: seq<Bytes>, m: Bytes)
    requires p.lgw in {1, 2, 4, 8} && |m| == N && p.Len() <= |wots|
    ensures WotsPkFromSig(h, seed, p, layer, tree, kp, wots, m)
            == h(HashPad(seed) + Encode(Addr(layer, tree, WOTS_PK, kp, 0, 0))
                 + ChainEnds(h, seed, p, layer, tree, kp, wots, m, p.Len()))[..N]
  {
  }

  lemma LayerNames(h: Hash, sig: seq<Bytes>, node: Bytes, tree: nat, kp: nat, hcw: Bytes, hcp: Bytes, hct: Bytes,
                   csum: nat, t: NS)
    ensures var l := LayerStack(node, tree, kp, hcw, hcp, hct, t);
            && Find(l, Node) == Some(Blob(node)) && Find(l, Hcp) == Some(Blob(hcp))
            && var l2 := Cons(Item(Csum, Num(csum)), l);
            && Find(l2, Node) == Some(Blob(node)) && Find(l2, Hcw) == Some(Blob(hcw)) && Find(l2, Csum) == Some(Num(csum))
  {
    NamingRules(h, sig);
  }

  /** The WOTS+ phase of one layer: the node becomes wots_pkFromSig of it, its inputs are gone. */
  lemma WotsPhaseOk(h: Hash, sig: seq<Bytes>, p: Params, seed: Bytes, layer: nat, tree: nat, kp: nat, m: Bytes,
                    wots: seq<Bytes>, hct: Bytes, t: NS, el: nat)
    requires p.lgw in {1, 2, 4, 8} && |m| == N && p.Len() == |wots| && ElemsAt(sig, el, wots)
    ensures var hcw := ContextBytes(seed, ChainAddr(layer, tree, kp, 0));
            var hcp := HashPad(seed) + Encode(Addr(layer, tree, WOTS_PK, kp, 0, 0));
            Eval(h, sig, WotsPhase(p), St(LayerStack(m, tree, kp, hcw, hcp, hct, t), el))
            == St(Cons(Item(Node, Blob(WotsPkFromSig(h, seed, p, layer, tree, kp, wots, m))),
                       LayerRest(tree, kp, hct, t)), el + p.Len())
  {
    hide *;
    var hcw := ContextBytes(seed, ChainAddr(layer, tree, kp, 0));
    var hcp := HashPad(seed) + Encode(Addr(layer, tree, WOTS_PK, kp, 0, 0));
    var csum := ChecksumOf(p, m);
    var l := LayerStack(m, tree, kp, hcw, hcp, hct, t);
    LayerNames(h, sig, m, tree, kp, hcw, hcp, hct, csum, t);
    WotsOpenOk(h, sig, p, m, hcp, l, el);
    var l2 := Cons(Item(Csum, Num(csum)), l);
    ChainPhasesOk(h, sig, p, seed, layer, tree, kp, m, wots, hcp, l2, el, p.Len());
    var all := hcp + ChainEnds(h, seed, p, layer, tree, kp, wots, m, p.Len());
    WotsCloseOk(h, sig, m, tree, kp, hcw, hcp, hct, csum, all, t, el + p.Len());
    WotsKey(h, seed, p, layer, tree, kp, wots, m);
    WotsParts(h, sig, p, St(l, el));
  }
}
