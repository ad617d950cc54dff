/** Merkle paths: each emitted level hashes the two children in the order the index bit selects. */
module SlhPath {
  import opened Arith
  import opened Bytes
  import opened Lists
  import opened Numbers
  import opened Machine
  import opened Params
  import opened Adrs
  import opened Frames
  import opened Emission
  import opened Simulation
  import opened EvalSteps
  import opened Reference
  import opened SlhProgram
  import opened SlhHelpers

  /** pad || layer || tree || type || key pair: the head shared by every hash in one context. */
  function ContextBytes(seed: Bytes, a: Addr): Bytes
  {
    HashPad(seed) + [a.layer % 256] + ToBe(a.tree, 8) + [a.ty % 256] + ToBe(a.w1, 4)
  }

  /** A context followed by its last two words is a padded address. */
  lemma ContextEncodes(seed: Bytes, a: Addr)
    ensures ContextBytes(seed, a) + ToBe(a.w2, 4) + ToBe(a.w3, 4) == HashPad(seed) + Encode(a)
  {
  }

  lemma {:induction false} ZipSelf(l: NS)
    ensures Zip(Names(l), Vals(l)) == l
  {
    if l.Cons? {
      ZipSelf(l.tail);
    }
  }

  /** The conditional swap. The names always swap; the values swap only when the bit is set. */
  lemma GateSwapOk(h: Hash, sig: seq<Bytes>, n: nat, a: Item, b: Item, t: NS, el: nat)
    requires n in {0, 1}
    ensures Do(h, sig, Gate([Swap]), St(Cons(Tr(Num(n)), Cons(b, Cons(a, t))), el))
            == St(Cons(Item(a.name, if n == 1 then a.val else b.val),
                       Cons(Item(b.name, if n == 1 then b.val else a.val), t)), el)
  {
    var inner := Cons(b, Cons(a, t));
    assert [Swap][1..] == [];
    TopItems(inner);
    var b0 := Block([], Names(inner), 0);
    assert PlainOne(Swap, b0).Some? && PlainOne(Swap, b0).value.f == Cons(a.name, Cons(b.name, Names(t)));
    assert PlainAll([Swap], b0).Some? && PlainAll([Swap], b0).value.f == Cons(a.name, Cons(b.name, Names(t)));
    assert DoPlainAll(h, [Swap], inner) == Some(Cons(a, Cons(b, t)));
    ZipSelf(t);
    assert Vals(inner) == Cons(b.val, Cons(a.val, Vals(t)));
    var names := Cons(a.name, Cons(b.name, Names(t)));
    assert Len(names) == Len(inner);
    assert Zip(names.tail, Vals(inner).tail) == Cons(Item(b.name, a.val), t);
  }

  function Children(bit: nat, node: Bytes, sibling: Bytes): Bytes
  {
    if bit == 0 then node + sibling else sibling + node
  }

  /** `emit_merkle_step`: H(prefix || a || b). */
  lemma MerkleStepOk(h: Hash, sig: seq<Bytes>, s: Slot, bit: nat, idx: nat, pfx: Bytes, auth: Bytes, node: Bytes, t: NS, el: nat)
    requires Find(t, s) == Some(Num(idx)) && s !in {Transient, Pfx, Node, Auth} && idx < NumLimit && bit <= 62
    ensures Eval(h, sig, MerkleStep(s, bit),
                 St(Cons(Tr(Blob(pfx)), Cons(Item(Auth, Blob(auth)), Cons(Item(Node, Blob(node)), t))), el))
            == St(Cons(Item(Node, Blob(h(pfx + Children(Shr(idx, bit) % 2, node, auth))[..N])), t), el)
  {
    hide *;
    var ready := Cons(Item(Auth, Blob(auth)), Cons(Item(Node, Blob(node)), Cons(Item(Pfx, Blob(pfx)), t)));
    MerkleHeadOk(h, sig, s, idx, pfx, auth, node, t, el);
    ShiftDownOk(h, sig, idx, bit, ready, el);
    LastBitOk(h, sig, Shr(idx, bit), ready, el);
    GatedHashOk(h, sig, Shr(idx, bit) % 2, pfx, auth, node, t, el);
    MerkleParts(h, sig, s, bit, St(Cons(Tr(Blob(pfx)), Cons(Item(Auth, Blob(auth)), Cons(Item(Node, Blob(node)), t))), el));
  }

  lemma MerkleParts(h: Hash, sig: seq<Bytes>, s: Slot, bit: nat, st: St)
    ensures Eval(h, sig, MerkleStep(s, bit), st)
            == Eval(h, sig, [Gate([Swap]), Cat, Cat, Sha256, Substr(0, N), NameTop(Node)],
                    Eval(h, sig, [Number(2), BinaryNum(Mod)],
                         Eval(h, sig, ShiftDown(bit), Eval(h, sig, [NameTop(Pfx), Roll(Node), Roll(Auth), Pick(s)], st))))
  {
    hide Eval, ShiftDown;
    var a, b := [NameTop(Pfx), Roll(Node), Roll(Auth), Pick(s)], ShiftDown(bit);
    var c, d := [Number(2), BinaryNum(Mod)], [Gate([Swap]), Cat, Cat, Sha256, Substr(0, N), NameTop(Node)];
    EvalAppend(h, sig, a, b, st);
    EvalAppend(h, sig, a + b, c, st);
    EvalAppend(h, sig, a + b + c, d, st);
  }

  lemma MerkleHeadOk(h: Hash, sig: seq<Bytes>, s: Slot, idx: nat, pfx: Bytes, auth: Bytes, node: Bytes, t: NS, el: nat)
    requires Find(t, s) == Some(Num(idx)) && s !in {Transient, Pfx, Node, Auth}
    ensures Eval(h, sig, [NameTop(Pfx), Roll(Node), Roll(Auth), Pick(s)],
                 St(Cons(Tr(Blob(pfx)), Cons(Item(Auth, Blob(auth)), Cons(Item(Node, Blob(node)), t))), el))
            == St(Cons(Tr(Num(idx)), Cons(Item(Auth, Blob(auth)), Cons(Item(Node, Blob(node)), Cons(Item(Pfx, Blob(pfx)), t)))),
                  el)
  {
    hide Eval, Do;
    SequenceRules(h, sig);
    ShuffleRules(h, sig);
    NamingRules(h, sig);
  }

  lemma LastBitOk(h: Hash, sig: seq<Bytes>, n: nat, t: NS, el: nat)
    requires n < NumLimit
    ensures Eval(h, sig, [Number(2), BinaryNum(Mod)], St(Cons(Tr(Num(n)), t), el)) == St(Cons(Tr(Num(n % 2)), t), el)
  {
    hide Eval, Do;
    SequenceRules(h, sig);
    ShuffleRules(h, sig);
    ArithRules(h, sig);
  }

  /** The conditional swap, then the hash of the children in order. */
  lemma GatedHashOk(h: Hash, sig: seq<Bytes>, n: nat, pfx: Bytes, auth: Bytes, node: Bytes, t: NS, el: nat)
    requires n in {0, 1}
    ensures Eval(h, sig, [Gate([Swap]), Cat, Cat, Sha256, Substr(0, N), NameTop(Node)],
                 St(Cons(Tr(Num(n)), Cons(Item(Auth, Blob(auth)), Cons(Item(Node, Blob(node)), Cons(Item(Pfx, Blob(pfx)), t)))),
                    el))
            == St(Cons(Item(Node, Blob(h(pfx + Children(n, node, auth))[..N])), t), el)
  {
    hide Eval, Do;
    SequenceRules(h, sig);
    DisplayRules(h, sig);
    NamingRules(h, sig);
    BytesRules(h, sig);
    GateSwapOk(h, sig, n, Item(Node, Blob(node)), Item(Auth, Blob(auth)), Cons(Item(Pfx, Blob(pfx)), t), el);
    var x := h(pfx + Children(n, node, auth));
    assert x[0..N] == x[..N];
  }

  /** The sibling, and the parent's index as bytes above it. */
  lemma PathIndexOk(h: Hash, sig: seq<Bytes>, pos: Slot, width: nat, level: nat, posv: nat, t: NS, el: nat)
    requires Find(t, pos) == Some(Num(posv)) && pos !in {Transient, Auth}
    requires 1 <= width <= 4 && posv < Pow2(8 * width - 1) && level + 1 <= 62
    requires el < |sig|
    ensures Eval(h, sig, [Fetch(Auth), Pick(pos), Number(Pow2(level + 1)), BinaryNum(Div)] + BeBytes(width), St(t, el))
            == St(Cons(Tr(Blob(ToBe(Shr(posv, level + 1), width))), Cons(Item(Auth, Blob(Elem(sig, el))), t)), el + 1)
  {
    hide Eval, Do, Shr, BeBytes, ToBe, Elem, Pow2, Find;
    ShrBound(posv, level + 1, width);
    PowerFits(level + 1);
    SequenceRules(h, sig);
    ShuffleRules(h, sig);
    NamingRules(h, sig);
    ArithRules(h, sig);
    BeBytesOk(h, sig, Shr(posv, level + 1), width, Cons(Item(Auth, Blob(Elem(sig, el))), t), el + 1);
  }

  /** The context and the level in front of the index bytes. */
  lemma PathContextOk(h: Hash, sig: seq<Bytes>, ctx: Slot, c: Bytes, word: Bytes, tail: Bytes, t: NS, el: nat)
    requires Find(t, ctx) == Some(Blob(c)) && ctx != Transient
    ensures Eval(h, sig, [Pick(ctx), Data(word), Cat, Swap, Cat], St(Cons(Tr(Blob(tail)), t), el))
            == St(Cons(Tr(Blob(c + word + tail)), t), el)
  {
    hide Eval, Do, Find;
    SequenceRules(h, sig);
    DisplayRules(h, sig);
    ShuffleRules(h, sig);
    NamingRules(h, sig);
    BytesRules(h, sig);
  }

  lemma PathPrefixOk(h: Hash, sig: seq<Bytes>, ctx: Slot, pos: Slot, width: nat, level: nat, c: Bytes, posv: nat, t: NS, el: nat)
    requires Find(t, ctx) == Some(Blob(c)) && Find(t, pos) == Some(Num(posv))
    requires ctx !in {Transient, Auth} && pos !in {Transient, Auth}
    requires 1 <= width <= 4 && posv < Pow2(8 * width - 1) && level + 1 <= 62
    requires el < |sig|
    ensures Eval(h, sig, PathPrefix(ctx, pos, width, level), St(t, el))
            == St(Cons(Tr(Blob(c + ToBe(level + 1, 4) + ToBe(Shr(posv, level + 1), 4))),
                       Cons(Item(Auth, Blob(Elem(sig, el))), t)), el + 1)
  {
    hide Eval, Shr, BeBytes, ToBe, Elem, Pow2;
    var w3 := Shr(posv, level + 1);
    var head := [Fetch(Auth), Pick(pos), Number(Pow2(level + 1)), BinaryNum(Div)] + BeBytes(width);
    var word := ToBe(level + 1, 4) + Zeros(4 - width);
    ShrBound(posv, level + 1, width);
    PathIndexOk(h, sig, pos, width, level, posv, t, el);
    PathContextOk(h, sig, ctx, c, word, ToBe(w3, width), Cons(Item(Auth, Blob(Elem(sig, el))), t), el + 1);
    EvalAppend(h, sig, head, [Pick(ctx), Data(word), Cat, Swap, Cat], St(t, el));
    assert c + word + ToBe(w3, width) == c + ToBe(level + 1, 4) + ToBe(w3, 4);
  }

  /** One level: the sibling is fetched, the address built from the shifted index, the parent hashed. */
  lemma PathLevelOk(h: Hash, sig: seq<Bytes>, ctx: Slot, pos: Slot, bits: Slot, width: nat, level: nat,
                    c: Bytes, posv: nat, idx: nat, node: Bytes, t: NS, el: nat)
    requires Find(t, ctx) == Some(Blob(c)) && Find(t, pos) == Some(Num(posv)) && Find(t, bits) == Some(Num(idx))
    requires ctx !in {Transient, Node, Auth} && pos !in {Transient, Node, Auth}
    requires bits !in {Transient, Pfx, Node, Auth}
    requires 1 <= width <= 4 && posv < Pow2(8 * width - 1) && idx < NumLimit && level + 1 <= 62
    requires el < |sig|
    ensures Eval(h, sig, PathLevel(ctx, pos, bits, width, level), St(Cons(Item(Node, Blob(node)), t), el))
            == St(Cons(Item(Node, Blob(h(c + ToBe(level + 1, 4) + ToBe(Shr(posv, level + 1), 4)
                                         + Children(Shr(idx, level) % 2, node, Elem(sig, el)))[..N])), t), el + 1)
  {
    hide Eval, Shr, ToBe, PathPrefix, MerkleStep, Elem;
    SequenceRules(h, sig);
    PathPrefixOk(h, sig, ctx, pos, width, level, c, posv, Cons(Item(Node, Blob(node)), t), el);
    MerkleStepOk(h, sig, bits, level, idx, c + ToBe(level + 1, 4) + ToBe(Shr(posv, level + 1), 4), Elem(sig, el), node,
                 t, el + 1);
  }

  /** A shifted index fits the width its unshifted form fits, and its word has zero high bytes. */
  lemma ShrBound(n: nat, k: nat, width: nat)
    requires 1 <= width <= 4 && n < Pow2(8 * width - 1)
    ensures Shr(n, k) <= n < NumLimit && n / Pow2(k) == Shr(n, k)
    ensures Shr(n, k) < Pow2(8 * width - 1)
    ensures ToBe(Shr(n, k), 4) == Zeros(4 - width) + ToBe(Shr(n, k), width)
  {
    DivBounds(n, Pow2(k));
    Pow2Mono(8 * width - 1, 8 * width);
    Pow2Mono(8 * width - 1, 63);
    Limit63();
    ToBeHighZeros(Shr(n, k), width, 4 - width);
  }

  /** Every level of a path: the stack's node becomes the reference's PathUp. */
  lemma {:induction false} PathLevelsOk(h: Hash, sig: seq<Bytes>, ctx: Slot, pos: Slot, bits: Slot, width: nat, n: nat,
                                        seed: Bytes, a: Addr, posv: nat, idx: nat, leaf: Bytes, auth: seq<Bytes>,
                                        t: NS, el: nat)
    requires Find(t, ctx) == Some(Blob(ContextBytes(seed, a)))
    requires Find(t, pos) == Some(Num(posv)) && Find(t, bits) == Some(Num(idx))
    requires ctx !in {Transient, Node, Auth} && pos !in {Transient, Node, Auth}
    requires bits !in {Transient, Pfx, Node, Auth}
    requires 1 <= width <= 4 && posv < Pow2(8 * width - 1) && idx < NumLimit && n <= 31
    requires n <= |auth| && el + n <= |sig|
    requires forall j: nat :: j < n ==> auth[j] == Elem(sig, el + j)
    ensures Eval(h, sig, PathLevels(ctx, pos, bits, width, n), St(Cons(Item(Node, Blob(leaf)), t), el))
            == St(Cons(Item(Node, Blob(PathUp(h, seed, a, posv, idx, leaf, auth, n))), t), el + n)
  {
    if n == 0 {
      EvalNone(h, sig, St(Cons(Item(Node, Blob(leaf)), t), el));
    } else {
      PathLevelsOk(h, sig, ctx, pos, bits, width, n - 1, seed, a, posv, idx, leaf, auth, t, el);
      PathLevelsStep(h, sig, ctx, pos, bits, width, n - 1, seed, a, posv, idx, leaf, auth, t, el);
    }
  }

  lemma PathLevelsStep(h: Hash, sig: seq<Bytes>, ctx: Slot, pos: Slot, bits: Slot, width: nat, m: nat,
                       seed: Bytes, a: Addr, posv: nat, idx: nat, leaf: Bytes, auth: seq<Bytes>, t: NS, el: nat)
    requires Find(t, ctx) == Some(Blob(ContextBytes(seed, a)))
    requires Find(t, pos) == Some(Num(posv)) && Find(t, bits) == Some(Num(idx))
    requires ctx !in {Transient, Node, Auth} && pos !in {Transient, Node, Auth}
    requires bits !in {Transient, Pfx, Node, Auth}
    requires 1 <= width <= 4 && posv < Pow2(8 * width - 1) && idx < NumLimit && m < 31
    requires m < |auth| && el + m < |sig| && auth[m] == Elem(sig, el + m)
    requires Eval(h, sig, PathLevels(ctx, pos, bits, width, m), St(Cons(Item(Node, Blob(leaf)), t), el))
             == St(Cons(Item(Node, Blob(PathUp(h, seed, a, posv, idx, leaf, auth, m))), t), el + m)
    ensures Eval(h, sig, PathLevels(ctx, pos, bits, width, m + 1), St(Cons(Item(Node, Blob(leaf)), t), el))
            == St(Cons(Item(Node, Blob(PathUp(h, seed, a, posv, idx, leaf, auth, m + 1))), t), el + m + 1)
  {
    hide Eval, PathLevel, Shr, ContextBytes, ToBe, Encode, HashPad, Elem, Find;
    SequenceRules(h, sig);
    var node := PathUp(h, seed, a, posv, idx, leaf, auth, m);
    PathLevelOk(h, sig, ctx, pos, bits, width, m, ContextBytes(seed, a), posv, idx, node, t, el + m);
    ContextEncodes(seed, a.(w2 := m + 1, w3 := Shr(posv, m + 1)));
    SameContext(seed, a, m + 1, Shr(posv, m + 1));
  }

  lemma SameContext(seed: Bytes, a: Addr, w2: nat, w3: nat)
    ensures ContextBytes(seed, a.(w2 := w2, w3 := w3)) == ContextBytes(seed, a)
  {
  }
}
