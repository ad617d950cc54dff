/** What the emitter's composite helpers compute. */
module SlhHelpers {
  import opened Arith
  import opened Bytes
  import opened Lists
  import opened Numbers
  import opened Machine
  import opened Params
  import opened Frames
  import opened Emission
  import opened EvalSteps
  import opened SlhProgram

  // ---- big-endian bytes of a number ----------------------------------------

  /** One turn of the reversal: the next byte down moves onto the accumulator. */
  lemma ReverseStep(h: Hash, sig: seq<Bytes>, le: Bytes, acc: Bytes, k: nat, t: NS, el: nat)
    requires 0 < k <= |le| <= 8
    ensures Eval(h, sig, [Swap, Dup, Substr(k - 1, k)] + [RollDepth(2), Swap, Cat],
                 St(Cons(Tr(Blob(acc)), Cons(Tr(Blob(le)), t)), el))
            == St(Cons(Tr(Blob(acc + [le[k - 1]])), Cons(Tr(Blob(le)), t)), el)
  {
    hide Eval, Do;
    SequenceRules(h, sig);
    ShuffleRules(h, sig);
    BytesRules(h, sig);
    assert le[k - 1..k] == [le[k - 1]];
  }

  lemma {:induction false} ReverseBytesOk(h: Hash, sig: seq<Bytes>, n: nat, w: nat, k: nat, t: NS, el: nat)
    requires k <= w <= 8
    ensures Eval(h, sig, ReverseBytes(k),
                 St(Cons(Tr(Blob(ToBe(Shr(n, 8 * k), w - k))), Cons(Tr(Blob(ToLe(n, w))), t)), el))
            == St(Cons(Tr(Blob(ToBe(n, w))), Cons(Tr(Blob(ToLe(n, w))), t)), el)
  {
    hide Eval, Do;
    SequenceRules(h, sig);
    if k == 0 {
      assert Shr(n, 0) == n;
    } else {
      ReverseStep(h, sig, ToLe(n, w), ToBe(Shr(n, 8 * k), w - k), k, t, el);
      ToLeByte(n, w, k - 1);
      ToBeShift(n, w, k);
      ReverseBytesOk(h, sig, n, w, k - 1, t, el);
    }
  }

  lemma ToBeShift(n: nat, w: nat, k: nat)
    requires 0 < k <= w
    ensures ToBe(Shr(n, 8 * (k - 1)), w - k + 1)
            == ToBe(Shr(n, 8 * k), w - k) + [Shr(n, 8 * (k - 1)) % 256]
  {
    Pow2Eight();
    Pow2Add(8 * (k - 1), 8);
    DivDiv(n, Pow2(8 * (k - 1)), 256);
  }

  lemma TopByte(n: nat, w: nat)
    requires w > 0
    ensures ToLe(n, w)[w - 1..w] == ToBe(Shr(n, 8 * (w - 1)), 1)
  {
    ToLeByte(n, w, w - 1);
    assert ToBe(Shr(n, 8 * (w - 1)) / 256, 0) == [];
  }

  lemma OneByte(n: nat)
    ensures ToLe(n, 1) == ToBe(n, 1)
  {
    assert ToLe(n / 256, 0) == [] && ToBe(n / 256, 0) == [];
  }

  /** A number that fits below the sign bit becomes its big-endian bytes. */
  lemma BeBytesOk(h: Hash, sig: seq<Bytes>, n: nat, w: nat, t: NS, el: nat)
    requires 1 <= w <= 8 && n < Pow2(8 * w - 1)
    ensures Eval(h, sig, BeBytes(w), St(Cons(Tr(Num(n)), t), el)) == St(Cons(Tr(Blob(ToBe(n, w))), t), el)
  {
    hide Eval, Do, ToBe, ToLe, Pow2, ReverseBytes;
    SequenceRules(h, sig);
    ShuffleRules(h, sig);
    BytesRules(h, sig);
    if w == 1 {
      OneByte(n);
    } else {
      TopByte(n, w);
      ReverseBytesOk(h, sig, n, w, w - 1, t, el);
    }
  }

  // ---- big-endian integers out of a slot -----------------------------------

  /** A byte of the value on top, as a number. */
  lemma ByteValue(h: Hash, sig: seq<Bytes>, x: Bytes, i: nat, t: NS, el: nat)
    requires i < |x| < NumLimit
    ensures Eval(h, sig, [Substr(i, i + 1), Data([0]), Cat, Bin2Num], St(Cons(Tr(Blob(x)), t), el))
            == St(Cons(Tr(Num(x[i])), t), el)
  {
    hide Eval, Do;
    SequenceRules(h, sig);
    ShuffleRules(h, sig);
    BytesRules(h, sig);
    assert x[i..i + 1] == [x[i]];
  }

  lemma BeIntStepOk(h: Hash, sig: seq<Bytes>, s: Slot, x: Bytes, acc: nat, i: nat, t: NS, el: nat)
    requires Find(t, s) == Some(Blob(x)) && s != Transient
    requires i < |x| < NumLimit && acc * 256 + 255 < NumLimit
    ensures Eval(h, sig, BeIntStep(s, i), St(Cons(Tr(Num(acc)), t), el)) == St(Cons(Tr(Num(acc * 256 + x[i])), t), el)
  {
    hide Eval, Do;
    SequenceRules(h, sig);
    ShuffleRules(h, sig);
    NamingRules(h, sig);
    ArithRules(h, sig);
    var c1, c2, c3 := [Number(256), BinaryNum(Mul), Pick(s)], [Substr(i, i + 1), Data([0]), Cat, Bin2Num], [BinaryNum(Add)];
    assert BeIntStep(s, i) == c1 + c2 + c3;
    ByteValue(h, sig, x, i, Cons(Tr(Num(acc * 256)), t), el);
  }

  lemma {:induction false} BeIntStepsOk(h: Hash, sig: seq<Bytes>, s: Slot, x: Bytes, start: nat, len: nat, t: NS, el: nat)
    requires Find(t, s) == Some(Blob(x)) && s != Transient
    requires start + len <= |x| < NumLimit && len <= 7
    ensures Eval(h, sig, BeIntSteps(s, start, len), St(Cons(Tr(Num(0)), t), el))
            == St(Cons(Tr(Num(Be(x[start..start + len]))), t), el)
  {
    hide Eval, Do, Find;
    SequenceRules(h, sig);
    if len == 0 {
      assert x[start..start] == [];
    } else {
      BeIntStepsOk(h, sig, s, x, start, len - 1, t, el);
      BeNext(x, start, len);
      var y := x[start..start + (len - 1)];
      SevenBytes(y);
      hide Be;
      BeIntStepOk(h, sig, s, x, Be(y), start + len - 1, t, el);
    }
  }

  lemma BeNext(x: Bytes, start: nat, len: nat)
    requires 0 < len && start + len <= |x|
    ensures Be(x[start..start + len]) == 256 * Be(x[start..start + (len - 1)]) + x[start + len - 1]
  {
    var y := x[start..start + len];
    assert y[..len - 1] == x[start..start + (len - 1)];
  }

  lemma SevenBytes(y: Bytes)
    requires |y| <= 6
    ensures Be(y) * 256 + 255 < NumLimit
  {
    BeBound(y);
    Pow2Mono(8 * |y|, 48);
    Pow2Add(24, 24);
    Pow2Table();
  }

  /** `BeInt` reads the big-endian value of a byte range of a slot. */
  lemma BeIntOk(h: Hash, sig: seq<Bytes>, s: Slot, x: Bytes, start: nat, len: nat, t: NS, el: nat)
    requires Find(t, s) == Some(Blob(x)) && s != Transient
    requires start + len <= |x| < NumLimit && 0 < len <= 7
    ensures Eval(h, sig, BeInt(s, start, len), St(t, el)) == St(Cons(Tr(Num(Be(x[start..start + len]))), t), el)
    ensures Be(x[start..start + len]) < Pow2(56)
  {
    hide Eval, Do;
    SequenceRules(h, sig);
    ShuffleRules(h, sig);
    BeIntStepsOk(h, sig, s, x, start, len, t, el);
    BeBound(x[start..start + len]);
    Pow2Mono(8 * len, 56);
  }

  // ---- shifts, masks and digits --------------------------------------------

  lemma PowerFits(n: nat)
    requires n <= 62
    ensures 0 < Pow2(n) < NumLimit
  {
    Pow2Strict(n, 63);
    Limit63();
  }

  lemma ShiftDownOk(h: Hash, sig: seq<Bytes>, n: nat, shift: nat, t: NS, el: nat)
    requires n < NumLimit && shift <= 62
    ensures Eval(h, sig, ShiftDown(shift), St(Cons(Tr(Num(n)), t), el)) == St(Cons(Tr(Num(Shr(n, shift))), t), el)
    ensures Shr(n, shift) <= n
  {
    hide Eval, Do;
    SequenceRules(h, sig);
    ShuffleRules(h, sig);
    ArithRules(h, sig);
    PowerFits(shift);
    DivBounds(n, Pow2(shift));
  }

  lemma MaskToOk(h: Hash, sig: seq<Bytes>, n: nat, bits: nat, t: NS, el: nat)
    requires n < NumLimit && bits <= 62
    ensures Eval(h, sig, MaskTo(bits), St(Cons(Tr(Num(n)), t), el)) == St(Cons(Tr(Num(Low(n, bits))), t), el)
  {
    hide Eval, Do;
    SequenceRules(h, sig);
    ShuffleRules(h, sig);
    ArithRules(h, sig);
    PowerFits(bits);
  }

  lemma ByteFieldOk(h: Hash, sig: seq<Bytes>, s: Slot, x: Bytes, byte: nat, shift: nat, bits: nat, t: NS, el: nat)
    requires Find(t, s) == Some(Blob(x)) && s != Transient
    requires byte < |x| < NumLimit && shift <= 8 && bits <= 8
    ensures Eval(h, sig, ByteField(s, byte, shift, bits), St(t, el))
            == St(Cons(Tr(Num(if bits > 0 then Low(Shr(x[byte], shift), bits) else Shr(x[byte], shift))), t), el)
  {
    hide Eval, Do, Shr, Low, ShiftDown, MaskTo;
    SequenceRules(h, sig);
    NamingRules(h, sig);
    ByteValue(h, sig, x, byte, t, el);
    ShiftDownOk(h, sig, x[byte], shift, t, el);
    if bits > 0 {
      MaskToOk(h, sig, Shr(x[byte], shift), bits, t, el);
    }
  }

  /** Where digit i sits: byte, place in the byte, and the bits it covers. */
  lemma DigitPlace(b: nat, i: nat)
    requires b in {1, 2, 4, 8}
    ensures var per := 8 / b;
            && i % per < per && b * i == 8 * (i / per) + b * (i % per) && b * (i % per) + b <= 8
  {
    if b == 1 {
      DivBounds(i, 8);
    } else if b == 2 {
      DivBounds(i, 4);
    } else if b == 4 {
      DivBounds(i, 2);
    } else {
      DivBounds(i, 1);
    }
  }

  lemma DigitValue(b: nat, x: Bytes, i: nat, byte: nat, pos: nat)
    requires b in {1, 2, 4, 8} && |x| == N && b * i + b <= 8 * N
    requires b * i == 8 * byte + b * pos && b * pos + b <= 8
    ensures byte < |x|
    ensures Field(x, b * i, b) == Low(Shr(x[byte], 8 - b * pos - b), b)
    ensures pos == 0 ==> Field(x, b * i, b) == Shr(x[byte], 8 - b)
  {
    FieldWindow(x, byte, byte + 1, b * i, b);
    assert x[byte..byte + 1] == [x[byte]];
    OneByteField(x[byte], b * pos, b);
    if pos == 0 {
      Pow2Eight();
      Pow2Add(8 - b, b);
      DivLess(x[byte], Pow2(8 - b), Pow2(b));
      ModSmall(Shr(x[byte], 8 - b), Pow2(b));
    }
  }

  /** The emitter's digit reader returns the standard's field, with or without its mask. */
  lemma DigitAtOk(h: Hash, sig: seq<Bytes>, p: Params, s: Slot, x: Bytes, i: nat, t: NS, el: nat)
    requires p.lgw in {1, 2, 4, 8} && |x| == N && p.lgw * i + p.lgw <= 8 * N
    requires Find(t, s) == Some(Blob(x)) && s != Transient
    ensures Eval(h, sig, DigitAt(p, s, i), St(t, el)) == St(Cons(Tr(Num(Field(x, p.lgw * i, p.lgw))), t), el)
  {
    DigitPlace(p.lgw, i);
    hide Eval, Do, Shr, Low, Field;
    var per := 8 / p.lgw;
    DigitAtPlace(h, sig, p, s, x, i, i / per, i % per, t, el);
  }

  lemma DigitAtPlace(h: Hash, sig: seq<Bytes>, p: Params, s: Slot, x: Bytes, i: nat, byte: nat, pos: nat, t: NS, el: nat)
    requires p.lgw in {1, 2, 4, 8} && |x| == N && p.lgw * i + p.lgw <= 8 * N
    requires pos < 8 / p.lgw && p.lgw * i == 8 * byte + p.lgw * pos && p.lgw * pos + p.lgw <= 8
    requires Find(t, s) == Some(Blob(x)) && s != Transient
    ensures Eval(h, sig, ByteField(s, byte, DigitShift(p, pos), if pos > 0 then p.lgw else 0), St(t, el))
            == St(Cons(Tr(Num(Field(x, p.lgw * i, p.lgw))), t), el)
  {
    hide Eval, Do, Shr, Low, ByteField, Field;
    DigitValue(p.lgw, x, i, byte, pos);
    ByteFieldOk(h, sig, s, x, byte, DigitShift(p, pos), if pos > 0 then p.lgw else 0, t, el);
  }

  /** The tree address bytes, constant or computed. */
  lemma TreeBytesOk(h: Hash, sig: seq<Bytes>, p: Params, s: Slot, tree: nat, t: NS, el: nat)
    requires p.d > 0 && Find(t, s) == Some(Num(tree)) && s != Transient
    requires tree < Pow2(63) && (p.IdxTreeBits() == 0 ==> tree == 0)
    ensures Eval(h, sig, TreeBytes(p, s), St(t, el)) == St(Cons(Tr(Blob(ToBe(tree, 8))), t), el)
  {
    hide Eval, Do, BeBytes, ToBe, Pow2, Params.IdxTreeBits, Find;
    SequenceRules(h, sig);
    ShuffleRules(h, sig);
    NamingRules(h, sig);
    if p.IdxTreeBits() == 0 {
      ToBeZero(8);
    } else {
      BeBytesOk(h, sig, tree, 8, t, el);
    }
  }

  /** Prefix on top of message: the truncated digest of prefix then message. */
  lemma FinishHashOk(h: Hash, sig: seq<Bytes>, s1: Slot, prefix: Bytes, s2: Slot, msg: Bytes, t: NS, el: nat)
    ensures Eval(h, sig, FinishHash(), St(Cons(Item(s1, Blob(prefix)), Cons(Item(s2, Blob(msg)), t)), el))
            == St(Cons(Tr(Blob(h(prefix + msg)[..N])), t), el)
  {
    hide Eval, Do;
    SequenceRules(h, sig);
    ShuffleRules(h, sig);
    BytesRules(h, sig);
    assert h(prefix + msg)[0..N] == h(prefix + msg)[..N];
  }
}
