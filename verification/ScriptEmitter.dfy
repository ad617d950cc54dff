/**
 * The emitter as the object it is: a script under construction, the compile-time frame, the witness queue counters and
 * the recorded peak, all updated in place. Every method is tied to the meaning-bearing calls of Emitter.dfy.
 *
 * An early return on the first error is a flag here: once set, every later call changes nothing.
 */
module ScriptEmitter {
  import opened Arith
  import opened Bytes
  import opened Lists
  import opened Numbers
  import opened Machine
  import opened Params
  import opened Frames
  import opened Emission
  import opened Witness
  import opened Reference
  import opened Adrs
  import opened SlhProgram
  import opened Binding
  import Vault

  /** A sequence of calls on a generator state that may already have failed. */
  function Apply(blobs: seq<nat>, ms: seq<Macro>, s: Option<Em>): Option<Em>
  {
    match s
    case None => None
    case Some(e) => EmitAll(blobs, ms, e)
  }

  lemma ApplyAppend(blobs: seq<nat>, a: seq<Macro>, b: seq<Macro>, s: Option<Em>)
    ensures Apply(blobs, a + b, s) == Apply(blobs, b, Apply(blobs, a, s))
  {
    hide EmitAll;
    if s.Some? {
      EmitAllAppend(blobs, a, b, s.value);
    }
  }

  lemma ApplyOne(blobs: seq<nat>, m: Macro, s: Option<Em>)
    ensures Apply(blobs, [m], s) == match s case None => None case Some(e) => EmitOne(blobs, m, e)
  {
    hide EmitOne;
    assert [m][1..] == [];
    if s.Some? && EmitOne(blobs, m, s.value).Some? {
      assert EmitAll(blobs, [], EmitOne(blobs, m, s.value).value) == EmitOne(blobs, m, s.value);
    }
  }

  lemma RefillPending(blobs: seq<nat>, e: Em)
    ensures EmitRefill(blobs, e).Some? ==> EmitRefill(blobs, e).value.pending > 0
  {
    hide SliceOps, Locate;
  }

  lemma ApplyFetch(blobs: seq<nat>, name: Slot, s: Option<Em>)
    ensures Apply(blobs, [Macro.Fetch(name)], s) == match s case None => None case Some(e) => EmitFetch(blobs, name, e)
  {
    ApplyOne(blobs, Macro.Fetch(name), s);
    hide Apply, EmitFetch;
  }

  lemma ApplyNone(blobs: seq<nat>, s: Option<Em>)
    ensures Apply(blobs, [], s) == s
  {
  }

  lemma ApplySplit(blobs: seq<nat>, whole: seq<Macro>, a: seq<Macro>, b: seq<Macro>, s: Option<Em>)
    requires whole == a + b
    ensures Apply(blobs, whole, s) == Apply(blobs, b, Apply(blobs, a, s))
  {
    ApplyAppend(blobs, a, b, s);
  }

  /** Five parts in sequence. */
  lemma ApplyFive(blobs: seq<nat>, a: seq<Macro>, b: seq<Macro>, c: seq<Macro>, d: seq<Macro>, e: seq<Macro>,
                  s: Option<Em>)
    ensures Apply(blobs, a + b + c + d + e, s)
            == Apply(blobs, e, Apply(blobs, d, Apply(blobs, c, Apply(blobs, b, Apply(blobs, a, s)))))
  {
    hide *;
    ApplyAppend(blobs, a, b, s);
    ApplyAppend(blobs, a + b, c, s);
    ApplyAppend(blobs, a + b + c, d, s);
    ApplyAppend(blobs, a + b + c + d, e, s);
  }

  /** Sequencing rules: concatenations and displays come down to single calls. */
  lemma ApplyRules(blobs: seq<nat>)
    ensures forall a, b, s {:trigger Apply(blobs, a + b, s)} ::
              Apply(blobs, a + b, s) == Apply(blobs, b, Apply(blobs, a, s))
    ensures forall s {:trigger Apply(blobs, [], s)} :: Apply(blobs, [], s) == s
    ensures forall a, b, s {:trigger Apply(blobs, [a, b], s)} ::
              Apply(blobs, [a, b], s) == Apply(blobs, [b], Apply(blobs, [a], s))
    ensures forall a, b, c, s {:trigger Apply(blobs, [a, b, c], s)} ::
              Apply(blobs, [a, b, c], s) == Apply(blobs, [b, c], Apply(blobs, [a], s))
    ensures forall a, b, c, d, s {:trigger Apply(blobs, [a, b, c, d], s)} ::
              Apply(blobs, [a, b, c, d], s) == Apply(blobs, [b, c, d], Apply(blobs, [a], s))
    ensures forall a, b, c, d, e, s {:trigger Apply(blobs, [a, b, c, d, e], s)} ::
              Apply(blobs, [a, b, c, d, e], s) == Apply(blobs, [b, c, d, e], Apply(blobs, [a], s))
    ensures forall a, b, c, d, e, f, s {:trigger Apply(blobs, [a, b, c, d, e, f], s)} ::
              Apply(blobs, [a, b, c, d, e, f], s) == Apply(blobs, [b, c, d, e, f], Apply(blobs, [a], s))
    ensures forall a, b, c, d, e, f, g, s {:trigger Apply(blobs, [a, b, c, d, e, f, g], s)} ::
              Apply(blobs, [a, b, c, d, e, f, g], s) == Apply(blobs, [b, c, d, e, f, g], Apply(blobs, [a], s))
    ensures forall a, b, c, d, e, f, g, h, s {:trigger Apply(blobs, [a, b, c, d, e, f, g, h], s)} ::
              Apply(blobs, [a, b, c, d, e, f, g, h], s) == Apply(blobs, [b, c, d, e, f, g, h], Apply(blobs, [a], s))
  {
    hide Apply;
    forall a, b, s
      ensures Apply(blobs, a + b, s) == Apply(blobs, b, Apply(blobs, a, s))
    {
      ApplyAppend(blobs, a, b, s);
    }
    forall s
      ensures Apply(blobs, [], s) == s
    {
      ApplyNone(blobs, s);
    }
    forall a, b, s
      ensures Apply(blobs, [a, b], s) == Apply(blobs, [b], Apply(blobs, [a], s))
    {
      ApplySplit(blobs, [a, b], [a], [b], s);
    }
    forall a, b, c, s
      ensures Apply(blobs, [a, b, c], s) == Apply(blobs, [b, c], Apply(blobs, [a], s))
    {
      ApplySplit(blobs, [a, b, c], [a], [b, c], s);
    }
    forall a, b, c, d, s
      ensures Apply(blobs, [a, b, c, d], s) == Apply(blobs, [b, c, d], Apply(blobs, [a], s))
    {
      ApplySplit(blobs, [a, b, c, d], [a], [b, c, d], s);
    }
    forall a, b, c, d, e, s
      ensures Apply(blobs, [a, b, c, d, e], s) == Apply(blobs, [b, c, d, e], Apply(blobs, [a], s))
    {
      ApplySplit(blobs, [a, b, c, d, e], [a], [b, c, d, e], s);
    }
    forall a, b, c, d, e, f, s
      ensures Apply(blobs, [a, b, c, d, e, f], s) == Apply(blobs, [b, c, d, e, f], Apply(blobs, [a], s))
    {
      ApplySplit(blobs, [a, b, c, d, e, f], [a], [b, c, d, e, f], s);
    }
    forall a, b, c, d, e, f, g, s
      ensures Apply(blobs, [a, b, c, d, e, f, g], s) == Apply(blobs, [b, c, d, e, f, g], Apply(blobs, [a], s))
    {
      ApplySplit(blobs, [a, b, c, d, e, f, g], [a], [b, c, d, e, f, g], s);
    }
    forall a, b, c, d, e, f, g, h, s
      ensures Apply(blobs, [a, b, c, d, e, f, g, h], s) == Apply(blobs, [b, c, d, e, f, g, h], Apply(blobs, [a], s))
    {
      ApplySplit(blobs, [a, b, c, d, e, f, g, h], [a], [b, c, d, e, f, g, h], s);
    }
  }

  class Emitter {
    const f: Frame
    const p: Params
    const pk: PublicKey
    const blobs: seq<nat>
    var code: seq<Op>
    var nextElement: nat
    var pending: nat
    var peakFrame: nat
    var failed: bool

    /** The generator state this object holds; None once a call has failed. */
    ghost function State(): Option<Em>
      reads this, f
    {
      if failed then None else Some(Em(code, View(f.slots), nextElement, pending, peakFrame))
    }

    constructor (p: Params, pk: PublicKey, blobs: seq<nat>)
      ensures fresh(f) && this.p == p && this.pk == pk && this.blobs == blobs
      ensures State() == Some(Em([], Nil, 0, 0, 0))
    {
      f := new Frame();
      this.p, this.pk, this.blobs := p, pk, blobs;
      code, nextElement, pending, peakFrame, failed := [], 0, 0, 0, false;
    }

    method Op(op: Op)
      modifies this`code
      ensures code == old(code) + [op]
    {
      code := code + [op];
    }

    method NotePeak()
      modifies this`peakFrame
      ensures peakFrame == Max(old(peakFrame), Len(View(f.slots)))
    {
      peakFrame := Max(peakFrame, |f.slots|);
    }

    method PushTransient()
      modifies this`peakFrame, f
      ensures View(f.slots) == Cons(Transient, View(old(f.slots)))
      ensures peakFrame == Max(old(peakFrame), Len(View(f.slots)))
    {
      f.Push(Transient);
      NotePeak();
    }

    method Data(bytes: Bytes)
      modifies this, f
      ensures State() == Apply(blobs, [Macro.Data(bytes)], old(State()))
    {
      ApplyOne(blobs, Macro.Data(bytes), State());
      if !failed {
        Op(Push(bytes));
        PushTransient();
      }
    }

    method Num(value: int)
      modifies this, f
      ensures State() == Apply(blobs, [Number(value)], old(State()))
    {
      ApplyOne(blobs, Number(value), State());
      if !failed {
        Op(PushNum(value));
        PushTransient();
      }
    }

    method Cat()
      modifies this, f
      ensures State() == Apply(blobs, [Macro.Cat], old(State()))
    {
      ApplyOne(blobs, Macro.Cat, State());
      if !failed {
        Op(OpCat);
        var ok := f.ReplaceTop(2, Transient);
        failed := !ok;
      }
    }

    method Sha256()
      modifies this, f
      ensures State() == Apply(blobs, [Macro.Sha256], old(State()))
    {
      ApplyOne(blobs, Macro.Sha256, State());
      if !failed {
        Op(OpSha256);
        var ok := f.ReplaceTop(1, Transient);
        failed := !ok;
      }
    }

    method Swap()
      modifies this, f
      ensures State() == Apply(blobs, [Macro.Swap], old(State()))
    {
      ApplyOne(blobs, Macro.Swap, State());
      if !failed {
        Op(OpSwap);
        var ok := f.Swap();
        failed := !ok;
      }
    }

    method Dup()
      modifies this, f
      ensures State() == Apply(blobs, [Macro.Dup], old(State()))
    {
      ApplyOne(blobs, Macro.Dup, State());
      if !failed {
        Op(OpDup);
        PushTransient();
      }
    }

    method Over()
      modifies this, f
      ensures State() == Apply(blobs, [Macro.Over], old(State()))
    {
      ApplyOne(blobs, Macro.Over, State());
      if !failed {
        Op(OpOver);
        PushTransient();
      }
    }

    method DropTop()
      modifies this, f
      ensures State() == Apply(blobs, [Macro.DropTop], old(State()))
    {
      ApplyOne(blobs, Macro.DropTop, State());
      if !failed {
        Op(OpDrop);
        DropOne(View(f.slots));
        var ok := f.Pop();
        failed := !ok;
      }
    }

    method BinaryNumOp(op: ArithOp)
      modifies this, f
      ensures State() == Apply(blobs, [BinaryNum(op)], old(State()))
    {
      ApplyOne(blobs, BinaryNum(op), State());
      if !failed {
        Op(OpArith(op));
        var ok := f.ReplaceTop(2, Transient);
        failed := !ok;
      }
    }

    /** Push a depth for an instruction that consumes it again. */
    method PushDepth(depth: nat, op: Op)
      requires !failed
      modifies this`code, this`peakFrame, f
      ensures code == old(code) + [PushNum(depth), op] && View(f.slots) == View(old(f.slots))
      ensures peakFrame == Max(old(peakFrame), Len(View(old(f.slots))) + 1)
    {
      Op(PushNum(depth));
      PushTransient();
      Op(op);
      var popped := f.Pop();
    }

    method Pick(name: Slot)
      modifies this, f
      ensures State() == Apply(blobs, [Macro.Pick(name)], old(State()))
    {
      ApplyOne(blobs, Macro.Pick(name), State());
      if !failed {
        var depth := f.FindDepth(name);
        match depth
        case None => failed := true;
        case Some(d) =>
          PushDepth(d, OpPick);
          PushTransient();
      }
    }

    method Roll(name: Slot)
      modifies this, f
      ensures State() == Apply(blobs, [Macro.Roll(name)], old(State()))
    {
      ApplyOne(blobs, Macro.Roll(name), State());
      if !failed {
        var depth := f.FindDepth(name);
        match depth
        case None => failed := true;
        case Some(d) =>
          PushDepth(d, OpRoll);
          var ok := f.Roll(d);
          failed := !ok;
      }
    }

    method RollDepth(depth: nat)
      modifies this, f
      ensures State() == Apply(blobs, [Macro.RollDepth(depth)], old(State()))
    {
      ApplyOne(blobs, Macro.RollDepth(depth), State());
      if !failed {
        PushDepth(depth, OpRoll);
        var ok := f.Roll(depth);
        failed := !ok;
      }
    }

    method NameTop(name: Slot)
      modifies this, f
      ensures State() == Apply(blobs, [Macro.NameTop(name)], old(State()))
    {
      ApplyOne(blobs, Macro.NameTop(name), State());
      if !failed {
        assert code + [] == code;
        var ok := f.RenameTop(name);
        failed := !ok;
      }
    }

    method Discard(name: Slot)
      modifies this, f
      ensures State() == Apply(blobs, SlhProgram.Discard(name), old(State()))
    {
      hide Apply, State;
      ApplyRules(blobs);
      Roll(name);
      DropTop();
    }

    /** Two bounds and the instruction that will consume them. */
    method PushRange(start: nat, end: nat)
      requires !failed
      modifies this`code, this`peakFrame, f
      ensures code == old(code) + [PushNum(start), PushNum(end), OpSubstr]
      ensures View(f.slots) == Cons(Transient, Cons(Transient, View(old(f.slots))))
      ensures peakFrame == Max(old(peakFrame), Len(View(old(f.slots))) + 2)
    {
      Op(PushNum(start));
      PushTransient();
      Op(PushNum(end));
      PushTransient();
      Op(OpSubstr);
    }

    method Substr(start: nat, end: nat)
      modifies this, f
      ensures State() == Apply(blobs, [Macro.Substr(start, end)], old(State()))
    {
      ApplyOne(blobs, Macro.Substr(start, end), State());
      if !failed {
        DropThree(View(f.slots));
        PushRange(start, end);
        var ok := f.ReplaceTop(3, Transient);
        failed := !ok;
      }
    }

    method Num2Bin(width: nat)
      modifies this, f
      ensures State() == Apply(blobs, [Macro.Num2Bin(width)], old(State()))
    {
      ApplyOne(blobs, Macro.Num2Bin(width), State());
      if !failed {
        if 1 <= width <= 8 {
          ghost var was := View(f.slots);
          Op(PushNum(width));
          PushTransient();
          Op(OpNum2Bin);
          assert code == old(code) + [PushNum(width), OpNum2Bin];
          DropThree(was);
          var ok := f.ReplaceTop(2, Transient);
          failed := !ok;
        } else {
          failed := true;
        }
      }
    }

    method Nip()
      modifies this, f
      ensures State() == Apply(blobs, [Macro.Nip], old(State()))
    {
      ApplyOne(blobs, Macro.Nip, State());
      if !failed {
        Op(OpNip);
        var ok := f.Nip();
        failed := !ok;
      }
    }

    method Bin2Num()
      modifies this, f
      ensures State() == Apply(blobs, [Macro.Bin2Num], old(State()))
    {
      ApplyOne(blobs, Macro.Bin2Num, State());
      if !failed {
        Op(OpBin2Num);
        var ok := f.ReplaceTop(1, Transient);
        failed := !ok;
      }
    }

    method Equal()
      modifies this, f
      ensures State() == Apply(blobs, [Macro.Equal], old(State()))
    {
      ApplyOne(blobs, Macro.Equal, State());
      if !failed {
        Op(OpEqual);
        var ok := f.ReplaceTop(2, Transient);
        failed := !ok;
      }
    }

    method Fail()
      modifies this, f
      ensures State() == Apply(blobs, [Refuse], old(State()))
    {
      ApplyOne(blobs, Refuse, State());
      failed := true;
    }

    // ---- gates -------------------------------------------------------------

    /** `OpIf`, whose boolean leaves the frame. */
    method OpenIf()
      modifies this, f
      ensures State() == Opened(old(State()))
    {
      if !failed {
        DropOne(View(f.slots));
        Op(OpIf);
        var ok := f.Pop();
        failed := !ok;
      }
    }

    method CloseIf()
      modifies this, f
      ensures State() == Closed(old(State()))
    {
      if !failed {
        Op(OpEndIf);
      }
    }

    // ---- the witness queue -------------------------------------------------

    /** Stash element k of the blob on top and keep the elements before it. */
    method PeelOne(k: nat, ghost below: List<Slot>)
      requires !failed && View(f.slots) == Cons(Transient, below) && k > 0
      modifies this, f
      ensures !failed && View(f.slots) == Cons(Transient, below)
      ensures nextElement == old(nextElement) && pending == old(pending)
      ensures peakFrame == Max(old(peakFrame), Len(below) + 4)
      ensures code == old(code) + [OpDup, PushNum(k * ELEM), PushNum((k + 1) * ELEM), OpSubstr, OpToAltStack,
                                   PushNum(0), PushNum(k * ELEM), OpSubstr]
    {
      var len := (k + 1) * ELEM;
      Op(OpDup);
      PushTransient();
      SubstrKnown(len - ELEM, len, Cons(Transient, below));
      Op(OpToAltStack);
      var popped := f.Pop();
      SubstrKnown(0, len - ELEM, below);
    }

    /** `substr` where the frame is known to hold an operand. */
    method SubstrKnown(start: nat, end: nat, ghost below: List<Slot>)
      requires !failed && View(f.slots) == Cons(Transient, below)
      modifies this, f
      ensures !failed && View(f.slots) == Cons(Transient, below)
      ensures nextElement == old(nextElement) && pending == old(pending)
      ensures peakFrame == Max(old(peakFrame), Len(below) + 3)
      ensures code == old(code) + [PushNum(start), PushNum(end), OpSubstr]
    {
      ApplyOne(blobs, Macro.Substr(start, end), State());
      DropOne(View(f.slots));
      Substr(start, end);
    }

    /** Cut one blob into its elements, the first ending on top of the alt stack. */
    method SliceBlob(count: nat)
      requires !failed && count > 0
      modifies this, f
      ensures !failed && View(f.slots) == View(old(f.slots)) && nextElement == old(nextElement)
      ensures pending == count && code == old(code) + SliceOps(count)
      ensures peakFrame == Max(old(peakFrame), Len(View(old(f.slots))) + (if count > 1 then 4 else 1))
    {
      hide SlicePeel;
      ghost var below := View(f.slots);
      ghost var c0 := code;
      Op(OpFromAltStack);
      PushTransient();
      var k := count - 1;
      while k > 0
        invariant 0 <= k <= count - 1 && !failed && View(f.slots) == Cons(Transient, below)
        invariant nextElement == old(nextElement)
        invariant code + SlicePeel(k) == c0 + [OpFromAltStack] + SlicePeel(count - 1)
        invariant peakFrame == Max(old(peakFrame), Len(below) + (if k < count - 1 then 4 else 1))
      {
        ghost var c1 := code;
        PeelOne(k, below);
        PeelNext(c1, k);
        k := k - 1;
      }
      PeelDone(code);
      Op(OpToAltStack);
      var popped := f.Pop();
      pending := count;
    }

    /** Slice the next blob if nothing is pending; an element that does not start its blob is an error. */
    method Refill()
      requires !failed
      modifies this, f
      ensures State() == EmitRefill(blobs, old(State()).value)
    {
      hide SliceOps, Locate;
      if pending == 0 {
        var at := LocateLoop(blobs, nextElement);
        if at.None? || at.value.1 != 0 || at.value.0 >= |blobs| || blobs[at.value.0] == 0 {
          failed := true;
          return;
        }
        SliceBlob(blobs[at.value.0]);
      }
    }

    /** The next signature element, onto the top of the stack under a name. */
    method Fetch(name: Slot)
      modifies this, f
      ensures State() == Apply(blobs, [Macro.Fetch(name)], old(State()))
    {
      ApplyFetch(blobs, name, State());
      hide Apply, EmitRefill;
      if !failed {
        RefillPending(blobs, State().value);
        Refill();
        if !failed {
          Take(name);
        }
      }
    }

    /** The pending element on top of the alt stack. */
    method Take(name: Slot)
      requires !failed && pending > 0
      modifies this, f
      ensures var r := old(State()).value;
              State() == Some(Em(r.code + [OpFromAltStack], Cons(name, r.f), r.next + 1, r.pending - 1,
                                 Max(r.peak, Len(r.f) + 1)))
    {
      Op(OpFromAltStack);
      f.Push(name);
      NotePeak();
      pending := pending - 1;
      nextElement := nextElement + 1;
    }

    // ---- composite helpers -------------------------------------------------

    /** `emit_be_bytes`. */
    method EmitBeBytes(width: nat)
      modifies this, f
      ensures State() == Apply(blobs, BeBytes(width), old(State()))
    {
      hide Apply, State;
      ApplyRules(blobs);
      Num2Bin(width);
      if width <= 1 {
        return;
      }
      Dup();
      Substr(width - 1, width);
      var k := width - 1;
      while k > 0
        invariant 0 <= k <= width - 1
        invariant Apply(blobs, ReverseBytes(k), State())
                  == Apply(blobs, [Macro.Num2Bin(width), Macro.Dup, Macro.Substr(width - 1, width)]
                                  + ReverseBytes(width - 1), old(State()))
      {
        Swap();
        Dup();
        Substr(k - 1, k);
        RollDepth(2);
        Swap();
        Cat();
        k := k - 1;
      }
      Nip();
    }

    /** `emit_be_int_from`. */
    method EmitBeInt(name: Slot, start: nat, len: nat)
      modifies this, f
      ensures State() == Apply(blobs, BeInt(name, start, len), old(State()))
    {
      hide Apply, State;
      ApplyRules(blobs);
      if !(0 < len <= 7) {
        Fail();
        return;
      }
      Num(0);
      for i := start to start + len
        invariant State() == Apply(blobs, [Number(0)] + BeIntSteps(name, start, i - start), old(State()))
      {
        Num(256);
        BinaryNumOp(Mul);
        Pick(name);
        Substr(i, i + 1);
        Data([0]);
        Cat();
        Bin2Num();
        BinaryNumOp(Add);
      }
    }

    method EmitShiftDown(shift: nat)
      modifies this, f
      ensures State() == Apply(blobs, ShiftDown(shift), old(State()))
    {
      hide Apply, State, Pow2;
      ApplyRules(blobs);
      if shift > 0 {
        Num(Pow2(shift));
        BinaryNumOp(Div);
      }
    }

    method EmitMask(bits: nat)
      modifies this, f
      ensures State() == Apply(blobs, MaskTo(bits), old(State()))
    {
      hide Apply, State, Pow2;
      ApplyRules(blobs);
      Num(Pow2(bits));
      BinaryNumOp(Mod);
    }

    /** One byte of a slot, padded, shifted and masked. */
    method EmitByteField(name: Slot, byte: nat, shift: nat, bits: nat)
      modifies this, f
      ensures State() == Apply(blobs, ByteField(name, byte, shift, bits), old(State()))
    {
      hide Apply, State, ShiftDown, MaskTo;
      ApplyRules(blobs);
      Pick(name);
      Substr(byte, byte + 1);
      Data([0]);
      Cat();
      Bin2Num();
      EmitShiftDown(shift);
      if bits > 0 {
        EmitMask(bits);
      }
    }

    /** `emit_digit_of`. */
    method EmitDigitOf(name: Slot, i: nat)
      requires p.lgw in {1, 2, 4, 8}
      modifies this, f
      ensures State() == Apply(blobs, DigitAt(p, name, i), old(State()))
    {
      hide Apply, State, ByteField, DigitShift;
      var perByte := 8 / p.lgw;
      var pos := i % perByte;
      EmitByteField(name, i / perByte, DigitShift(p, pos), if pos > 0 then p.lgw else 0);
    }

    /** `emit_tree_bytes`. */
    method EmitTreeBytes(slot: Slot)
      requires p.d > 0
      modifies this, f
      ensures State() == Apply(blobs, TreeBytes(p, slot), old(State()))
    {
      hide Apply, State, BeBytes;
      ApplyRules(blobs);
      if p.IdxTreeBits() == 0 {
        Data(Zeros(8));
      } else {
        Pick(slot);
        EmitBeBytes(8);
      }
    }

    method EmitFinishHash()
      modifies this, f
      ensures State() == Apply(blobs, FinishHash(), old(State()))
    {
      hide Apply, State;
      ApplyRules(blobs);
      Swap();
      Cat();
      Sha256();
      Substr(0, N);
    }

    // ---- phases ------------------------------------------------------------

    /** `emit_h_msg`. */
    method EmitHMsg()
      modifies this, f
      ensures State() == Apply(blobs, HMsgPhase(p, pk), old(State()))
    {
      hide Apply, State, ToBe;
      ApplyRules(blobs);
      Fetch(R);
      Dup();
      Data(pk.seed + pk.root + [0, 0]);
      Cat();
      Roll(D);
      Cat();
      Sha256();
      Swap();
      Data(pk.seed);
      Cat();
      Swap();
      Cat();
      Data(ToBe(0, 4));
      Cat();
      Sha256();
      Substr(0, p.m);
      NameTop(Digest);
    }

    /** `emit_indices`. */
    method EmitIndices()
      requires p.d > 0
      modifies this, f
      ensures State() == Apply(blobs, IndicesPhase(p), old(State()))
    {
      hide Apply, State, BeInt, MaskTo;
      ApplyRules(blobs);
      if p.IdxTreeBits() == 0 {
        Num(0);
      } else {
        EmitBeInt(Digest, p.MdLen(), p.IdxTreeLen());
        EmitMask(p.IdxTreeBits());
      }
      NameTop(Tree);
      EmitBeInt(Digest, p.MdLen() + p.IdxTreeLen(), p.IdxLeafLen());
      EmitMask(p.hp);
      NameTop(Leaf);
    }

    /** `emit_hash_context` for the key pair in `leaf`. */
    method EmitHashContext(layer: nat, ty: nat, words: nat)
      requires p.d > 0
      modifies this, f
      ensures State() == Apply(blobs, HashContext(p, pk, layer, ty, words), old(State()))
    {
      hide Apply, State, BeBytes, TreeBytes, HashPad;
      ApplyRules(blobs);
      Data(HashPad(pk.seed) + [layer % 256]);
      EmitTreeBytes(Tree);
      Cat();
      Data([ty % 256]);
      Cat();
      Pick(Leaf);
      EmitBeBytes(4);
      Cat();
      for i := 0 to words
        invariant State() == Apply(blobs, ContextBase(p, pk, layer, Tree) + ContextTail([ty % 256]) + ZeroWords(i), old(State()))
      {
        Data(Zeros(4));
        Cat();
      }
    }

    /** `emit_merkle_step`. */
    method EmitMerkleStep(bitSlot: Slot, bit: nat)
      modifies this, f
      ensures State() == Apply(blobs, MerkleStep(bitSlot, bit), old(State()))
    {
      hide Apply, State, ShiftDown, Opened, Closed;
      ApplyRules(blobs);
      NameTop(Pfx);
      Roll(Node);
      Roll(Auth);
      Pick(bitSlot);
      EmitShiftDown(bit);
      Num(2);
      BinaryNumOp(Mod);
      GateParts(blobs, [Macro.Swap], State());
      OpenIf();
      Swap();
      CloseIf();
      Cat();
      Cat();
      Sha256();
      Substr(0, N);
      NameTop(Node);
    }

    /** The sibling, the parent's address, and the step. */
    method EmitPathLevel(ctx: Slot, pos: Slot, bits: Slot, width: nat, level: nat)
      requires width <= 4
      modifies this, f
      ensures State() == Apply(blobs, PathLevel(ctx, pos, bits, width, level), old(State()))
    {
      hide Apply, State, BeBytes, ToBe, MerkleStep, Pow2;
      ApplyRules(blobs);
      Fetch(Auth);
      Pick(pos);
      Num(Pow2(level + 1));
      BinaryNumOp(Div);
      EmitBeBytes(width);
      Pick(ctx);
      Data(ToBe(level + 1, 4) + Zeros(4 - width));
      Cat();
      Swap();
      Cat();
      EmitMerkleStep(bits, level);
    }

    /** Every level of one path. */
    method EmitPath(ctx: Slot, pos: Slot, bits: Slot, width: nat, levels: nat)
      requires width <= 4
      modifies this, f
      ensures State() == Apply(blobs, PathLevels(ctx, pos, bits, width, levels), old(State()))
    {
      hide Apply, State, PathLevel;
      ApplyNone(blobs, State());
      for level := 0 to levels
        invariant State() == Apply(blobs, PathLevels(ctx, pos, bits, width, level), old(State()))
      {
        ApplyAppend(blobs, PathLevels(ctx, pos, bits, width, level), PathLevel(ctx, pos, bits, width, level), old(State()));
        EmitPathLevel(ctx, pos, bits, width, level);
      }
    }

    /** The digest window of FORS index i, checked against the digest's length. */
    method EmitForsIndex(i: nat)
      requires p.a > 0
      modifies this, f
      ensures State() == Apply(blobs, ForsIndex(p, i), old(State()))
    {
      hide Apply, State, BeInt, ShiftDown, MaskTo;
      ApplyRules(blobs);
      if p.ForsByte(i) + p.ForsFieldBytes(i) <= p.m {
        EmitBeInt(Digest, p.ForsByte(i), p.ForsFieldBytes(i));
        EmitShiftDown(ForsShift(p, i));
        EmitMask(p.a);
        NameTop(Idx);
      } else {
        Fail();
      }
    }

    /** The opened leaf of the tree whose index is on the stack. */
    method EmitForsLeaf(width: nat)
      requires width <= 4
      modifies this, f
      ensures State() == Apply(blobs, ForsLeaf(width), old(State()))
    {
      hide Apply, State, BeBytes, FinishHash;
      ApplyRules(blobs);
      Fetch(Sk);
      Pick(Hcf);
      Data(Zeros(4 + (4 - width)));
      Cat();
      Pick(Lx);
      EmitBeBytes(width);
      Cat();
      EmitFinishHash();
      NameTop(Node);
    }

    /** One turn of the loop over FORS trees. */
    method EmitForsTree(i: nat)
      requires Sized(p)
      modifies this, f
      ensures State() == Apply(blobs, ForsTree(p, i), old(State()))
    {
      hide Apply, State, PathLevels, ForsIndex, ForsLeaf, Pow2, SlhProgram.Discard;
      ApplyRules(blobs);
      EmitForsIndex(i);
      Pick(Idx);
      Num(i * Pow2(p.a));
      BinaryNumOp(Add);
      NameTop(Lx);
      EmitForsLeaf(p.ForsIndexWidth());
      EmitPath(Hcf, Lx, Idx, p.ForsIndexWidth(), p.a);
      Roll(Racc);
      Swap();
      Cat();
      NameTop(Racc);
      Discard(Lx);
      Discard(Idx);
    }

    /** The loop over FORS trees. */
    method EmitForsTrees()
      requires Sized(p)
      modifies this, f
      ensures State() == Apply(blobs, ForsTrees(p, p.k), old(State()))
    {
      hide Apply, State, ForsTree, Sized;
      ApplyNone(blobs, State());
      for i := 0 to p.k
        invariant State() == Apply(blobs, ForsTrees(p, i), old(State()))
      {
        ApplyAppend(blobs, ForsTrees(p, i), ForsTree(p, i), old(State()));
        EmitForsTree(i);
      }
    }

    /** The two FORS contexts. */
    method EmitForsContexts()
      requires p.d > 0
      modifies this, f
      ensures State() == Apply(blobs, ForsContexts(p, pk), old(State()))
    {
      hide Apply, State, HashContext;
      ApplyRules(blobs);
      EmitHashContext(0, FORS_TREE, 0);
      NameTop(Hcf);
      EmitHashContext(0, FORS_ROOTS, 2);
      NameTop(Racc);
    }

    method EmitForsEnd()
      modifies this, f
      ensures State() == Apply(blobs, ForsEnd(), old(State()))
    {
      hide Apply, State, SlhProgram.Discard;
      ApplyRules(blobs);
      Roll(Racc);
      Sha256();
      Substr(0, N);
      NameTop(Node);
      Discard(Hcf);
      Discard(Digest);
    }

    /** `emit_fors`. */
    method EmitFors()
      requires Sized(p)
      modifies this, f
      ensures State() == Apply(blobs, ForsPhase(p, pk), old(State()))
    {
      assert p.d > 0;
      hide Apply, State, ForsContexts, ForsTrees, ForsEnd, Sized;
      ApplyAppend(blobs, ForsContexts(p, pk), ForsTrees(p, p.k), State());
      ApplyAppend(blobs, ForsContexts(p, pk) + ForsTrees(p, p.k), ForsEnd(), State());
      EmitForsContexts();
      EmitForsTrees();
      EmitForsEnd();
    }

    /** The checksum pass. */
    method EmitChecksum()
      requires p.lgw in {1, 2, 4, 8}
      modifies this, f
      ensures State() == Apply(blobs, ChecksumSteps(p, p.Len1()), old(State()))
    {
      hide Apply, State, DigitAt, Params.W, Params.Len1;
      ApplyRules(blobs);
      for i := 0 to p.Len1()
        invariant State() == Apply(blobs, ChecksumSteps(p, i), old(State()))
      {
        EmitDigitOf(Node, i);
        Num(p.W() - 1);
        Swap();
        BinaryNumOp(Sub);
        BinaryNumOp(Add);
        NameTop(Csum);
      }
    }

    /** One gated chain step. */
    method EmitChainStep(step: nat)
      modifies this, f
      ensures State() == Apply(blobs, ChainStep(step), old(State()))
    {
      hide Apply, State, Opened, Closed;
      ApplyRules(blobs);
      Over();
      Num(step);
      BinaryNumOp(LessThanOrEqual);
      GateParts(blobs, GatedStep(step), State());
      OpenIf();
      Pick(Hcwi);
      Data([step % 256]);
      Cat();
      EmitFinishHash();
      NameTop(X);
      CloseIf();
    }

    method EmitChainDigit(i: nat)
      requires p.lgw in {1, 2, 4, 8} && i < p.Len()
      modifies this, f
      ensures State() == Apply(blobs, ChainDigit(p, i), old(State()))
    {
      hide Apply, State, DigitAt, ShiftDown, MaskTo;
      ApplyRules(blobs);
      if i < p.Len1() {
        EmitDigitOf(Node, i);
      } else {
        var j := i - p.Len1();
        Pick(Csum);
        EmitShiftDown(ChecksumShift(p, j));
        if j > 0 {
          EmitMask(p.lgw);
        }
      }
    }

    /** One chain: digit, context, value, steps, and its end onto the accumulator. */
    method EmitChain(i: nat)
      requires p.lgw in {1, 2, 4, 8} && i < p.Len()
      modifies this, f
      ensures State() == Apply(blobs, ChainPhase(p, i), old(State()))
    {
      hide *;
      DigitCounts(p);
      ChainInParts(blobs, p, i, State());
      EmitChainOpen(i);
      EmitChainSteps(p.W() - 1);
      EmitChainClose();
    }

    /** Digit, context and value of one chain. */
    method EmitChainOpen(i: nat)
      requires p.lgw in {1, 2, 4, 8} && i < p.Len()
      modifies this, f
      ensures State() == Apply(blobs, ChainOpen(p, i), old(State()))
    {
      hide Apply, State, ChainDigit, ToBe, Params.W, Params.Len;
      ApplyRules(blobs);
      EmitChainDigit(i);
      NameTop(D);
      Pick(Hcw);
      Data(ToBe(i, 4) + Zeros(3));
      Cat();
      NameTop(Hcwi);
      Roll(D);
      Fetch(X);
    }

    /** Every gated step of one chain. */
    method EmitChainSteps(n: nat)
      modifies this, f
      ensures State() == Apply(blobs, ChainSteps(n), old(State()))
    {
      hide Apply, State, ChainStep;
      ApplyNone(blobs, State());
      for step := 0 to n
        invariant State() == Apply(blobs, ChainSteps(step), old(State()))
      {
        ApplyAppend(blobs, ChainSteps(step), ChainStep(step), old(State()));
        EmitChainStep(step);
      }
    }

    method EmitChainClose()
      modifies this, f
      ensures State() == Apply(blobs, ChainClose(), old(State()))
    {
      hide Apply, State, SlhProgram.Discard;
      ApplyRules(blobs);
      Discard(D);
      Discard(Hcwi);
      Roll(Acc);
      Swap();
      Cat();
      NameTop(Acc);
    }

    method EmitWotsOpen()
      requires p.lgw in {1, 2, 4, 8}
      modifies this, f
      ensures State() == Apply(blobs, WotsOpen(p), old(State()))
    {
      hide Apply, State, ChecksumSteps, Params.Len1;
      ApplyRules(blobs);
      Num(0);
      NameTop(Csum);
      EmitChecksum();
      Pick(Hcp);
      NameTop(Acc);
    }

    method EmitWotsClose()
      modifies this, f
      ensures State() == Apply(blobs, WotsClose(), old(State()))
    {
      hide Apply, State, SlhProgram.Discard;
      ApplyRules(blobs);
      Roll(Acc);
      Sha256();
      Substr(0, N);
      NameTop(Wpk);
      Discard(Node);
      Discard(Csum);
      Discard(Hcw);
      Discard(Hcp);
      NameTop(Node);
    }

    /** Every chain of one WOTS+ key. */
    method EmitChains()
      requires p.lgw in {1, 2, 4, 8}
      modifies this, f
      ensures State() == Apply(blobs, ChainPhases(p, p.Len()), old(State()))
    {
      hide Apply, State, ChainPhase, Params.Len;
      ApplyNone(blobs, State());
      for i := 0 to p.Len()
        invariant State() == Apply(blobs, ChainPhases(p, i), old(State()))
      {
        ApplyAppend(blobs, ChainPhases(p, i), ChainPhase(p, i), old(State()));
        EmitChain(i);
      }
    }

    /** `emit_wots`. */
    method EmitWots()
      requires p.lgw in {1, 2, 4, 8}
      modifies this, f
      ensures State() == Apply(blobs, WotsPhase(p), old(State()))
    {
      hide Apply, State, WotsOpen, ChainPhases, WotsClose, Params.Len;
      ApplyAppend(blobs, WotsOpen(p), ChainPhases(p, p.Len()), State());
      ApplyAppend(blobs, WotsOpen(p) + ChainPhases(p, p.Len()), WotsClose(), State());
      EmitWotsOpen();
      EmitChains();
      EmitWotsClose();
    }

    method EmitLayerIndices(layer: nat)
      modifies this, f
      ensures State() == Apply(blobs, LayerIndices(p, layer), old(State()))
    {
      hide Apply, State, Pow2, MaskTo;
      ApplyRules(blobs);
      if layer == 0 {
        Pick(Tree);
        NameTop(Ltree);
        Pick(Leaf);
        NameTop(Lleaf);
      } else {
        Pick(Tree);
        Num(Pow2(p.hp * layer));
        BinaryNumOp(Div);
        NameTop(Ltree);
        Pick(Tree);
        Num(Pow2(p.hp * (layer - 1)));
        BinaryNumOp(Div);
        EmitMask(p.hp);
        NameTop(Lleaf);
      }
    }

    /** The three hash contexts of one layer. */
    method EmitLayerContexts(layer: nat)
      requires p.d > 0
      modifies this, f
      ensures State() == Apply(blobs, LayerContexts(p, pk, layer), old(State()))
    {
      hide Apply, State, BeBytes, ContextBase, SlhProgram.Discard, Zeros;
      ApplyRules(blobs);
      EmitContextBase(layer);
      NameTop(Hcb);
      Pick(Lleaf);
      EmitBeBytes(4);
      NameTop(Kp4);
      EmitDerived();
      Discard(Hcb);
      Discard(Kp4);
    }

    /** pad || layer || tree address for the tree in force. */
    method EmitContextBase(layer: nat)
      requires p.d > 0
      modifies this, f
      ensures State() == Apply(blobs, ContextBase(p, pk, layer, Ltree), old(State()))
    {
      hide Apply, State, TreeBytes, HashPad;
      ApplyRules(blobs);
      Data(HashPad(pk.seed) + [layer % 256]);
      EmitTreeBytes(Ltree);
      Cat();
    }

    /** The chain, public-key and tree contexts derived from the shared base. */
    method EmitDerived()
      modifies this, f
      ensures State() == Apply(blobs, DerivedContexts(), old(State()))
    {
      hide Apply, State, Zeros;
      ApplyRules(blobs);
      Pick(Hcb);
      Data([WOTS_HASH]);
      Cat();
      Pick(Kp4);
      Cat();
      NameTop(Hcw);
      Pick(Hcb);
      Data([WOTS_PK]);
      Cat();
      Pick(Kp4);
      Cat();
      Data(Zeros(8));
      Cat();
      NameTop(Hcp);
      Pick(Hcb);
      Data([TREE]);
      Cat();
      Data(Zeros(4));
      Cat();
      NameTop(Hct);
    }

    /** `emit_layer`. */
    method EmitLayer(layer: nat)
      requires Sized(p)
      modifies this, f
      ensures State() == Apply(blobs, LayerPhase(p, pk, layer), old(State()))
    {
      assert p.d > 0 && p.lgw in {1, 2, 4, 8} && p.XmssIndexWidth() <= 4;
      hide Apply, State, LayerIndices, LayerContexts, WotsPhase, PathLevels, LayerEnd, Sized;
      hide Params.XmssIndexWidth, Params.ForsIndexWidth;
      ApplyFive(blobs, LayerIndices(p, layer), LayerContexts(p, pk, layer), WotsPhase(p),
                PathLevels(Hct, Lleaf, Lleaf, p.XmssIndexWidth(), p.hp), LayerEnd(), State());
      EmitLayerIndices(layer);
      EmitLayerContexts(layer);
      EmitWots();
      EmitPath(Hct, Lleaf, Lleaf, p.XmssIndexWidth(), p.hp);
      EmitLayerEnd();
    }

    method EmitLayerEnd()
      modifies this, f
      ensures State() == Apply(blobs, LayerEnd(), old(State()))
    {
      hide Apply, State, SlhProgram.Discard;
      ApplyRules(blobs);
      Discard(Hct);
      Discard(Ltree);
      Discard(Lleaf);
    }

    method EmitLayers()
      requires Sized(p)
      modifies this, f
      ensures State() == Apply(blobs, LayerPhases(p, pk, p.d), old(State()))
    {
      hide Apply, State, LayerPhase, Sized;
      ApplyNone(blobs, State());
      for layer := 0 to p.d
        invariant State() == Apply(blobs, LayerPhases(p, pk, layer), old(State()))
      {
        ApplyAppend(blobs, LayerPhases(p, pk, layer), LayerPhase(p, pk, layer), old(State()));
        EmitLayer(layer);
      }
    }

    /** Everything up to the closing checks. */
    method EmitPhases()
      requires Sized(p)
      modifies this, f
      ensures State() == Apply(blobs, BodyPhases(p, pk), old(State()))
    {
      assert p.d > 0;
      hide Apply, State, HMsgPhase, IndicesPhase, ForsPhase, LayerPhases, SlhProgram.Discard, Sized;
      ghost var upto := HMsgPhase(p, pk) + IndicesPhase(p) + ForsPhase(p, pk) + LayerPhases(p, pk, p.d)
                        + SlhProgram.Discard(Tree);
      ApplyFive(blobs, HMsgPhase(p, pk), IndicesPhase(p), ForsPhase(p, pk), LayerPhases(p, pk, p.d),
                SlhProgram.Discard(Tree), State());
      ApplyAppend(blobs, upto, SlhProgram.Discard(Leaf), State());
      EmitHMsg();
      EmitIndices();
      EmitFors();
      EmitLayers();
      Discard(Tree);
      Discard(Leaf);
    }

    /** The checks on what the body consumed and left, then the comparison with the pinned root. */
    method CloseBody(elements: nat)
      modifies this, f
      ensures State() == CheckedEnd(blobs, elements, pk.root, old(State()))
    {
      hide Apply;
      FailedStays(blobs, [Macro.Data(pk.root)]);
      FailedStays(blobs, [Macro.Equal]);
      if !failed {
        var shape := f.ExpectTop([Node]);
        OneNode(f.slots);
        if nextElement != elements || pending != 0 || !shape || |f.slots| != 1 {
          failed := true;
          return;
        }
      }
      CloseCompare(blobs, pk.root, State());
      Data(pk.root);
      Equal();
    }

    /** `emit_body`. */
    method EmitBody()
      requires Sized(p)
      modifies this, f
      ensures State() == match old(State()) case None => None case Some(e) => SlhProgram.EmitBody(p, pk, blobs, e)
    {
      SizedWidth(p);
      BodyIs(p, pk, blobs, State());
      hide *;
      EmitPhases();
      CheckedBody(blobs, BodyPhases(p, pk), p.SigElements(), pk.root, old(State()));
      CloseBody(p.SigElements());
    }
  }

  lemma SizedWidth(p: Params)
    requires Sized(p)
    ensures p.lgw > 0
  {
  }

  lemma BodyIs(p: Params, pk: PublicKey, blobs: seq<nat>, s: Option<Em>)
    requires Sized(p) && p.lgw > 0
    ensures (match s case None => None case Some(e) => SlhProgram.EmitBody(p, pk, blobs, e))
            == match s case None => None case Some(e) => EmitChecked(blobs, BodyPhases(p, pk), p.SigElements(), pk.root, e)
  {
    hide EmitChecked, BodyPhases, Sized, Params.SigElements;
  }

  lemma ChainInParts(blobs: seq<nat>, p: Params, i: nat, s: Option<Em>)
    requires p.lgw in {1, 2, 4, 8} && i < p.Len() && p.W() >= 1
    ensures Apply(blobs, ChainPhase(p, i), s)
            == Apply(blobs, ChainClose(), Apply(blobs, ChainSteps(p.W() - 1), Apply(blobs, ChainOpen(p, i), s)))
  {
    hide Apply, ChainOpen, ChainSteps, ChainClose, Params.W, Params.Len;
    ApplyAppend(blobs, ChainOpen(p, i), ChainSteps(p.W() - 1), s);
    ApplyAppend(blobs, ChainOpen(p, i) + ChainSteps(p.W() - 1), ChainClose(), s);
  }

  function CheckedEnd(blobs: seq<nat>, elements: nat, root: Bytes, s: Option<Em>): Option<Em>
  {
    match s
    case None => None
    case Some(b) =>
      if b.next == elements && b.pending == 0 && b.f == Cons(Node, Nil) then
        Apply(blobs, [Macro.Data(root), Macro.Equal], s)
      else None
  }

  lemma FailedStays(blobs: seq<nat>, ms: seq<Macro>)
    ensures Apply(blobs, ms, None) == None
  {
  }

  lemma CloseCompare(blobs: seq<nat>, root: Bytes, s: Option<Em>)
    ensures Apply(blobs, [Macro.Data(root), Macro.Equal], s) == Apply(blobs, [Macro.Equal], Apply(blobs, [Macro.Data(root)], s))
  {
    ApplySplit(blobs, [Macro.Data(root), Macro.Equal], [Macro.Data(root)], [Macro.Equal], s);
  }

  function GatedStep(step: nat): seq<Macro>
  {
    [Macro.Pick(Hcwi), Macro.Data([step % 256]), Macro.Cat, Macro.Swap, Macro.Cat, Macro.Sha256, Macro.Substr(0, N),
     Macro.NameTop(X)]
  }

  lemma OneNode(slots: seq<Slot>)
    ensures View(slots) == Cons(Node, Nil) <==> |slots| == 1 && OnTop(View(slots), [Node])
  {
    var none: List<Slot> := Nil;
    assert Len(none) == 0 && Len(Cons(Node, none)) == 1;
    if |slots| == 1 {
      var top: nat := 0;
      assert slots[..0] == [] && View([]) == Nil;
      assert View(slots) == Cons(slots[0], Nil);
      assert Nth(View(slots), top) == slots[0];
    }
  }

  lemma CheckedBody(blobs: seq<nat>, body: seq<Macro>, elements: nat, root: Bytes, s: Option<Em>)
    ensures (match s case None => None case Some(e) => EmitChecked(blobs, body, elements, root, e))
            == CheckedEnd(blobs, elements, root, Apply(blobs, body, s))
  {
    hide EmitAll;
  }

  /** The state after `OpIf`. */
  function Opened(s: Option<Em>): Option<Em>
  {
    match s
    case None => None
    case Some(e) =>
      match Drop(e.f, 1)
      case None => None
      case Some(f) => Some(Em(e.code + [OpIf], f, e.next, e.pending, e.peak))
  }

  function Closed(s: Option<Em>): Option<Em>
  {
    match s
    case None => None
    case Some(e) => Some(e.(code := e.code + [OpEndIf]))
  }

  lemma {:induction false} PlainEmit(blobs: seq<nat>, ms: seq<Macro>, c0: seq<Op>, c: seq<Op>, f: List<Slot>, next: nat,
                                     pending: nat, peak: nat)
    requires AllPlain(ms)
    ensures EmitAll(blobs, ms, Em(c0 + c, f, next, pending, peak))
            == match PlainAll(ms, Block(c, f, peak))
               case Some(b) => Some(Em(c0 + b.code, b.f, next, pending, b.peak))
               case None => None
  {
    hide PlainOps, PlainFrame, PlainNote;
    if |ms| > 0 {
      assert !ms[0].Fetch? && !ms[0].Gate?;
      match PlainOne(ms[0], Block(c, f, peak)) {
        case Some(b) =>
          assert c0 + c + PlainOps(ms[0], f) == c0 + (c + PlainOps(ms[0], f));
          PlainEmit(blobs, ms[1..], c0, b.code, b.f, next, pending, b.peak);
        case None =>
      }
    }
  }

  /** Emitting a body between `OpIf` and `OpEndIf` is emitting the gate. */
  lemma GateParts(blobs: seq<nat>, body: seq<Macro>, s: Option<Em>)
    requires AllPlain(body)
    ensures Apply(blobs, [Gate(body)], s) == Closed(Apply(blobs, body, Opened(s)))
  {
    hide PlainAll, EmitAll;
    ApplyOne(blobs, Gate(body), s);
    if s.Some? && Drop(s.value.f, 1).Some? {
      var e := s.value;
      var c0 := e.code + [OpIf];
      assert c0 + [] == c0;
      PlainEmit(blobs, body, c0, [], Drop(e.f, 1).value, e.next, e.pending, e.peak);
      var b := PlainAll(body, Block([], Drop(e.f, 1).value, e.peak));
      if b.Some? {
        assert c0 + b.value.code + [OpEndIf] == e.code + ([OpIf] + b.value.code + [OpEndIf]);
      }
    }
  }

  lemma PeelNext(c: seq<Op>, k: nat)
    requires k > 0
    ensures c + [OpDup, PushNum(k * ELEM), PushNum((k + 1) * ELEM), OpSubstr, OpToAltStack,
                 PushNum(0), PushNum(k * ELEM), OpSubstr] + SlicePeel(k - 1)
            == c + SlicePeel(k)
  {
  }

  lemma PeelDone(c: seq<Op>)
    ensures c + SlicePeel(0) == c
  {
  }

  lemma DropOne(l: List<Slot>)
    ensures Drop(l, 1) == if l.Cons? then Some(l.tail) else None
  {
    if l.Cons? {
      assert Drop(l.tail, 0) == Some(l.tail);
    }
  }

  lemma DropThree(l: List<Slot>)
    ensures Drop(Cons(Transient, Cons(Transient, l)), 3) == Drop(l, 1)
    ensures Drop(Cons(Transient, l), 2) == Drop(l, 1)
  {
    assert Drop(Cons(Transient, l), 2) == Drop(l, 1);
  }

  /** `emit_prologue`. */
  method EmitPrologue(e: Emitter, count: nat)
    requires e.code == []
    modifies e`code
    ensures e.code == Prologue(count)
  {
    var i := 0;
    while i < count
      invariant 0 <= i <= count && e.code + Prologue(count - i) == Prologue(count)
    {
      ghost var was := e.code;
      e.Op(OpToAltStack);
      assert was + Prologue(count - i) == e.code + Prologue(count - (i + 1));
      i := i + 1;
    }
    assert e.code + [] == e.code;
  }

  /** `emit_verify`: script and recorded peak, or a generation error. */
  method BuildVerifyScript(p: Params, pk: PublicKey, blobs: seq<nat>) returns (r: Option<(seq<Op>, nat)>)
    requires Sized(p)
    ensures r == match EmitVerify(p, pk, blobs) case Some(e) => Some((e.code, e.peak)) case None => None
  {
    hide SlhProgram.EmitBody, Sized;
    var e := new Emitter(p, pk, blobs);
    EmitPrologue(e, |blobs|);
    e.f.Push(D);
    assert View(e.f.slots) == Cons(D, Nil);
    e.EmitBody();
    r := if e.failed then None else Some((e.code, e.peakFrame));
  }

  /** `emit_vault_script`. */
  method BuildVaultScript(p: Params, pk: PublicKey, blobs: seq<nat>, count: nat) returns (r: Option<(seq<Op>, nat)>)
    requires Sized(p)
    ensures r == match Vault.EmitVault(p, pk, blobs, count) case Some(e) => Some((e.code, e.peak)) case None => None
  {
    hide SlhProgram.EmitBody, Sized, BindingOps;
    var e := new Emitter(p, pk, blobs);
    EmitPrologue(e, |blobs|);
    var digest := EmitBindingDigest(count);
    if digest.None? {
      return None;
    }
    e.code := e.code + digest.value;
    e.f.Push(D);
    assert View(e.f.slots) == Cons(D, Nil);
    e.EmitBody();
    r := if e.failed then None else Some((e.code, e.peakFrame));
  }
}
