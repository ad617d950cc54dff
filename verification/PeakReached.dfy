/**
 * The peak a generator records is not an overestimate: every run of the verifier reaches it. With the bound on the other
 * side this brackets what a script needs between its recorded frame and `peak_stack_estimate`.
 */
module PeakReached {
  import opened Arith
  import opened Bytes
  import opened Lists
  import opened Machine
  import opened Numbers
  import opened Params
  import opened Frames
  import opened Emission
  import opened Simulation
  import opened Witness
  import opened Faithful
  import opened Reference
  import opened SlhProgram
  import opened SlhLayer
  import opened SlhVerify

  // ---- heights a run passes ------------------------------------------------

  lemma {:induction false} PeakKept(env: Env, code: seq<Op>, m: VM<Val>)
    requires TRun(env, code, m).Some?
    ensures TRun(env, code, m).value.peak >= m.peak
  {
    if |code| > 0 {
      StepPeak(env, code[0], m);
      hide TStep;
      PeakKept(env, code[1..], TStep(env, code[0], m).value);
    }
  }

  lemma StepPeak(env: Env, op: Op, m: VM<Val>)
    requires TStep(env, op, m).Some?
    ensures TStep(env, op, m).value.peak >= m.peak
  {
  }

  /** A run's peak is at least the size after any of its prefixes. */
  lemma Passes(env: Env, a: seq<Op>, b: seq<Op>, m: VM<Val>)
    requires TRun(env, a, m).Some? && TRun(env, a + b, m).Some?
    ensures TRun(env, a + b, m).value.peak >= TRun(env, a, m).value.peak
  {
    hide TRun;
    TRunAppend(env, a, b, m);
    PeakKept(env, b, TRun(env, a, m).value);
  }

  lemma OnePush(env: Env, n: int, m: VM<Val>)
    requires AllTrue(m.cond)
    ensures TRun(env, [PushNum(n)], m) == Some(Note(WithStack(m, Cons(Num(n), m.stack))))
    ensures TRun(env, [PushNum(n)], m).value.peak >= Len(m.stack) + 1 + Len(m.alt)
  {
    PushOne(env, n, m);
    assert [PushNum(n)][1..] == [];
  }

  /** What a call records is a height its instructions reach. */
  lemma NoteReached(env: Env, m: Macro, l: NS, vm: VM<Val>)
    requires DoPlain(env.hash, m, l).Some?
    requires vm.stack == Vals(l) && AllTrue(vm.cond) && Size(vm) <= vm.peak
    ensures TRun(env, PlainOps(m, Names(l)), vm).Some?
    ensures PlainNote(m, Names(l)) + Len(vm.alt) <= TRun(env, PlainOps(m, Names(l)), vm).value.peak
  {
    hide *;
    Ends(env, m, l, vm);
    if m.Substr? {
      SubstrCall(m.from, m.to, Names(l));
      TwoPushes(env, m.from, m.to, vm);
    } else if m.Roll? || m.RollDepth? || m.Num2Bin? {
      var n, op := OperandCall(m, Names(l));
      FirstPush(env, n, [op], vm);
    } else {
      Grown(env, m, l);
    }
  }

  lemma Ends(env: Env, m: Macro, l: NS, vm: VM<Val>)
    requires DoPlain(env.hash, m, l).Some?
    requires vm.stack == Vals(l) && AllTrue(vm.cond) && Size(vm) <= vm.peak
    ensures var r := TRun(env, PlainOps(m, Names(l)), vm);
            r.Some? && r.value.peak >= Len(DoPlain(env.hash, m, l).value) + Len(vm.alt)
  {
    hide TRun, DoPlain, PlainOps, PlainNote;
    PlainOk(env, m, l, vm);
  }

  lemma SubstrCall(a: nat, b: nat, f: List<Slot>)
    ensures PlainOps(Substr(a, b), f) == [PushNum(a), PushNum(b), OpSubstr] && PlainNote(Substr(a, b), f) == Len(f) + 2
  {
  }

  lemma OperandCall(m: Macro, f: List<Slot>) returns (n: nat, op: Op)
    requires m.Roll? || m.RollDepth? || m.Num2Bin?
    ensures PlainOps(m, f) == [PushNum(n)] + [op] && PlainNote(m, f) == Len(f) + 1
  {
    match m
    case Roll(s) => n, op := DepthOr0(f, s), OpRoll;
    case RollDepth(d) => n, op := d, OpRoll;
    case Num2Bin(w) => n, op := w, OpNum2Bin;
  }

  lemma Grown(env: Env, m: Macro, l: NS)
    requires DoPlain(env.hash, m, l).Some? && !m.Roll? && !m.RollDepth? && !m.Num2Bin? && !m.Substr?
    ensures PlainNote(m, Names(l)) <= Len(DoPlain(env.hash, m, l).value)
  {
    hide Arithmetic, InRange, Find, Remove, Num2BinBytes, Decode;
  }

  lemma FirstPush(env: Env, n: int, rest: seq<Op>, vm: VM<Val>)
    requires AllTrue(vm.cond) && TRun(env, [PushNum(n)] + rest, vm).Some?
    ensures TRun(env, [PushNum(n)] + rest, vm).value.peak >= Len(vm.stack) + 1 + Len(vm.alt)
  {
    OnePush(env, n, vm);
    Passes(env, [PushNum(n)], rest, vm);
  }

  lemma TwoPushes(env: Env, a: int, b: int, vm: VM<Val>)
    requires AllTrue(vm.cond) && TRun(env, [PushNum(a), PushNum(b), OpSubstr], vm).Some?
    ensures TRun(env, [PushNum(a), PushNum(b), OpSubstr], vm).value.peak >= Len(vm.stack) + 2 + Len(vm.alt)
  {
    hide TRun;
    OnePush(env, a, vm);
    var m1 := TRun(env, [PushNum(a)], vm).value;
    OnePush(env, b, m1);
    TRunAppend(env, [PushNum(a)], [PushNum(b)], vm);
    assert [PushNum(a)] + [PushNum(b)] + [OpSubstr] == [PushNum(a), PushNum(b), OpSubstr];
    Passes(env, [PushNum(a)] + [PushNum(b)], [OpSubstr], vm);
  }

  /** What a refill records is a height slicing reaches. */
  lemma SliceReached(env: Env, c: nat, bytes: Bytes, vm: VM<Val>, rest: List<Val>)
    requires 0 < c && AllTrue(vm.cond) && vm.alt == Cons(Blob(bytes), rest) && TRun(env, SliceOps(c), vm).Some?
    ensures TRun(env, SliceOps(c), vm).value.peak >= Len(vm.stack) + (if c > 1 then 4 else 1)
  {
    hide TRun;
    PopAlt(env, vm);
    var m1 := TRun(env, [OpFromAltStack], vm).value;
    if c == 1 {
      assert [OpFromAltStack] + (SlicePeel(0) + [OpToAltStack]) == SliceOps(1);
      Passes(env, [OpFromAltStack], SlicePeel(0) + [OpToAltStack], vm);
    } else {
      var k := c - 1;
      var tail := [OpSubstr, OpToAltStack, PushNum(0), PushNum(k * ELEM), OpSubstr] + SlicePeel(k - 1) + [OpToAltStack];
      DupRun(env, m1);
      var m2 := TRun(env, [OpDup], m1).value;
      OnePush(env, k * ELEM, m2);
      var m3 := TRun(env, [PushNum(k * ELEM)], m2).value;
      OnePush(env, (k + 1) * ELEM, m3);
      TRunAppend(env, [OpFromAltStack], [OpDup], vm);
      TRunAppend(env, [OpFromAltStack] + [OpDup], [PushNum(k * ELEM)], vm);
      TRunAppend(env, [OpFromAltStack] + [OpDup] + [PushNum(k * ELEM)], [PushNum((k + 1) * ELEM)], vm);
      var head := [OpFromAltStack] + [OpDup] + [PushNum(k * ELEM)] + [PushNum((k + 1) * ELEM)];
      SliceSplit(c);
      Passes(env, head, tail, vm);
    }
  }

  lemma SliceSplit(c: nat)
    requires c > 1
    ensures var k := c - 1;
            SliceOps(c) == [OpFromAltStack] + [OpDup] + [PushNum(k * ELEM)] + [PushNum((k + 1) * ELEM)]
                           + ([OpSubstr, OpToAltStack, PushNum(0), PushNum(k * ELEM), OpSubstr] + SlicePeel(k - 1)
                              + [OpToAltStack])
  {
    hide SlicePeel;
    var k := c - 1;
    PeelSplit(k);
  }

  lemma PeelSplit(k: nat)
    requires k > 0
    ensures SlicePeel(k) == PeelOps(k) + SlicePeel(k - 1)
  {
  }

  lemma DupRun(env: Env, m: VM<Val>)
    requires AllTrue(m.cond) && m.stack.Cons?
    ensures TRun(env, [OpDup], m) == Some(Note(WithStack(m, Cons(m.stack.head, m.stack))))
  {
    RunOne(env, OpDup, m);
  }

  // ---- conditionals that need no more --------------------------------------

  /** A body that records nothing above what two entries more than its frame already cost. */
  ghost predicate Low(body: seq<Macro>)
  {
    forall b: Block :: PlainAll(body, b).Some? && b.peak >= Len(b.f) + 2 ==> PlainAll(body, b).value.peak == b.peak
  }

  /** Every conditional comes right behind an arithmetic call and has such a body. */
  ghost predicate Guarded(ms: seq<Macro>)
  {
    forall i :: 0 <= i < |ms| && ms[i].Gate? ==> i > 0 && ms[i - 1].BinaryNum? && Low(ms[i].body)
  }

  lemma SwapLow()
    ensures Low([Swap])
  {
    assert [Swap][1..] == [];
  }

  /** The machine has already been as high as the record says. */
  ghost predicate Met(env: Env, init: VM<Val>, e: Em)
  {
    TRun(env, e.code, init).Some? && e.peak <= TRun(env, e.code, init).value.peak
  }

  lemma PlainMet(env: Env, blobs: seq<nat>, pushes: seq<Bytes>, init: VM<Val>, m: Macro, e: Em, st: St)
    requires Tracks(env, blobs, pushes, init, e, st) && Met(env, init, e)
    requires !m.Fetch? && !m.Gate? && Do(env.hash, CutElems(blobs, pushes), m, st).St? && EmitOne(blobs, m, e).Some?
    ensures Met(env, init, EmitOne(blobs, m, e).value)
  {
    hide DoPlain, PlainOps, PlainFrame, PlainNote, TRun, QueueAlt, Pending, Largest, Sum, EmitFetch, EmitGate;
    var mid := TRun(env, e.code, init).value;
    NoteReached(env, m, st.stk, mid);
    TRunAppend(env, e.code, PlainOps(m, e.f), init);
    PeakKept(env, PlainOps(m, e.f), mid);
  }

  lemma FetchMet(env: Env, blobs: seq<nat>, pushes: seq<Bytes>, init: VM<Val>, s: Slot, e: Em, st: St)
    requires Tracks(env, blobs, pushes, init, e, st) && Met(env, init, e) && st.el < Sum(blobs)
    requires LongUpTo(blobs, pushes, st.el + 1) && EmitOne(blobs, Fetch(s), e).Some?
    ensures Met(env, init, EmitOne(blobs, Fetch(s), e).value)
  {
    RefillMet(env, blobs, pushes, init, e, st);
    RefillStep(env, blobs, pushes, init, e, st);
    hide TRun, EmitRefill, Sum, Largest, CutElems, LongUpTo, QueueAlt, Pending, Tracks;
    var r := EmitRefill(blobs, e).value;
    var m := TRun(env, r.code, init).value;
    PopAlt(env, m);
    TRunAppend(env, r.code, [OpFromAltStack], init);
  }

  lemma RefillMet(env: Env, blobs: seq<nat>, pushes: seq<Bytes>, init: VM<Val>, e: Em, st: St)
    requires Tracks(env, blobs, pushes, init, e, st) && Met(env, init, e) && st.el < Sum(blobs)
    requires LongUpTo(blobs, pushes, st.el + 1)
    ensures EmitRefill(blobs, e).Some? && Met(env, init, EmitRefill(blobs, e).value)
    ensures AllTrue(init.cond) && Len(EmitRefill(blobs, e).value.f) == Len(st.stk)
  {
    hide TRun, ElemStack, BlobStack, QueueAlt, Pending, SliceOps, CutElems, CutBlob, Sum, Long, Largest;
    if e.pending == 0 {
      var mid := TRun(env, e.code, init).value;
      var b, rest := QueueRefill(blobs, pushes, st.el);
      BlobWithin(blobs, b);
      SliceRun(env, pushes[b], blobs[b], mid, rest);
      TRunAppend(env, e.code, SliceOps(blobs[b]), init);
      SliceReached(env, blobs[b], pushes[b], mid, rest);
      PeakKept(env, SliceOps(blobs[b]), mid);
    }
  }

  lemma GateMet(env: Env, blobs: seq<nat>, pushes: seq<Bytes>, init: VM<Val>, body: seq<Macro>, e: Em, st: St)
    requires Tracks(env, blobs, pushes, init, e, st) && Met(env, init, e)
    requires Do(env.hash, CutElems(blobs, pushes), Gate(body), st).St?
    requires EmitOne(blobs, Gate(body), e).Some? && Low(body) && e.peak >= Len(e.f) + 1
    ensures Met(env, init, EmitOne(blobs, Gate(body), e).value)
  {
    GateStep(env, blobs, pushes, init, body, e, st);
    hide TRun, PlainAll, DoGate, QueueAlt, Pending, Largest, Sum, CutElems;
    GateRecords(body, e);
    var e1 := EmitGate(body, e).value;
    var gate := e1.code[|e.code|..];
    assert e1.code == e.code + gate;
    TRunAppend(env, e.code, gate, init);
    PeakKept(env, gate, TRun(env, e.code, init).value);
  }

  lemma GateRecords(body: seq<Macro>, e: Em)
    requires EmitGate(body, e).Some? && Low(body) && e.peak >= Len(e.f) + 1
    ensures EmitGate(body, e).value.peak == e.peak && e.code <= EmitGate(body, e).value.code
  {
    hide PlainAll;
    DropTwo(e.f);
    var f := Drop(e.f, 1).value;
    var b := Block([], f, e.peak);
    DropOne(e.f);
    assert PlainAll(body, b).Some?;
  }

  lemma DropOne(f: List<Slot>)
    requires Drop(f, 1).Some?
    ensures f.Cons? && Len(f) == Len(Drop(f, 1).value) + 1
  {
    DropTwo(f);
  }

  /**
   * The recorded peak is reached: whatever the branches, the machine has held at least as many items as the generator
   * recorded for the calls so far.
   */
  lemma {:induction false} RecordReached(env: Env, blobs: seq<nat>, pushes: seq<Bytes>, init: VM<Val>, ms: seq<Macro>,
                                         e: Em, st: St)
    requires Tracks(env, blobs, pushes, init, e, st) && Met(env, init, e)
    requires Eval(env.hash, CutElems(blobs, pushes), ms, st).St?
    requires LongUpTo(blobs, pushes, Eval(env.hash, CutElems(blobs, pushes), ms, st).el)
    requires Guarded([Nip] + ms) || (Guarded([BinaryNum(Add)] + ms) && e.peak >= Len(e.f) + 1)
    ensures EmitAll(blobs, ms, e).Some? && Met(env, init, EmitAll(blobs, ms, e).value)
  {
    if |ms| > 0 {
      hide Tracks, EmitOne, Do, CutElems, Met, Guarded;
      var sig := CutElems(blobs, pushes);
      var st' := Do(env.hash, sig, ms[0], st);
      if st'.Stuck? {
        StuckStays(env.hash, sig, ms[1..]);
      }
      ElementsGrow(env.hash, sig, ms[1..], st');
      GateFetchesNothing(env.hash, sig, ms[0], st);
      GuardedNext(ms, Guarded([Nip] + ms));
      if ms[0].Fetch? {
        FetchStep(env, blobs, pushes, init, ms[0].slot, e, st);
        FetchRoom(env, blobs, pushes, init, ms[0].slot, e, st);
        FetchMet(env, blobs, pushes, init, ms[0].slot, e, st);
      } else if ms[0].Gate? {
        GateStep(env, blobs, pushes, init, ms[0].body, e, st);
        GateMet(env, blobs, pushes, init, ms[0].body, e, st);
      } else {
        PlainStep(env, blobs, pushes, init, ms[0], e, st);
        PlainMet(env, blobs, pushes, init, ms[0], e, st);
        if ms[0].BinaryNum? {
          ArithRoom(env, blobs, pushes, init, ms[0].op, e, st);
        }
      }
      RecordReached(env, blobs, pushes, init, ms[1..], EmitOne(blobs, ms[0], e).value, st');
    }
  }

  lemma FetchRoom(env: Env, blobs: seq<nat>, pushes: seq<Bytes>, init: VM<Val>, s: Slot, e: Em, st: St)
    requires Tracks(env, blobs, pushes, init, e, st) && Do(env.hash, CutElems(blobs, pushes), Fetch(s), st).St?
    ensures st.el < Sum(blobs)
  {
    hide TRun, QueueAlt, Pending, Largest;
  }

  /** Behind an arithmetic call the record leaves room for one entry more than the frame. */
  lemma ArithRoom(env: Env, blobs: seq<nat>, pushes: seq<Bytes>, init: VM<Val>, op: ArithOp, e: Em, st: St)
    requires Tracks(env, blobs, pushes, init, e, st) && Do(env.hash, CutElems(blobs, pushes), BinaryNum(op), st).St?
    requires EmitOne(blobs, BinaryNum(op), e).Some?
    ensures var r := EmitOne(blobs, BinaryNum(op), e).value;
            r.peak >= Len(r.f) + 1
  {
    hide TRun, QueueAlt, Pending, Largest, Sum, CutElems;
    TopItems(st.stk);
    DropTwo(e.f);
  }

  /** What the rest of a guarded sequence is behind its first call. */
  lemma GuardedNext(ms: seq<Macro>, plain: bool)
    requires |ms| > 0 && if plain then Guarded([Nip] + ms) else Guarded([BinaryNum(Add)] + ms)
    ensures plain ==> !ms[0].Gate?
    ensures ms[0].Gate? ==> Low(ms[0].body)
    ensures if ms[0].BinaryNum? then Guarded([BinaryNum(Add)] + ms[1..]) else Guarded([Nip] + ms[1..])
  {
    hide Low;
    var first: Macro := if plain then Nip else BinaryNum(Add);
    var all := [first] + ms;
    assert all[1] == ms[0] && all[0] == first;
    var next: seq<Macro> := [if ms[0].BinaryNum? then BinaryNum(Add) else Nip] + ms[1..];
    forall i | 0 <= i < |next| && next[i].Gate?
      ensures i > 0 && next[i - 1].BinaryNum? && Low(next[i].body)
    {
      assert all[i + 1] == next[i] && (i > 1 ==> all[i] == next[i - 1]) && (i == 1 ==> all[1] == ms[0]);
    }
  }

  // ---- the verifier's conditionals -----------------------------------------

  /** No conditional at all. */
  predicate Straightforward(ms: seq<Macro>) { forall m :: m in ms ==> !m.Gate? }

  lemma StraightGuarded(ms: seq<Macro>)
    requires Straightforward(ms)
    ensures Guarded(ms)
  {
    assert forall i :: 0 <= i < |ms| ==> ms[i] in ms;
  }

  lemma GuardedJoin(a: seq<Macro>, b: seq<Macro>)
    requires Guarded(a) && Guarded(b)
    ensures Guarded(a + b)
  {
    hide Low;
    var ms := a + b;
    forall i | 0 <= i < |ms| && ms[i].Gate?
      ensures i > 0 && ms[i - 1].BinaryNum? && Low(ms[i].body)
    {
      if i >= |a| {
        assert b[i - |a|] == ms[i];
        assert b[i - |a| - 1] == ms[i - 1];
      }
    }
  }

  lemma {:induction false} ReverseBytesStraight(k: nat)
    ensures Straightforward(ReverseBytes(k))
  {
    if k > 0 {
      ReverseBytesStraight(k - 1);
    }
  }

  lemma BeBytesStraight(width: nat)
    ensures Straightforward(BeBytes(width))
  {
    if width > 1 {
      ReverseBytesStraight(width - 1);
    }
    hide ReverseBytes;
  }

  lemma StraightJoin(a: seq<Macro>, b: seq<Macro>)
    requires Straightforward(a) && Straightforward(b)
    ensures Straightforward(a + b)
  {
  }

  lemma {:induction false} BeIntStepsStraight(s: Slot, start: nat, len: nat)
    ensures Straightforward(BeIntSteps(s, start, len))
  {
    if len > 0 {
      BeIntStepsStraight(s, start, len - 1);
      BeIntStepStraight(s, start + len - 1);
      hide Straightforward, BeIntStep;
      StraightJoin(BeIntSteps(s, start, len - 1), BeIntStep(s, start + len - 1));
    }
  }

  lemma BeIntStepStraight(s: Slot, i: nat)
    ensures Straightforward(BeIntStep(s, i))
  {
  }

  lemma BeIntStraight(s: Slot, start: nat, len: nat)
    ensures Straightforward(BeInt(s, start, len))
  {
    BeIntStepsStraight(s, start, len);
    hide BeIntSteps;
  }

  lemma {:induction false} ZeroWordsStraight(words: nat)
    ensures Straightforward(ZeroWords(words))
  {
    if words > 0 {
      ZeroWordsStraight(words - 1);
    }
  }

  lemma ContextBaseStraight(p: Params, pk: PublicKey, layer: nat, tree: Slot)
    requires p.d > 0
    ensures Straightforward(ContextBase(p, pk, layer, tree))
  {
    BeBytesStraight(8);
    hide BeBytes, Params.IdxTreeBits;
  }

  lemma HashContextStraight(p: Params, pk: PublicKey, layer: nat, ty: nat, words: nat)
    requires p.d > 0
    ensures Straightforward(HashContext(p, pk, layer, ty, words))
  {
    ContextBaseStraight(p, pk, layer, Tree);
    BeBytesStraight(4);
    ZeroWordsStraight(words);
    hide ContextBase, BeBytes, ZeroWords;
  }

  lemma DigitStraight(p: Params, s: Slot, i: nat)
    requires p.lgw in {1, 2, 4, 8}
    ensures Straightforward(DigitAt(p, s, i))
  {
    hide DigitShift;
  }

  lemma {:induction false} ChecksumStraight(p: Params, n: nat)
    requires p.lgw in {1, 2, 4, 8}
    ensures Straightforward(ChecksumSteps(p, n))
  {
    hide DigitAt, Params.W;
    if n > 0 {
      ChecksumStraight(p, n - 1);
      DigitStraight(p, Node, n - 1);
    }
  }

  lemma PrefixStraight(ctx: Slot, pos: Slot, width: nat, level: nat)
    requires width <= 4
    ensures Straightforward(PathPrefix(ctx, pos, width, level))
  {
    BeBytesStraight(width);
    hide BeBytes, ToBe, Zeros, Pow2;
  }

  /** The swap follows a reduction mod 2. */
  lemma MerkleGuarded(s: Slot, bit: nat)
    ensures Guarded(MerkleStep(s, bit))
  {
    var a := [NameTop(Pfx), Roll(Node), Roll(Auth), Pick(s)] + ShiftDown(bit);
    var b := [Number(2), BinaryNum(Mod), Gate([Swap]), Cat, Cat, Sha256, Substr(0, N), NameTop(Node)];
    SwapLow();
    assert Guarded(b) by {
      hide Low;
    }
    StraightGuarded(a);
    GuardedJoin(a, b);
    hide ShiftDown;
    assert MerkleStep(s, bit) == a + b;
  }

  lemma {:induction false} PathGuarded(ctx: Slot, pos: Slot, bits: Slot, width: nat, n: nat)
    requires width <= 4
    ensures Guarded(PathLevels(ctx, pos, bits, width, n))
  {
    hide Guarded, PathPrefix, MerkleStep, Straightforward;
    if n > 0 {
      PathGuarded(ctx, pos, bits, width, n - 1);
      PrefixStraight(ctx, pos, width, n - 1);
      StraightGuarded(PathPrefix(ctx, pos, width, n - 1));
      MerkleGuarded(bits, n - 1);
      GuardedJoin(PathPrefix(ctx, pos, width, n - 1), MerkleStep(bits, n - 1));
      GuardedJoin(PathLevels(ctx, pos, bits, width, n - 1), PathLevel(ctx, pos, bits, width, n - 1));
    } else {
      StraightGuarded([]);
      assert PathLevels(ctx, pos, bits, width, 0) == [];
      NoneStraight();
    }
  }

  lemma NoneStraight()
    ensures Straightforward([]) && Guarded([])
  {
  }

  /** One hash of a chain: two entries above its frame, as the comparison before it already needed. */
  function StepBody(step: nat): seq<Macro>
  {
    [Pick(Hcwi), Data([step % 256]), Cat, Swap, Cat, Sha256, Substr(0, N), NameTop(X)]
  }

  lemma StepLow(step: nat)
    ensures Low(StepBody(step))
  {
    forall b: Block | PlainAll(StepBody(step), b).Some? && b.peak >= Len(b.f) + 2
      ensures PlainAll(StepBody(step), b).value.peak == b.peak
    {
      StepRecords(step, b);
    }
  }

  /** By how much a call of a chain step changes the frame, and how far above its frame it records. */
  function Rise(m: Macro): int { if m.Pick? || m.Data? then 1 else if m.Cat? then -1 else 0 }

  function Above(m: Macro): int { if m.Pick? || m.Data? then 1 else if m.Substr? then 2 else 0 }

  predicate StepCall(m: Macro) { m.Pick? || m.Data? || m.Cat? || m.Swap? || m.Sha256? || m.Substr? || m.NameTop? }

  /** No call records more than two entries above where the sequence started. */
  predicate WithinTwo(ms: seq<Macro>, h: int)
  {
    |ms| == 0 || (StepCall(ms[0]) && h + Above(ms[0]) <= 2 && WithinTwo(ms[1..], h + Rise(ms[0])))
  }

  lemma {:induction false} DropLength(f: List<Slot>, n: nat)
    requires Drop(f, n).Some?
    ensures Len(f) == Len(Drop(f, n).value) + n
  {
    if n > 0 {
      DropLength(f.tail, n - 1);
    }
  }

  lemma CallRecords(m: Macro, b: Block)
    requires PlainOne(m, b).Some? && StepCall(m)
    ensures var r := PlainOne(m, b).value;
            Len(r.f) == Len(b.f) + Rise(m) && (b.peak >= Len(b.f) + Above(m) ==> r.peak == b.peak)
  {
    hide PlainOps;
    if m.Cat? {
      DropLength(b.f, 2);
    } else if m.Sha256? || m.Substr? || m.NameTop? {
      DropLength(b.f, 1);
    }
  }

  lemma {:induction false} CallsRecord(ms: seq<Macro>, b: Block, base: nat, h: int)
    requires PlainAll(ms, b).Some? && WithinTwo(ms, h) && Len(b.f) == base + h && b.peak >= base + 2
    ensures PlainAll(ms, b).value.peak == b.peak
  {
    if |ms| > 0 {
      CallRecords(ms[0], b);
      hide PlainOne;
      CallsRecord(ms[1..], PlainOne(ms[0], b).value, base, h + Rise(ms[0]));
    }
  }

  lemma StepRecords(step: nat, b: Block)
    requires PlainAll(StepBody(step), b).Some? && b.peak >= Len(b.f) + 2
    ensures PlainAll(StepBody(step), b).value.peak == b.peak
  {
    StepWithin(step);
    hide PlainAll, StepBody, WithinTwo;
    CallsRecord(StepBody(step), b, Len(b.f), 0);
  }

  lemma StepWithin(step: nat)
    ensures WithinTwo(StepBody(step), 0)
  {
    var ms := StepBody(step);
    var tail := [Sha256, Substr(0, N), NameTop(X)];
    assert tail[1..] == [Substr(0, N), NameTop(X)] && tail[1..][1..] == [NameTop(X)] && tail[1..][1..][1..] == [];
    assert WithinTwo([NameTop(X)], 0) by {
      assert [NameTop(X)][1..] == [];
    }
    assert WithinTwo([Substr(0, N), NameTop(X)], 0);
    assert WithinTwo(tail, 0);
    assert ms[1..] == [Data([step % 256]), Cat, Swap, Cat] + tail;
    assert ms[1..][1..] == [Cat, Swap, Cat] + tail && ms[1..][1..][1..] == [Swap, Cat] + tail;
    assert ms[1..][1..][1..][1..] == [Cat] + tail && ms[1..][1..][1..][1..][1..] == tail;
    assert WithinTwo([Cat] + tail, 1);
    assert WithinTwo([Swap, Cat] + tail, 1);
  }

  lemma ChainStepGuarded(step: nat)
    ensures Guarded(ChainStep(step))
  {
    StepLow(step);
    hide Low;
    assert ChainStep(step) == [Over, Number(step), BinaryNum(LessThanOrEqual), Gate(StepBody(step))];
  }

  lemma {:induction false} ChainStepsGuarded(n: nat)
    ensures Guarded(ChainSteps(n))
  {
    hide Guarded, ChainStep;
    NoneStraight();
    if n > 0 {
      ChainStepsGuarded(n - 1);
      ChainStepGuarded(n - 1);
      GuardedJoin(ChainSteps(n - 1), ChainStep(n - 1));
    }
  }

  lemma ChainOpenStraight(p: Params, i: nat)
    requires p.lgw in {1, 2, 4, 8} && i < p.Len()
    ensures Straightforward(ChainOpen(p, i))
  {
    DigitStraight(p, Node, i);
    hide DigitAt, ChecksumShift, Params.Len, Params.Len1, Params.Len2, ToBe, Zeros;
  }

  lemma ChainCloseGuarded()
    ensures Guarded(ChainClose())
  {
    StraightGuarded(ChainClose());
  }

  lemma ChainPhaseGuarded(p: Params, i: nat)
    requires p.lgw in {1, 2, 4, 8} && i < p.Len() && p.W() >= 1
    ensures Guarded(ChainPhase(p, i))
  {
    ChainCloseGuarded();
    hide Guarded, Straightforward, ChainOpen, ChainSteps, ChainClose, Params.Len, Params.W;
    ChainOpenStraight(p, i);
    StraightGuarded(ChainOpen(p, i));
    ChainStepsGuarded(p.W() - 1);
    GuardedJoin(ChainOpen(p, i), ChainSteps(p.W() - 1));
    GuardedJoin(ChainOpen(p, i) + ChainSteps(p.W() - 1), ChainClose());
  }

  lemma {:induction false} ChainPhasesGuarded(p: Params, n: nat)
    requires p.lgw in {1, 2, 4, 8} && n <= p.Len() && p.W() >= 1
    ensures Guarded(ChainPhases(p, n))
  {
    hide Guarded, ChainPhase, Params.Len, Params.W;
    NoneStraight();
    if n > 0 {
      ChainPhasesGuarded(p, n - 1);
      ChainPhaseGuarded(p, n - 1);
      GuardedJoin(ChainPhases(p, n - 1), ChainPhase(p, n - 1));
    }
  }

  lemma WotsGuarded(p: Params)
    requires p.lgw in {1, 2, 4, 8}
    ensures Guarded(WotsPhase(p))
  {
    DigitCounts(p);
    ChecksumStraight(p, p.Len1());
    WotsEndsStraight(p);
    hide Guarded, WotsOpen, WotsClose, ChainPhases, Params.Len, Params.W, Params.Len1;
    StraightGuarded(WotsOpen(p));
    ChainPhasesGuarded(p, p.Len());
    StraightGuarded(WotsClose());
    GuardedJoin(WotsOpen(p), ChainPhases(p, p.Len()));
    GuardedJoin(WotsOpen(p) + ChainPhases(p, p.Len()), WotsClose());
  }

  lemma WotsEndsStraight(p: Params)
    requires p.lgw in {1, 2, 4, 8} && Straightforward(ChecksumSteps(p, p.Len1()))
    ensures Straightforward(WotsOpen(p)) && Straightforward(WotsClose())
  {
    hide ChecksumSteps, Params.Len1;
  }

  lemma LayerStartStraight(p: Params, pk: PublicKey, layer: nat)
    requires p.d > 0
    ensures Straightforward(LayerIndices(p, layer) + LayerContexts(p, pk, layer)) && Straightforward(LayerEnd())
  {
    LayerIndicesStraight(p, layer);
    LayerContextsStraight(p, pk, layer);
    hide LayerIndices, LayerContexts;
  }

  lemma LayerIndicesStraight(p: Params, layer: nat)
    ensures Straightforward(LayerIndices(p, layer))
  {
    hide Pow2;
  }

  lemma LayerContextsStraight(p: Params, pk: PublicKey, layer: nat)
    requires p.d > 0
    ensures Straightforward(LayerContexts(p, pk, layer))
  {
    ContextBaseStraight(p, pk, layer, Ltree);
    KeyBytesStraight();
    DerivedStraight();
    DiscardStraight(Hcb);
    DiscardStraight(Kp4);
    var a, b, c := ContextBase(p, pk, layer, Ltree), [Pick(Lleaf)] + BeBytes(4) + [NameTop(Kp4)], DerivedContexts();
    assert Straightforward([NameTop(Hcb)]);
    hide ContextBase, BeBytes, DerivedContexts, Discard, Straightforward;
    StraightJoin(a, [NameTop(Hcb)]);
    StraightJoin(a + [NameTop(Hcb)], b);
    StraightJoin(a + [NameTop(Hcb)] + b, c);
    StraightJoin(a + [NameTop(Hcb)] + b + c, Discard(Hcb));
    StraightJoin(a + [NameTop(Hcb)] + b + c + Discard(Hcb), Discard(Kp4));
  }

  lemma KeyBytesStraight()
    ensures Straightforward([Pick(Lleaf)] + BeBytes(4) + [NameTop(Kp4)])
  {
    BeBytesStraight(4);
    hide BeBytes;
  }

  lemma DiscardStraight(s: Slot)
    ensures Straightforward(Discard(s))
  {
  }

  lemma DerivedStraight()
    ensures Straightforward(DerivedContexts())
  {
    hide Zeros;
  }

  lemma LayerGuarded(p: Params, pk: PublicKey, layer: nat)
    requires Sized(p)
    ensures Guarded(LayerPhase(p, pk, layer))
  {
    var a, b := LayerIndices(p, layer) + LayerContexts(p, pk, layer), WotsPhase(p);
    var c := PathLevels(Hct, Lleaf, Lleaf, p.XmssIndexWidth(), p.hp);
    LayerStartStraight(p, pk, layer);
    hide Guarded, WotsPhase, PathLevels, LayerIndices, LayerContexts, LayerEnd, Params.XmssIndexWidth, Straightforward;
    StraightGuarded(a);
    WotsGuarded(p);
    PathGuarded(Hct, Lleaf, Lleaf, p.XmssIndexWidth(), p.hp);
    StraightGuarded(LayerEnd());
    GuardedJoin(a, b);
    GuardedJoin(a + b, c);
    GuardedJoin(a + b + c, LayerEnd());
  }

  lemma {:induction false} LayersGuarded(p: Params, pk: PublicKey, n: nat)
    requires Sized(p)
    ensures Guarded(LayerPhases(p, pk, n))
  {
    hide Guarded, LayerPhase, Sized;
    NoneStraight();
    if n > 0 {
      LayersGuarded(p, pk, n - 1);
      LayerGuarded(p, pk, n - 1);
      GuardedJoin(LayerPhases(p, pk, n - 1), LayerPhase(p, pk, n - 1));
    }
  }

  lemma ForsOpenStraight(p: Params, i: nat)
    requires Sized(p)
    ensures Straightforward(ForsOpen(p, i)) && Straightforward(ForsClose())
  {
    BeIntStraight(Digest, p.ForsByte(i), p.ForsFieldBytes(i));
    BeBytesStraight(p.ForsIndexWidth());
    hide BeInt, BeBytes, Zeros, Pow2, Params.ForsByte, Params.ForsFieldBytes, Params.ForsIndexWidth, ForsShift;
  }

  lemma ForsTreeGuarded(p: Params, i: nat)
    requires Sized(p)
    ensures Guarded(ForsTree(p, i))
  {
    ForsOpenStraight(p, i);
    hide Guarded, ForsOpen, ForsClose, PathLevels, Params.ForsIndexWidth, Straightforward;
    var a, b := ForsOpen(p, i), PathLevels(Hcf, Lx, Idx, p.ForsIndexWidth(), p.a);
    StraightGuarded(a);
    PathGuarded(Hcf, Lx, Idx, p.ForsIndexWidth(), p.a);
    StraightGuarded(ForsClose());
    GuardedJoin(a, b);
    GuardedJoin(a + b, ForsClose());
  }

  lemma {:induction false} ForsTreesGuarded(p: Params, n: nat)
    requires Sized(p)
    ensures Guarded(ForsTrees(p, n))
  {
    hide Guarded, ForsTree, Sized;
    NoneStraight();
    if n > 0 {
      ForsTreesGuarded(p, n - 1);
      ForsTreeGuarded(p, n - 1);
      GuardedJoin(ForsTrees(p, n - 1), ForsTree(p, n - 1));
    }
  }

  lemma ForsEndsStraight(p: Params, pk: PublicKey)
    requires p.d > 0
    ensures Straightforward(ForsContexts(p, pk)) && Straightforward(ForsEnd())
  {
    ForsContextsStraight(p, pk);
    ForsEndStraight();
    hide *;
  }

  lemma ForsEndStraight()
    ensures Straightforward(ForsEnd())
  {
  }

  lemma ForsContextsStraight(p: Params, pk: PublicKey)
    requires p.d > 0
    ensures Straightforward(ForsContexts(p, pk))
  {
    HashContextStraight(p, pk, 0, FORS_TREE, 0);
    HashContextStraight(p, pk, 0, FORS_ROOTS, 2);
    var a, b := HashContext(p, pk, 0, FORS_TREE, 0), HashContext(p, pk, 0, FORS_ROOTS, 2);
    assert Straightforward([NameTop(Hcf)]) && Straightforward([NameTop(Racc)]);
    hide HashContext, Straightforward;
    StraightJoin(a, [NameTop(Hcf)]);
    StraightJoin(a + [NameTop(Hcf)], b);
    StraightJoin(a + [NameTop(Hcf)] + b, [NameTop(Racc)]);
  }

  lemma StartStraight(p: Params, pk: PublicKey)
    requires p.d > 0
    ensures Straightforward(HMsgPhase(p, pk) + IndicesPhase(p)) && Straightforward(Discard(Tree) + Discard(Leaf))
  {
    HMsgStraight(p, pk);
    IndicesStraight(p);
    hide HMsgPhase, IndicesPhase;
  }

  lemma HMsgStraight(p: Params, pk: PublicKey)
    ensures Straightforward(HMsgPhase(p, pk))
  {
    hide ToBe;
  }

  lemma IndicesStraight(p: Params)
    requires p.d > 0
    ensures Straightforward(IndicesPhase(p))
  {
    assert Straightforward([Number(0)]) && Straightforward([NameTop(Tree)]) && Straightforward([NameTop(Leaf)]);
    hide DigestIndex, Straightforward, Params.MdLen, Params.IdxTreeLen, Params.IdxLeafLen, Params.IdxTreeBits;
    IndexStraight(p.MdLen(), p.IdxTreeLen(), p.IdxTreeBits());
    IndexStraight(p.MdLen() + p.IdxTreeLen(), p.IdxLeafLen(), p.hp);
    var a := if p.IdxTreeBits() == 0 then [Number(0)] else DigestIndex(p.MdLen(), p.IdxTreeLen(), p.IdxTreeBits());
    var b := DigestIndex(p.MdLen() + p.IdxTreeLen(), p.IdxLeafLen(), p.hp);
    StraightJoin(a, [NameTop(Tree)]);
    StraightJoin(a + [NameTop(Tree)], b);
    StraightJoin(a + [NameTop(Tree)] + b, [NameTop(Leaf)]);
  }

  lemma IndexStraight(start: nat, len: nat, bits: nat)
    ensures Straightforward(DigestIndex(start, len, bits))
  {
    BeIntStraight(Digest, start, len);
    hide BeInt, Pow2;
  }

  lemma ForsGuarded(p: Params, pk: PublicKey)
    requires Sized(p)
    ensures Guarded(ForsPhase(p, pk))
  {
    ForsEndsStraight(p, pk);
    hide Guarded, Straightforward, ForsContexts, ForsTrees, ForsEnd;
    StraightGuarded(ForsContexts(p, pk));
    ForsTreesGuarded(p, p.k);
    StraightGuarded(ForsEnd());
    GuardedJoin(ForsContexts(p, pk), ForsTrees(p, p.k));
    GuardedJoin(ForsContexts(p, pk) + ForsTrees(p, p.k), ForsEnd());
  }

  /** Every conditional of the verifier is guarded. */
  lemma BodyGuarded(p: Params, pk: PublicKey)
    requires Sized(p)
    ensures Guarded(BodyPhases(p, pk))
  {
    SizedFacts(p);
    var a, f, b := HMsgPhase(p, pk) + IndicesPhase(p), ForsPhase(p, pk), LayerPhases(p, pk, p.d);
    var c := Discard(Tree) + Discard(Leaf);
    hide *;
    StartStraight(p, pk);
    ForsGuarded(p, pk);
    LayersGuarded(p, pk, p.d);
    StraightGuarded(a);
    StraightGuarded(c);
    GuardedJoin(a, f);
    GuardedJoin(a + f, b);
    GuardedJoin(a + f + b, c);
    BodyShape(p, pk);
  }

  lemma BodyShape(p: Params, pk: PublicKey)
    requires Sized(p)
    ensures BodyPhases(p, pk)
            == HMsgPhase(p, pk) + IndicesPhase(p) + ForsPhase(p, pk) + LayerPhases(p, pk, p.d) + (Discard(Tree) + Discard(Leaf))
  {
    SizedFacts(p);
    hide HMsgPhase, IndicesPhase, ForsPhase, LayerPhases, Discard, Sized;
    LastTwo(HMsgPhase(p, pk) + IndicesPhase(p) + ForsPhase(p, pk) + LayerPhases(p, pk, p.d), Discard(Tree), Discard(Leaf));
  }

  lemma LastTwo(a: seq<Macro>, b: seq<Macro>, c: seq<Macro>)
    ensures a + b + c == a + (b + c)
  {
  }

  // ---- the bracket ---------------------------------------------------------

  /** The checked body, run from a queue, is as high as it recorded at least once. */
  lemma CheckedReached(env: Env, blobs: seq<nat>, pushes: seq<Bytes>, body: seq<Macro>, root: Bytes, want: Bytes, msg: Bytes,
                       m: VM<Val>)
    requires Queued(blobs, pushes, msg, m) && LongUpTo(blobs, pushes, Sum(blobs)) && Guarded(body)
    requires Eval(env.hash, CutElems(blobs, pushes), body, FromMessage(msg)) == NodeOnly(root, Sum(blobs))
    requires EmitChecked(blobs, body, Sum(blobs), want, Begin([])).Some?
    ensures Met(env, m, EmitChecked(blobs, body, Sum(blobs), want, Begin([])).value)
  {
    var e0, close := Begin([]), [Data(want), Equal];
    hide *;
    QueuedParts(blobs, pushes, msg, m);
    Shapes(msg, root, Sum(blobs));
    StartTracks(env, blobs, pushes, msg, m);
    StartMet(env, m);
    Behind(body);
    EmitFollowsEval(env, blobs, pushes, m, body, e0, FromMessage(msg));
    RecordReached(env, blobs, pushes, m, body, e0, FromMessage(msg));
    var e1 := EmitAll(blobs, body, e0).value;
    CompareOk(env.hash, CutElems(blobs, pushes), root, want, Sum(blobs));
    CloseGuarded(want);
    Behind(close);
    RecordReached(env, blobs, pushes, m, close, e1, NodeOnly(root, Sum(blobs)));
    CheckedIs(blobs, body, want, e0);
  }

  lemma CheckedIs(blobs: seq<nat>, body: seq<Macro>, want: Bytes, e: Em)
    requires EmitChecked(blobs, body, Sum(blobs), want, e).Some?
    ensures EmitAll(blobs, body, e).Some?
    ensures EmitChecked(blobs, body, Sum(blobs), want, e) == EmitAll(blobs, [Data(want), Equal], EmitAll(blobs, body, e).value)
  {
    hide EmitAll, Sum;
  }

  lemma StartMet(env: Env, m: VM<Val>)
    ensures Met(env, m, Begin([]))
  {
  }

  lemma CloseGuarded(want: Bytes)
    ensures Guarded([Data(want), Equal])
  {
  }

  lemma Behind(ms: seq<Macro>)
    requires Guarded(ms)
    ensures Guarded([Nip] + ms)
  {
    hide Low;
    GuardedJoin([Nip], ms);
  }

  lemma FrameReached(env: Env, code: seq<Op>, peak: nat, m: VM<Val>)
    requires TRun(env, code, m).Some? && peak <= TRun(env, code, m).value.peak
    ensures Run(env, code, Rep(m)).Some? && peak <= Run(env, code, Rep(m)).value.peak
  {
    RunRep(env, code, m);
    hide TRun, Run;
  }

  lemma MetRuns(env: Env, m: VM<Val>, e: Em)
    requires Met(env, m, e)
    ensures Run(env, e.code, Rep(m)).Some? && e.peak <= Run(env, e.code, Rep(m)).value.peak
  {
    FrameReached(env, e.code, e.peak, m);
  }

  /**
   * Both sides: on any pushes the script does not stop on, the run holds at least the recorded frame and at most
   * `peak_stack_estimate` items at once.
   */
  lemma PeakBracket(env: Env, p: Params, pk: PublicKey, blobs: seq<nat>, pushes: seq<Bytes>, msg: Bytes)
    requires p.WellFormed() && Planned(p, blobs) && |pushes| == |blobs| && AllLong(blobs, pushes)
    ensures Sized(p) && EmitVerify(p, pk, blobs).Some?
    ensures var e := EmitVerify(p, pk, blobs).value;
            var r := Run(env, e.code, Pushed(pushes, Cons(msg, Nil)));
            r.Some? && e.peak <= r.value.peak <= PeakStackEstimate(blobs, e.peak)
  {
    hide *;
    WellFormedSized(p);
    VerifyAnyPushes(env, p, pk, blobs, pushes, msg);
    JudgedPeak(env, p, pk, blobs, pushes, msg, EmitVerify(p, pk, blobs), Pushed(pushes, Cons(msg, Nil)));
    PlannedFacts(p, blobs, pushes);
    var root := CandidateRoot(env.hash, p, pk, Given(p, blobs, pushes), msg);
    var m := VM(Cons(Blob(msg), Nil), BlobStack(pushes), Nil, |blobs| + 1);
    ReadyRep(blobs, pushes, msg, |blobs| + 1);
    BodyMeans(env, p, pk, blobs, pushes, msg);
    GenerationSucceeds(env, p, pk, blobs, Prologue(|blobs|));
    BodyGuarded(p, pk);
    LongAll(blobs, pushes);
    CheckedReached(env, blobs, pushes, BodyPhases(p, pk), root, pk.root, msg, m);
    EmitVerifyIs(p, pk, blobs);
    PrologueReady(env, pushes, msg);
    var e := EmitBody(p, pk, blobs, Begin([])).value;
    MetRuns(env, m, e);
    RunSeq(env, Prologue(|blobs|), e.code, Pushed(pushes, Cons(msg, Nil)));
    SamePeak(Prologue(|blobs|), e);
  }

  lemma SamePeak(pre: seq<Op>, e: Em)
    ensures Prefixed(pre, e).peak == e.peak
  {
  }

  lemma JudgedPeak(env: Env, p: Params, pk: PublicKey, blobs: seq<nat>, pushes: seq<Bytes>, msg: Bytes, e: Option<Em>,
                   m0: VM<Bytes>)
    requires p.WellFormed() && Planned(p, blobs) && |pushes| == |blobs| && AllLong(blobs, pushes)
    requires Judges(env, p, pk, blobs, pushes, msg, e, m0)
    ensures e.Some? && Run(env, e.value.code, m0).Some?
    ensures Run(env, e.value.code, m0).value.peak <= PeakStackEstimate(blobs, e.value.peak)
  {
    hide Run, Verifies, Given, AllLong, Planned, Params.WellFormed;
  }
}
