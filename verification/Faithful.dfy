/** Fetches, gates and whole call sequences: generation and execution stay in step. */
module Faithful {
  import opened Arith
  import opened Bytes
  import opened Lists
  import opened Numbers
  import opened Machine
  import opened Frames
  import opened Emission
  import opened Simulation
  import opened Witness

  // ---- slicing a blob ------------------------------------------------------

  /** `OpDup`, then a byte range of the copy. */
  lemma DupSubstr(env: Env, x: Bytes, from: nat, to: nat, vm: VM<Val>, stk: List<Val>)
    requires from <= to <= |x| && InRange(to)
    requires AllTrue(vm.cond) && Size(vm) <= vm.peak && vm.stack == Cons(Blob(x), stk)
    ensures Simulates(env, [OpDup] + [PushNum(from), PushNum(to), OpSubstr], vm,
                      Cons(Blob(x[from..to]), vm.stack), Len(stk) + 4)
  {
    RunOne(env, OpDup, vm);
    var m1 := TRun(env, [OpDup], vm).value;
    SubstrRun(env, from, to, x, m1);
    hide TRun;
    TRunAppend(env, [OpDup], [PushNum(from), PushNum(to), OpSubstr], vm);
  }

  /** Stash the top, then keep a prefix of what is left. */
  lemma StashSubstr(env: Env, y: Val, x: Bytes, to: nat, vm: VM<Val>, stk: List<Val>)
    requires to <= |x| && InRange(to)
    requires AllTrue(vm.cond) && Size(vm) <= vm.peak && vm.stack == Cons(y, Cons(Blob(x), stk))
    ensures var code := [OpToAltStack] + [PushNum(0), PushNum(to), OpSubstr];
            && TRun(env, code, vm).Some?
            && var r := TRun(env, code, vm).value;
            && r == VM(Cons(Blob(x[..to]), stk), Cons(y, vm.alt), vm.cond, r.peak)
            && Size(r) <= r.peak <= Max(vm.peak, Len(stk) + 4 + Len(vm.alt))
  {
    RunOne(env, OpToAltStack, vm);
    var m1 := TRun(env, [OpToAltStack], vm).value;
    assert x[0..to] == x[..to];
    SubstrRun(env, 0, to, x, m1);
    hide TRun;
    TRunAppend(env, [OpToAltStack], [PushNum(0), PushNum(to), OpSubstr], vm);
  }

  /** The instructions that peel element k off the blob on top. */
  function PeelOps(k: nat): seq<Op>
  {
    [OpDup, PushNum(k * ELEM), PushNum((k + 1) * ELEM), OpSubstr, OpToAltStack, PushNum(0), PushNum(k * ELEM), OpSubstr]
  }

  lemma PeelOne(env: Env, bytes: Bytes, x: Bytes, c: nat, k: nat, vm: VM<Val>, stk: List<Val>, rest: List<Val>)
    requires 0 < k < c && Long(c, bytes) && InRange(ELEM * c) && ELEM * (k + 1) <= |x| && x <= bytes
    requires AllTrue(vm.cond) && Size(vm) <= vm.peak
    requires vm.stack == Cons(Blob(x), stk) && vm.alt == ElemStack(CutBlob(c, bytes), k + 1, c, rest)
    ensures && TRun(env, PeelOps(k), vm).Some?
            && var r := TRun(env, PeelOps(k), vm).value;
            && r == VM(Cons(Blob(bytes[..ELEM * k]), stk), ElemStack(CutBlob(c, bytes), k, c, rest), vm.cond, r.peak)
            && Size(r) <= r.peak <= Max(vm.peak, Len(stk) + 3 + c + Len(rest))
  {
    hide TRun;
    var c1 := [OpDup] + [PushNum(k * ELEM), PushNum((k + 1) * ELEM), OpSubstr];
    var c2 := [OpToAltStack] + [PushNum(0), PushNum(k * ELEM), OpSubstr];
    assert x[k * ELEM..(k + 1) * ELEM] == Chunk(bytes, k) && x[..k * ELEM] == bytes[..ELEM * k];
    assert CutBlob(c, bytes)[k] == Chunk(bytes, k);
    DupSubstr(env, x, k * ELEM, (k + 1) * ELEM, vm, stk);
    var m1 := TRun(env, c1, vm).value;
    StashSubstr(env, Blob(Chunk(bytes, k)), x, k * ELEM, m1, stk);
    TRunAppend(env, c1, c2, vm);
    assert c1 + c2 == PeelOps(k);
  }

  lemma {:induction false} PeelAll(env: Env, bytes: Bytes, x: Bytes, c: nat, k: nat, vm: VM<Val>, stk: List<Val>,
                                   rest: List<Val>)
    requires k < c && Long(c, bytes) && InRange(ELEM * c) && (c > 1 ==> ELEM * (k + 1) <= |x|) && x <= bytes
    requires AllTrue(vm.cond) && Size(vm) <= vm.peak
    requires vm.stack == Cons(Blob(x), stk) && vm.alt == ElemStack(CutBlob(c, bytes), k + 1, c, rest)
    ensures && TRun(env, SlicePeel(k), vm).Some?
            && var r := TRun(env, SlicePeel(k), vm).value;
            && r == VM(Cons(Blob(if k > 0 then bytes[..ELEM] else x), stk), ElemStack(CutBlob(c, bytes), 1, c, rest), vm.cond,
                       r.peak)
            && Size(r) <= r.peak <= Max(vm.peak, Len(stk) + 3 + c + Len(rest))
    decreases k
  {
    hide TRun;
    if k > 0 {
      PeelOne(env, bytes, x, c, k, vm, stk, rest);
      var m1 := TRun(env, PeelOps(k), vm).value;
      PeelAll(env, bytes, bytes[..ELEM * k], c, k - 1, m1, stk, rest);
      TRunAppend(env, PeelOps(k), SlicePeel(k - 1), vm);
      assert bytes[..ELEM * 1] == bytes[..ELEM];
    } else {
      TRunEmpty(env, vm);
    }
  }

  lemma TRunEmpty(env: Env, vm: VM<Val>)
    ensures TRun(env, [], vm) == Some(vm)
  {
  }

  /** Slicing replaces the push on top of the alt stack by its elements in order; bytes past the last one are dropped. */
  lemma SliceRun(env: Env, bytes: Bytes, c: nat, vm: VM<Val>, rest: List<Val>)
    requires 0 < c && Long(c, bytes) && InRange(ELEM * c)
    requires AllTrue(vm.cond) && Size(vm) <= vm.peak
    requires vm.alt == Cons(Blob(bytes), rest)
    ensures && TRun(env, SliceOps(c), vm).Some?
            && var r := TRun(env, SliceOps(c), vm).value;
            && r == vm.(alt := ElemStack(CutBlob(c, bytes), 0, c, rest), peak := r.peak)
            && Size(r) <= r.peak <= Max(vm.peak, Len(vm.stack) + (if c > 1 then 3 else 0) + c + Len(rest))
  {
    hide TRun, TExec;
    PopAlt(env, vm);
    var m1 := TRun(env, [OpFromAltStack], vm).value;
    assert ElemStack(CutBlob(c, bytes), c, c, rest) == rest;
    PeelAll(env, bytes, bytes, c, c - 1, m1, vm.stack, rest);
    var m2 := TRun(env, SlicePeel(c - 1), m1).value;
    if c == 1 {
      assert SlicePeel(0) == [];
      TRunEmpty(env, m1);
    } else {
      assert Chunk(bytes, 0) == bytes[..ELEM];
    }
    assert CutBlob(c, bytes)[0] == if c > 1 then bytes[..ELEM] else bytes;
    PushAlt(env, m2);
    TRunAppend(env, [OpFromAltStack], SlicePeel(c - 1), vm);
    TRunAppend(env, [OpFromAltStack] + SlicePeel(c - 1), [OpToAltStack], vm);
  }

  lemma PushAlt(env: Env, m: VM<Val>)
    requires AllTrue(m.cond) && m.stack.Cons?
    ensures TRun(env, [OpToAltStack], m) == Some(Note(VM(m.stack.tail, Cons(m.stack.head, m.alt), m.cond, m.peak)))
  {
    RunOne(env, OpToAltStack, m);
  }

  // ---- the simulation relation ---------------------------------------------

  function AltMax(blobs: seq<nat>): int { |blobs| - 1 + Largest(blobs) }

  /** One push of any length a blob, and offsets the engine's numbers reach. */
  predicate PlanFor(blobs: seq<nat>, pushes: seq<Bytes>)
  {
    |blobs| > 0 && Positive(blobs) && |pushes| == |blobs| && InRange(ELEM * Sum(blobs))
  }

  /** Generator state and meaning agree with the machine reached by running the code so far. */
  ghost predicate Tracks(env: Env, blobs: seq<nat>, pushes: seq<Bytes>, init: VM<Val>, e: Em, st: St)
  {
    && st.St? && st.el <= Sum(blobs) && PlanFor(blobs, pushes) && AllTrue(init.cond)
    && e.f == Names(st.stk) && e.next == st.el && e.pending == Pending(blobs, st.el)
    && Len(e.f) <= Max(e.peak, 1)
    && TRun(env, e.code, init).Some?
    && var r := TRun(env, e.code, init).value;
    && r == VM(Vals(st.stk), QueueAlt(blobs, pushes, st.el), init.cond, r.peak)
    && Size(r) <= r.peak <= Max(init.peak, Max(e.peak, 1) + AltMax(blobs))
  }

  lemma PlainStep(env: Env, blobs: seq<nat>, pushes: seq<Bytes>, init: VM<Val>, m: Macro, e: Em, st: St)
    requires Tracks(env, blobs, pushes, init, e, st)
    requires !m.Fetch? && !m.Gate? && Do(env.hash, CutElems(blobs, pushes), m, st).St?
    ensures EmitOne(blobs, m, e).Some?
    ensures Tracks(env, blobs, pushes, init, EmitOne(blobs, m, e).value, Do(env.hash, CutElems(blobs, pushes), m, st))
    ensures EmitOne(blobs, m, e).value.peak >= e.peak
  {
    hide DoPlain, PlainOps, PlainFrame, PlainNote, TRun, QueueAlt, Pending, Largest, Sum, EmitFetch, EmitGate;
    var mid := TRun(env, e.code, init).value;
    PlainOk(env, m, st.stk, mid);
    HeightBound(env, m, st.stk);
    QueueBound(blobs, pushes, st.el);
    TRunAppend(env, e.code, PlainOps(m, e.f), init);
  }

  /** After a refill, if one was due, the next element is on top of the alt stack. */
  lemma RefillStep(env: Env, blobs: seq<nat>, pushes: seq<Bytes>, init: VM<Val>, e: Em, st: St)
    requires Tracks(env, blobs, pushes, init, e, st) && st.el < Sum(blobs) && LongUpTo(blobs, pushes, st.el + 1)
    ensures EmitRefill(blobs, e).Some?
    ensures var r := EmitRefill(blobs, e).value;
            && r.f == e.f && r.next == e.next && r.pending == Pending(blobs, st.el + 1) + 1 && r.peak >= e.peak
            && TRun(env, r.code, init).Some?
            && var m := TRun(env, r.code, init).value;
            && m == VM(Vals(st.stk), Cons(Blob(CutElems(blobs, pushes)[st.el]), QueueAlt(blobs, pushes, st.el + 1)), init.cond,
                       m.peak)
            && Size(m) <= m.peak <= Max(init.peak, Max(r.peak, 1) + AltMax(blobs))
  {
    hide TRun, ElemStack, BlobStack, QueueAlt, Pending, SliceOps, CutElems, CutBlob, Sum, Long, Largest;
    if e.pending == 0 {
      var mid := TRun(env, e.code, init).value;
      var b, rest := QueueRefill(blobs, pushes, st.el);
      var c := blobs[b];
      BlobWithin(blobs, b);
      SliceRun(env, pushes[b], c, mid, rest);
      TRunAppend(env, e.code, SliceOps(c), init);
    } else {
      QueuePending(blobs, pushes, st.el);
    }
  }

  lemma FetchStep(env: Env, blobs: seq<nat>, pushes: seq<Bytes>, init: VM<Val>, s: Slot, e: Em, st: St)
    requires Tracks(env, blobs, pushes, init, e, st) && st.el < Sum(blobs) && LongUpTo(blobs, pushes, st.el + 1)
    ensures EmitOne(blobs, Fetch(s), e).Some?
    ensures Tracks(env, blobs, pushes, init, EmitOne(blobs, Fetch(s), e).value,
                   Do(env.hash, CutElems(blobs, pushes), Fetch(s), st))
    ensures EmitOne(blobs, Fetch(s), e).value.peak >= e.peak
  {
    hide TRun, TExec, ElemStack, BlobStack, QueueAlt, Pending, SliceOps, EmitRefill, DoPlain, Sum, Largest, CutElems, LongUpTo;
    RefillStep(env, blobs, pushes, init, e, st);
    var r := EmitRefill(blobs, e).value;
    var m1 := TRun(env, r.code, init).value;
    QueueBound(blobs, pushes, st.el + 1);
    PopAlt(env, m1);
    TRunAppend(env, r.code, [OpFromAltStack], init);
  }

  lemma PopAlt(env: Env, m: VM<Val>)
    requires AllTrue(m.cond) && m.alt.Cons?
    ensures TRun(env, [OpFromAltStack], m) == Some(Note(VM(Cons(m.alt.head, m.stack), m.alt.tail, m.cond, m.peak)))
  {
    RunOne(env, OpFromAltStack, m);
  }

  lemma {:induction false} BlobWithin(blobs: seq<nat>, b: nat)
    requires b < |blobs|
    ensures blobs[b] <= Sum(blobs) && blobs[b] <= Largest(blobs)
  {
    if b > 0 {
      BlobWithin(blobs[1..], b - 1);
    }
  }

  lemma {:induction false} PlainAllPeak(ms: seq<Macro>, b: Block, peak: nat)
    requires PlainAll(ms, b).Some?
    ensures var r := PlainAll(ms, b.(peak := peak));
            r.Some? && r.value.code == PlainAll(ms, b).value.code && r.value.f == PlainAll(ms, b).value.f
    ensures Straight(b.code) ==> Straight(PlainAll(ms, b).value.code)
    ensures PlainAll(ms, b).value.peak >= b.peak
  {
    hide PlainOps, PlainFrame, PlainNote;
    if |ms| > 0 {
      PlainOpsStraight(ms[0], b.f);
      var b' := PlainOne(ms[0], b).value;
      PlainAllPeak(ms[1..], b', Max(peak, PlainNote(ms[0], b.f)));
    }
  }

  lemma GateStep(env: Env, blobs: seq<nat>, pushes: seq<Bytes>, init: VM<Val>, body: seq<Macro>, e: Em, st: St)
    requires Tracks(env, blobs, pushes, init, e, st)
    requires Do(env.hash, CutElems(blobs, pushes), Gate(body), st).St?
    ensures EmitOne(blobs, Gate(body), e).Some?
    ensures Tracks(env, blobs, pushes, init, EmitOne(blobs, Gate(body), e).value,
                   Do(env.hash, CutElems(blobs, pushes), Gate(body), st))
    ensures EmitOne(blobs, Gate(body), e).value.peak >= e.peak
  {
    hide TRun, PlainAll, DoPlainAll, QueueAlt;
    var mid := TRun(env, e.code, init).value;
    var t := st.stk.tail;
    var n := st.stk.head.val.num;
    TopItems(st.stk);
    DropTwo(e.f);
    PlainAllPeak(body, Block([], Names(t), 0), e.peak);
    PlainAllPeak(body, Block([], Names(t), e.peak), e.peak);
    var b := PlainAll(body, Block([], Names(t), e.peak)).value;
    var inner := WithStack(mid, mid.stack.tail);
    QueueBound(blobs, pushes, st.el);
    if n == 1 {
      TRunEmpty(env, inner);
      BlockOk(env, body, t, Block([], Names(t), e.peak), inner);
    } else {
      ZipParts(b.f, Vals(t));
    }
    TGate(env, b.code, mid);
    TRunAppend(env, e.code, [OpIf] + b.code + [OpEndIf], init);
  }

  /** Calls only ever fetch more. */
  lemma {:induction false} ElementsGrow(hash: Hash, sig: seq<Bytes>, ms: seq<Macro>, st: St)
    requires Eval(hash, sig, ms, st).St?
    ensures st.St? && st.el <= Eval(hash, sig, ms, st).el
  {
    hide DoPlain, DoGate, PlainAll;
    if |ms| > 0 {
      ElementsGrow(hash, sig, ms[1..], Do(hash, sig, ms[0], st));
      GateFetchesNothing(hash, sig, ms[0], st);
    }
  }

  lemma GateFetchesNothing(hash: Hash, sig: seq<Bytes>, m: Macro, st: St)
    requires Do(hash, sig, m, st).St?
    ensures st.St? && Do(hash, sig, m, st).el == st.el + (if m.Fetch? then 1 else 0)
    ensures m.Fetch? ==> st.el < |sig|
  {
    hide DoPlain, PlainAll, DoPlainAll;
  }

  /**
   * The shadow stack is right, whichever way every branch goes: if the calls have a meaning on the elements the pushes
   * are cut into, generation succeeds and the generated code, run on the engine, arrives at that meaning with the frame
   * naming the run-time stack. No push that is used may be too short for its blob.
   */
  lemma {:induction false} EmitFollowsEval(env: Env, blobs: seq<nat>, pushes: seq<Bytes>, init: VM<Val>, ms: seq<Macro>,
                                           e: Em, st: St)
    requires Tracks(env, blobs, pushes, init, e, st)
    requires Eval(env.hash, CutElems(blobs, pushes), ms, st).St?
    requires LongUpTo(blobs, pushes, Eval(env.hash, CutElems(blobs, pushes), ms, st).el)
    ensures EmitAll(blobs, ms, e).Some? && EmitAll(blobs, ms, e).value.peak >= e.peak
    ensures Tracks(env, blobs, pushes, init, EmitAll(blobs, ms, e).value, Eval(env.hash, CutElems(blobs, pushes), ms, st))
  {
    if |ms| > 0 {
      hide Tracks, EmitOne, Do, CutElems;
      var sig := CutElems(blobs, pushes);
      var st' := Do(env.hash, sig, ms[0], st);
      if st'.Stuck? {
        StuckStays(env.hash, sig, ms[1..]);
      }
      ElementsGrow(env.hash, sig, ms[1..], st');
      GateFetchesNothing(env.hash, sig, ms[0], st);
      if ms[0].Fetch? {
        FetchStep(env, blobs, pushes, init, ms[0].slot, e, st);
      } else if ms[0].Gate? {
        GateStep(env, blobs, pushes, init, ms[0].body, e, st);
      } else {
        PlainStep(env, blobs, pushes, init, ms[0], e, st);
      }
      EmitFollowsEval(env, blobs, pushes, init, ms[1..], EmitOne(blobs, ms[0], e).value, st');
    }
  }

  lemma {:induction false} StuckStays(hash: Hash, sig: seq<Bytes>, ms: seq<Macro>)
    ensures Eval(hash, sig, ms, Stuck) == Stuck
  {
    if |ms| > 0 {
      StuckStays(hash, sig, ms[1..]);
    }
  }
}
