/**
 * The emitter is faithful: whenever `Eval` says what a sequence of primitives computes, generation succeeds, the frame
 * names exactly the run-time stack, the code run on the engine computes the same values, the alt stack is the queue of
 * signature elements still to come, and the engine's peak stack is covered by the recorded frame peak.
 */
module Simulation {
  import opened Arith
  import opened Bytes
  import opened Lists
  import opened Numbers
  import opened Machine
  import opened Frames
  import opened Emission

  // ---- naming --------------------------------------------------------------

  lemma {:induction false} FindDepth(l: NS, s: Slot)
    requires Find(l, s).Some?
    ensures Depth(Names(l), s).Some?
    ensures var d := Depth(Names(l), s).value;
            && d < Len(l)
            && Nth(Vals(l), d) == Find(l, s).value && Nth(Names(l), d) == s
            && Without(Vals(l), d) == Vals(Remove(l, s)) && Without(Names(l), d) == Names(Remove(l, s))
  {
    if l.head.name != s {
      FindDepth(l.tail, s);
    }
  }

  lemma {:induction false} NthItems(l: NS, d: nat)
    requires d < Len(l)
    ensures Nth(Vals(l), d) == Nth(l, d).val && Nth(Names(l), d) == Nth(l, d).name
    ensures Without(Vals(l), d) == Vals(Without(l, d)) && Without(Names(l), d) == Names(Without(l, d))
  {
    if d > 0 {
      NthItems(l.tail, d - 1);
    }
  }

  lemma {:induction false} ZipParts(f: List<Slot>, v: List<Val>)
    requires Len(f) == Len(v)
    ensures Names(Zip(f, v)) == f && Vals(Zip(f, v)) == v
  {
    if f.Cons? {
      ZipParts(f.tail, v.tail);
    }
  }

  lemma TopItems(l: NS)
    ensures l.Cons? ==> Names(l) == Cons(l.head.name, Names(l.tail)) && Vals(l) == Cons(l.head.val, Vals(l.tail))
    ensures l.Cons? && l.tail.Cons? ==>
              && Names(l.tail) == Cons(l.tail.head.name, Names(l.tail.tail))
              && Vals(l.tail) == Cons(l.tail.head.val, Vals(l.tail.tail))
  {
  }

  lemma DropTwo(f: List<Slot>)
    ensures Drop(f, 0) == Some(f)
    ensures f.Cons? ==> Drop(f, 1) == Some(f.tail)
    ensures f.Cons? && f.tail.Cons? ==> Drop(f, 2) == Some(f.tail.tail)
  {
  }

  lemma Num2BinWidth(n: int, w: int)
    ensures Num2BinBytes(n, w).Some? ==> 1 <= w <= 8
  {
  }

  /** Naming the frame follows the named stack. */
  lemma PlainFrameOk(hash: Hash, m: Macro, l: NS)
    requires DoPlain(hash, m, l).Some?
    ensures PlainFrame(m, Names(l)) == Some(Names(DoPlain(hash, m, l).value))
  {
    if m.Pick? || m.Roll? || m.RollDepth? {
      MoveFrameOk(hash, m, l);
    } else {
      TopFrameOk(hash, m, l);
    }
  }

  lemma MoveFrameOk(hash: Hash, m: Macro, l: NS)
    requires DoPlain(hash, m, l).Some? && (m.Pick? || m.Roll? || m.RollDepth?)
    ensures PlainFrame(m, Names(l)) == Some(Names(DoPlain(hash, m, l).value))
  {
    var r := DoPlain(hash, m, l).value;
    TopItems(l);
    TopItems(r);
    match m
    case Pick(s) => FindDepth(l, s);
    case Roll(s) => FindDepth(l, s);
    case RollDepth(d) => NthItems(l, d);
    case _ =>
  }

  lemma TopFrameOk(hash: Hash, m: Macro, l: NS)
    requires DoPlain(hash, m, l).Some? && !m.Pick? && !m.Roll? && !m.RollDepth?
    ensures PlainFrame(m, Names(l)) == Some(Names(DoPlain(hash, m, l).value))
  {
    hide Num2BinBytes, Arithmetic, Decode, InRange, Find, Remove, Nth, Without;
    var r := DoPlain(hash, m, l).value;
    TopItems(l);
    TopItems(r);
    DropTwo(Names(l));
    match m
    case Num2Bin(w) => Num2BinWidth(l.head.val.num, w);
    case _ =>
  }

  // ---- running a primitive -------------------------------------------------

  /** The machine after one more recorded instruction. */
  function After(m: VM<Val>, stk: List<Val>): VM<Val>
  {
    Note(WithStack(m, stk))
  }

  lemma RunOne(env: Env, op: Op, m: VM<Val>)
    requires AllTrue(m.cond) && TExec(env, op, m).Some?
    ensures TRun(env, [op], m) == Some(Note(TExec(env, op, m).value))
  {
    hide TExec;
    assert [op][1..] == [];
  }

  predicate OneOp(m: Macro)
  {
    m.Data? || m.Number? || m in {Cat, Sha256, Swap, Dup, Over, DropTop, Nip, Bin2Num, Equal} || m.BinaryNum?
  }

  lemma OneOpTyped(env: Env, m: Macro, l: NS, vm: VM<Val>)
    requires OneOp(m) && DoPlain(env.hash, m, l).Some? && vm.stack == Vals(l)
    ensures |PlainOps(m, Names(l))| == 1
    ensures TExec(env, PlainOps(m, Names(l))[0], vm) == Some(WithStack(vm, Vals(DoPlain(env.hash, m, l).value)))
  {
    if m in {Swap, Dup, Over, DropTop, Nip} {
      ShuffleTyped(env, m, l, vm);
    } else {
      ComputeTyped(env, m, l, vm);
    }
  }

  lemma ShuffleTyped(env: Env, m: Macro, l: NS, vm: VM<Val>)
    requires m in {Swap, Dup, Over, DropTop, Nip} && DoPlain(env.hash, m, l).Some? && vm.stack == Vals(l)
    ensures |PlainOps(m, Names(l))| == 1
    ensures TExec(env, PlainOps(m, Names(l))[0], vm) == Some(WithStack(vm, Vals(DoPlain(env.hash, m, l).value)))
  {
    hide Num2BinBytes, Arithmetic, Decode, InRange, AsNum, Names;
    TopItems(l);
    TopItems(DoPlain(env.hash, m, l).value);
  }

  lemma ComputeTyped(env: Env, m: Macro, l: NS, vm: VM<Val>)
    requires OneOp(m) && m !in {Swap, Dup, Over, DropTop, Nip} && DoPlain(env.hash, m, l).Some? && vm.stack == Vals(l)
    ensures |PlainOps(m, Names(l))| == 1
    ensures TExec(env, PlainOps(m, Names(l))[0], vm) == Some(WithStack(vm, Vals(DoPlain(env.hash, m, l).value)))
  {
    hide Num2BinBytes, Arithmetic, Decode, InRange, AsNum, Names;
    TopItems(l);
    TopItems(DoPlain(env.hash, m, l).value);
    if m.BinaryNum? {
      ArithmeticInRange(m.op, l.tail.head.val.num, l.head.val.num);
    }
  }

  /** Primitives that are a single instruction. */
  lemma OneOpOk(env: Env, m: Macro, l: NS, vm: VM<Val>)
    requires OneOp(m) && DoPlain(env.hash, m, l).Some?
    requires vm.stack == Vals(l) && AllTrue(vm.cond)
    ensures TRun(env, PlainOps(m, Names(l)), vm) == Some(After(vm, Vals(DoPlain(env.hash, m, l).value)))
  {
    hide TExec, TRun, DoPlain, PlainOps;
    OneOpTyped(env, m, l, vm);
    var op := PlainOps(m, Names(l))[0];
    assert PlainOps(m, Names(l)) == [op];
    RunOne(env, op, vm);
  }

  /** What running a primitive's code must achieve, with the peak it may reach. */
  ghost predicate Simulates(env: Env, code: seq<Op>, vm: VM<Val>, stk: List<Val>, note: nat)
  {
    && TRun(env, code, vm).Some?
    && var r := TRun(env, code, vm).value;
    && r == vm.(stack := stk, peak := r.peak)
    && Size(r) <= r.peak && vm.peak <= r.peak
    && r.peak <= Max(vm.peak, note + Len(vm.alt))
  }

  lemma PushOne(env: Env, n: int, vm: VM<Val>)
    requires AllTrue(vm.cond)
    ensures TStep(env, PushNum(n), vm) == Some(Note(WithStack(vm, Cons(Num(n), vm.stack))))
  {
  }

  /** A numeric push followed by one instruction. */
  lemma PushThenOp(env: Env, n: int, op: Op, vm: VM<Val>, stk: List<Val>)
    requires AllTrue(vm.cond) && Size(vm) <= vm.peak
    requires forall p: nat :: TExec(env, op, vm.(stack := Cons(Num(n), vm.stack), peak := p))
                              == Some(vm.(stack := stk, peak := p))
    requires Len(stk) <= Len(vm.stack) + 1
    ensures Simulates(env, [PushNum(n), op], vm, stk, Len(vm.stack) + 1)
  {
    hide TRun, TExec;
    PushOne(env, n, vm);
    TRun2(env, PushNum(n), op, vm);
    var m1 := Note(WithStack(vm, Cons(Num(n), vm.stack)));
    assert TExec(env, op, m1) == Some(vm.(stack := stk, peak := m1.peak));
  }

  /** Two numeric pushes followed by one instruction. */
  lemma PushTwiceThenOp(env: Env, n1: int, n2: int, op: Op, vm: VM<Val>, stk: List<Val>)
    requires AllTrue(vm.cond) && Size(vm) <= vm.peak
    requires forall p: nat :: TExec(env, op, vm.(stack := Cons(Num(n2), Cons(Num(n1), vm.stack)), peak := p))
                              == Some(vm.(stack := stk, peak := p))
    requires Len(stk) <= Len(vm.stack) + 2
    ensures Simulates(env, [PushNum(n1), PushNum(n2), op], vm, stk, Len(vm.stack) + 2)
  {
    hide TRun, TExec;
    PushOne(env, n1, vm);
    TRun3(env, PushNum(n1), PushNum(n2), op, vm);
    var m1 := Note(WithStack(vm, Cons(Num(n1), vm.stack)));
    PushThenOp(env, n2, op, m1, stk);
  }

  lemma PickRun(env: Env, d: nat, vm: VM<Val>)
    requires AllTrue(vm.cond) && Size(vm) <= vm.peak && d < Len(vm.stack)
    ensures Simulates(env, [PushNum(d), OpPick], vm, Cons(Nth(vm.stack, d), vm.stack), Len(vm.stack) + 1)
  {
    PushThenOp(env, d, OpPick, vm, Cons(Nth(vm.stack, d), vm.stack));
  }

  lemma RollRun(env: Env, d: nat, vm: VM<Val>)
    requires AllTrue(vm.cond) && Size(vm) <= vm.peak && d < Len(vm.stack)
    ensures Simulates(env, [PushNum(d), OpRoll], vm, Cons(Nth(vm.stack, d), Without(vm.stack, d)), Len(vm.stack) + 1)
  {
    PushThenOp(env, d, OpRoll, vm, Cons(Nth(vm.stack, d), Without(vm.stack, d)));
  }

  lemma SubstrRun(env: Env, from: nat, to: nat, x: Bytes, vm: VM<Val>)
    requires AllTrue(vm.cond) && Size(vm) <= vm.peak
    requires vm.stack.Cons? && vm.stack.head == Blob(x) && from <= to <= |x| && InRange(to)
    ensures Simulates(env, [PushNum(from), PushNum(to), OpSubstr], vm, Cons(Blob(x[from..to]), vm.stack.tail),
                      Len(vm.stack) + 2)
  {
    PushTwiceThenOp(env, from, to, OpSubstr, vm, Cons(Blob(x[from..to]), vm.stack.tail));
  }

  lemma Num2BinRun(env: Env, n: int, w: nat, vm: VM<Val>)
    requires AllTrue(vm.cond) && Size(vm) <= vm.peak
    requires vm.stack.Cons? && vm.stack.head == Num(n) && InRange(n) && w <= 8 && Num2BinBytes(n, w).Some?
    ensures Simulates(env, [PushNum(w), OpNum2Bin], vm, Cons(Blob(Num2BinBytes(n, w).value), vm.stack.tail),
                      Len(vm.stack) + 1)
  {
    hide Num2BinBytes;
    PushThenOp(env, w, OpNum2Bin, vm, Cons(Blob(Num2BinBytes(n, w).value), vm.stack.tail));
  }

  /** Primitives that push operands of their own. */
  lemma OperandOpOk(env: Env, m: Macro, l: NS, vm: VM<Val>)
    requires (m.Pick? || m.Roll? || m.RollDepth? || m.Substr? || m.Num2Bin?) && DoPlain(env.hash, m, l).Some?
    requires vm.stack == Vals(l) && AllTrue(vm.cond) && Size(vm) <= vm.peak
    ensures Simulates(env, PlainOps(m, Names(l)), vm, Vals(DoPlain(env.hash, m, l).value),
                      Len(l) + (if m.Substr? then 2 else 1))
  {
    hide *;
    match m
    case Pick(s) => PickOpOk(env, s, l, vm);
    case Roll(s) => RollOpOk(env, s, l, vm);
    case RollDepth(d) => RollDepthOpOk(env, d, l, vm);
    case _ => RangeOpOk(env, m, l, vm);
  }

  lemma PickOpOk(env: Env, s: Slot, l: NS, vm: VM<Val>)
    requires DoPlain(env.hash, Macro.Pick(s), l).Some?
    requires vm.stack == Vals(l) && AllTrue(vm.cond) && Size(vm) <= vm.peak
    ensures Simulates(env, PlainOps(Macro.Pick(s), Names(l)), vm, Vals(DoPlain(env.hash, Macro.Pick(s), l).value), Len(l) + 1)
  {
    hide *;
    var depth := PickMeans(env.hash, s, l);
    PickRun(env, depth, vm);
  }

  lemma PickMeans(hash: Hash, s: Slot, l: NS) returns (depth: nat)
    requires DoPlain(hash, Macro.Pick(s), l).Some?
    ensures depth < Len(l) && PlainOps(Macro.Pick(s), Names(l)) == [PushNum(depth), OpPick]
    ensures Vals(DoPlain(hash, Macro.Pick(s), l).value) == Cons(Nth(Vals(l), depth), Vals(l))
  {
    FindDepth(l, s);
    depth := Depth(Names(l), s).value;
  }

  lemma RollOpOk(env: Env, s: Slot, l: NS, vm: VM<Val>)
    requires DoPlain(env.hash, Macro.Roll(s), l).Some?
    requires vm.stack == Vals(l) && AllTrue(vm.cond) && Size(vm) <= vm.peak
    ensures Simulates(env, PlainOps(Macro.Roll(s), Names(l)), vm, Vals(DoPlain(env.hash, Macro.Roll(s), l).value), Len(l) + 1)
  {
    hide *;
    var depth := RollMeans(env.hash, s, l);
    RollRun(env, depth, vm);
  }

  lemma RollMeans(hash: Hash, s: Slot, l: NS) returns (depth: nat)
    requires DoPlain(hash, Macro.Roll(s), l).Some?
    ensures depth < Len(l) && PlainOps(Macro.Roll(s), Names(l)) == [PushNum(depth), OpRoll]
    ensures Vals(DoPlain(hash, Macro.Roll(s), l).value) == Cons(Nth(Vals(l), depth), Without(Vals(l), depth))
  {
    FindDepth(l, s);
    depth := Depth(Names(l), s).value;
  }

  lemma RollDepthOpOk(env: Env, d: nat, l: NS, vm: VM<Val>)
    requires DoPlain(env.hash, RollDepth(d), l).Some?
    requires vm.stack == Vals(l) && AllTrue(vm.cond) && Size(vm) <= vm.peak
    ensures Simulates(env, PlainOps(RollDepth(d), Names(l)), vm, Vals(DoPlain(env.hash, RollDepth(d), l).value), Len(l) + 1)
  {
    hide *;
    var depth := RollDepthMeans(env.hash, d, l);
    RollRun(env, depth, vm);
  }

  lemma RollDepthMeans(hash: Hash, d: nat, l: NS) returns (depth: nat)
    requires DoPlain(hash, RollDepth(d), l).Some?
    ensures depth < Len(l) && PlainOps(RollDepth(d), Names(l)) == [PushNum(depth), OpRoll]
    ensures Vals(DoPlain(hash, RollDepth(d), l).value) == Cons(Nth(Vals(l), depth), Without(Vals(l), depth))
  {
    hide Nth, Without;
    NthItems(l, d);
    depth := d;
  }

  lemma RangeOpOk(env: Env, m: Macro, l: NS, vm: VM<Val>)
    requires (m.Substr? || m.Num2Bin?) && DoPlain(env.hash, m, l).Some?
    requires vm.stack == Vals(l) && AllTrue(vm.cond) && Size(vm) <= vm.peak
    ensures Simulates(env, PlainOps(m, Names(l)), vm, Vals(DoPlain(env.hash, m, l).value),
                      Len(l) + (if m.Substr? then 2 else 1))
  {
    hide Simulates, Num2BinBytes, Find, Remove, Nth, Without;
    TopItems(l);
    match m
    case Substr(a, b) => SubstrRun(env, a, b, l.head.val.bytes, vm);
    case Num2Bin(w) => Num2BinRun(env, l.head.val.num, w, vm);
    case _ =>
  }

  /** One straight-line primitive: frame, values and peak. */
  lemma PlainOk(env: Env, m: Macro, l: NS, vm: VM<Val>)
    requires DoPlain(env.hash, m, l).Some?
    requires vm.stack == Vals(l) && AllTrue(vm.cond) && Size(vm) <= vm.peak
    ensures PlainFrame(m, Names(l)) == Some(Names(DoPlain(env.hash, m, l).value))
    ensures Simulates(env, PlainOps(m, Names(l)), vm, Vals(DoPlain(env.hash, m, l).value),
                      Max(PlainNote(m, Names(l)), Len(l)))
  {
    hide Num2BinBytes, Arithmetic, Decode, InRange;
    PlainFrameOk(env.hash, m, l);
    if OneOp(m) {
      OneOpOk(env, m, l, vm);
      OneOpHeight(env.hash, m, l);
    } else if m.NameTop? {
      TopItems(l);
    } else {
      OperandOpOk(env, m, l, vm);
    }
  }

  lemma OneOpHeight(hash: Hash, m: Macro, l: NS)
    requires OneOp(m) && DoPlain(hash, m, l).Some?
    ensures Len(DoPlain(hash, m, l).value) <= Max(PlainNote(m, Names(l)), Len(l))
  {
    hide Num2BinBytes, Arithmetic, Decode, InRange;
  }

  lemma SimulatesAppend(env: Env, c1: seq<Op>, c2: seq<Op>, vm: VM<Val>, s1: List<Val>, s2: List<Val>, n1: nat, n2: nat)
    requires Simulates(env, c1, vm, s1, n1)
    requires Simulates(env, c2, TRun(env, c1, vm).value, s2, n2)
    ensures Simulates(env, c1 + c2, vm, s2, Max(n1, n2))
  {
    hide TRun;
    TRunAppend(env, c1, c2, vm);
  }

  lemma PlainOpsStraight(m: Macro, f: List<Slot>)
    ensures Straight(PlainOps(m, f))
  {
  }

  /** A block under construction: its frame, and what its code has done from `start`. */
  ghost predicate BlockInv(env: Env, b: Block, l: NS, start: VM<Val>)
  {
    && b.f == Names(l) && Straight(b.code)
    && AllTrue(start.cond) && Size(start) <= start.peak
    && Simulates(env, b.code, start, Vals(l), Max(b.peak, Len(start.stack)))
    && Len(l) <= Max(b.peak, Len(start.stack))
  }

  lemma BlockStep(env: Env, m: Macro, l: NS, b: Block, start: VM<Val>)
    requires DoPlain(env.hash, m, l).Some? && BlockInv(env, b, l, start)
    ensures PlainOne(m, b).Some? && PlainOne(m, b).value.peak >= b.peak
    ensures BlockInv(env, PlainOne(m, b).value, DoPlain(env.hash, m, l).value, start)
  {
    hide DoPlain, PlainOps, PlainFrame, PlainNote;
    var mid := TRun(env, b.code, start).value;
    PlainOk(env, m, l, mid);
    var l' := DoPlain(env.hash, m, l).value;
    SimulatesAppend(env, b.code, PlainOps(m, b.f), start, Vals(l), Vals(l'),
                    Max(b.peak, Len(start.stack)), Max(PlainNote(m, Names(l)), Len(l)));
    PlainOpsStraight(m, b.f);
    HeightBound(env, m, l);
  }

  lemma HeightBound(env: Env, m: Macro, l: NS)
    requires DoPlain(env.hash, m, l).Some?
    ensures Len(DoPlain(env.hash, m, l).value) <= Max(PlainNote(m, Names(l)), Len(l))
  {
    hide Num2BinBytes, Arithmetic, Decode, InRange;
    if OneOp(m) {
      OneOpHeight(env.hash, m, l);
    } else if m.Roll? {
      FindDepth(l, m.slot);
    }
  }

  /** A straight-line block does what DoPlainAll says. */
  lemma {:induction false} BlockOk(env: Env, ms: seq<Macro>, l: NS, b: Block, start: VM<Val>)
    requires DoPlainAll(env.hash, ms, l).Some? && BlockInv(env, b, l, start)
    ensures PlainAll(ms, b).Some? && PlainAll(ms, b).value.peak >= b.peak
    ensures BlockInv(env, PlainAll(ms, b).value, DoPlainAll(env.hash, ms, l).value, start)
  {
    hide DoPlain, PlainOne, BlockInv;
    if |ms| > 0 {
      BlockStep(env, ms[0], l, b, start);
      BlockOk(env, ms[1..], DoPlain(env.hash, ms[0], l).value, PlainOne(ms[0], b).value, start);
    }
  }
}
