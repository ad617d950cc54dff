/** Straight-line scripts with gated blocks, run on two stacks. The LMS emitter writes this shape without a frame. */
module Lane {
  import opened Arith
  import opened Bytes
  import opened Lists
  import opened Numbers
  import opened Machine

  /** One instruction, or `OpIf body OpEndIf`. */
  datatype Piece = One(op: Op) | Gated(body: seq<Op>)

  function Flat(ps: seq<Piece>): seq<Op>
  {
    if |ps| == 0 then []
    else (match ps[0] case One(op) => [op] case Gated(body) => [OpIf] + body + [OpEndIf]) + Flat(ps[1..])
  }

  lemma {:induction false} FlatAppend(a: seq<Piece>, b: seq<Piece>)
    ensures Flat(a + b) == Flat(a) + Flat(b)
  {
    if |a| == 0 {
      assert a + b == b;
    } else {
      assert (a + b)[1..] == a[1..] + b;
      FlatAppend(a[1..], b);
    }
  }

  /** The two stacks, or a run that has gone wrong. */
  datatype State = Off | On(stk: List<Val>, alt: List<Val>)

  function DoOp(env: Env, op: Op, s: State): State
  {
    if s.Off? || op == OpIf || op == OpEndIf then Off
    else
      match TExec(env, op, VM(s.stk, s.alt, Nil, 0))
      case Some(m) => On(m.stack, m.alt)
      case None => Off
  }

  function DoOps(env: Env, ops: seq<Op>, s: State): State
  {
    if |ops| == 0 then s else DoOps(env, ops[1..], DoOp(env, ops[0], s))
  }

  function DoPiece(env: Env, pc: Piece, s: State): State
  {
    match pc
    case One(op) => DoOp(env, op, s)
    case Gated(body) =>
      if s.On? && Straight(body) then
        match s.stk
        case Cons(Num(n), t) =>
          if n == 1 then DoOps(env, body, On(t, s.alt)) else if n == 0 then On(t, s.alt) else Off
        case _ => Off
      else Off
  }

  /** What a script does. */
  function Do(env: Env, ps: seq<Piece>, s: State): State
  {
    if |ps| == 0 then s else Do(env, ps[1..], DoPiece(env, ps[0], s))
  }

  lemma {:induction false} DoAppend(env: Env, a: seq<Piece>, b: seq<Piece>, s: State)
    ensures Do(env, a + b, s) == Do(env, b, Do(env, a, s))
  {
    hide DoPiece;
    if |a| == 0 {
      assert a + b == b;
    } else {
      assert (a + b)[1..] == a[1..] + b;
      DoAppend(env, a[1..], b, DoPiece(env, a[0], s));
    }
  }

  lemma {:induction false} OffStays(env: Env, ps: seq<Piece>)
    ensures Do(env, ps, Off) == Off
  {
    if |ps| > 0 {
      OffStays(env, ps[1..]);
    }
  }

  lemma {:induction false} OffStaysOps(env: Env, ops: seq<Op>)
    ensures DoOps(env, ops, Off) == Off
  {
    if |ops| > 0 {
      OffStaysOps(env, ops[1..]);
    }
  }

  // ---- the machine follows -------------------------------------------------

  /** The machine is where the state says, outside any branch. */
  predicate At(m: VM<Val>, s: State)
  {
    s.On? && m.stack == s.stk && m.alt == s.alt && AllTrue(m.cond) && Size(m) <= m.peak
  }

  lemma ExecAt(env: Env, op: Op, m: VM<Val>, s: State)
    requires At(m, s) && DoOp(env, op, s).On?
    ensures TExec(env, op, m).Some?
    ensures TExec(env, op, m).value == m.(stack := DoOp(env, op, s).stk, alt := DoOp(env, op, s).alt)
  {
    var base := VM(s.stk, s.alt, Nil, 0);
    TExecUnderCond(env, op, base, m.cond);
    SamePeak(env, op, WithCond(base, m.cond), m.peak);
  }

  lemma SamePeak(env: Env, op: Op, m: VM<Val>, peak: nat)
    requires op != OpIf && op != OpEndIf && TExec(env, op, m).Some?
    ensures TExec(env, op, m.(peak := peak)) == Some(TExec(env, op, m).value.(peak := peak))
  {
  }

  lemma {:induction false} OpsRun(env: Env, ops: seq<Op>, m: VM<Val>, s: State)
    requires At(m, s) && DoOps(env, ops, s).On?
    ensures TRun(env, ops, m).Some? && At(TRun(env, ops, m).value, DoOps(env, ops, s))
    ensures TRun(env, ops, m).value.cond == m.cond
  {
    hide TExec, DoOp;
    if |ops| > 0 {
      if DoOp(env, ops[0], s).Off? {
        OffStaysOps(env, ops[1..]);
      }
      ExecAt(env, ops[0], m, s);
      OpsRun(env, ops[1..], TStep(env, ops[0], m).value, DoOp(env, ops[0], s));
    }
  }

  lemma PieceRun(env: Env, pc: Piece, m: VM<Val>, s: State)
    requires At(m, s) && DoPiece(env, pc, s).On?
    ensures var ops := Flat([pc]);
            TRun(env, ops, m).Some? && At(TRun(env, ops, m).value, DoPiece(env, pc, s))
            && TRun(env, ops, m).value.cond == m.cond
  {
    hide TRun, TExec, DoOp;
    assert [pc][1..] == [] && Flat([pc][1..]) == [];
    match pc {
      case One(op) =>
        assert Flat([pc]) == [op] + [];
        assert [op] + [] == [op];
        ExecAt(env, op, m, s);
        StepOne(env, op, m);
      case Gated(body) =>
        assert Flat([pc]) == [OpIf] + body + [OpEndIf] + [];
        assert [OpIf] + body + [OpEndIf] + [] == [OpIf] + body + [OpEndIf];
        var inner := WithStack(m, m.stack.tail);
        if s.stk.head.num == 1 {
          OpsRun(env, body, inner, On(s.stk.tail, s.alt));
        }
        TGate(env, body, m);
    }
  }

  lemma StepOne(env: Env, op: Op, m: VM<Val>)
    requires AllTrue(m.cond) && TExec(env, op, m).Some?
    ensures TRun(env, [op], m) == Some(Note(TExec(env, op, m).value))
  {
    hide TExec;
    assert [op][1..] == [];
  }

  /** A script whose meaning is defined runs to that meaning on the engine. */
  lemma {:induction false} LaneRun(env: Env, ps: seq<Piece>, m: VM<Val>, s: State)
    requires At(m, s) && Do(env, ps, s).On?
    ensures TRun(env, Flat(ps), m).Some? && At(TRun(env, Flat(ps), m).value, Do(env, ps, s))
    ensures TRun(env, Flat(ps), m).value.cond == m.cond
  {
    hide TRun, DoPiece, At;
    if |ps| == 0 {
      NoRun(env, m);
    } else {
      if DoPiece(env, ps[0], s).Off? {
        OffStays(env, ps[1..]);
      }
      PieceRun(env, ps[0], m, s);
      var m1 := TRun(env, Flat([ps[0]]), m).value;
      LaneRun(env, ps[1..], m1, DoPiece(env, ps[0], s));
      assert ps == [ps[0]] + ps[1..];
      FlatAppend([ps[0]], ps[1..]);
      TRunAppend(env, Flat([ps[0]]), Flat(ps[1..]), m);
    }
  }

  lemma NoRun(env: Env, m: VM<Val>)
    ensures TRun(env, [], m) == Some(m)
  {
  }

  // ---- rewrite rules -------------------------------------------------------

  /** Instructions as a script. */
  function Ops(ops: seq<Op>): seq<Piece>
  {
    if |ops| == 0 then [] else [One(ops[0])] + Ops(ops[1..])
  }

  lemma {:induction false} OpsMeaning(env: Env, ops: seq<Op>, s: State)
    requires Straight(ops)
    ensures Do(env, Ops(ops), s) == DoOps(env, ops, s)
    ensures Flat(Ops(ops)) == ops
  {
    hide DoOp;
    if |ops| > 0 {
      assert ops[0] in ops;
      assert Ops(ops)[1..] == Ops(ops[1..]);
      OpsMeaning(env, ops[1..], DoOp(env, ops[0], s));
    }
  }

  lemma Two(env: Env, a: Op, b: Op, s: State)
    ensures DoOps(env, [a, b], s) == DoOp(env, b, DoOp(env, a, s))
  {
    hide DoOp;
    assert [a, b][1..] == [b] && [b][1..] == [];
    assert DoOps(env, [b], DoOp(env, a, s)) == DoOps(env, [], DoOp(env, b, DoOp(env, a, s)));
  }

  lemma DoOpsAppend(env: Env, a: seq<Op>, b: seq<Op>, s: State)
    ensures DoOps(env, a + b, s) == DoOps(env, b, DoOps(env, a, s))
  {
    hide DoOp;
    if |a| == 0 {
      assert a + b == b;
    } else {
      assert (a + b)[1..] == a[1..] + b;
      DoOpsAppend(env, a[1..], b, DoOp(env, a[0], s));
    }
  }

  lemma DoOpsOne(env: Env, a: Op, s: State)
    ensures DoOps(env, [a], s) == DoOp(env, a, s)
  {
    hide DoOp;
    assert [a][1..] == [];
  }

  /** Sequencing: displays of instructions come down to single ones. */
  lemma SequenceRules(env: Env)
    ensures forall a, b, s {:trigger DoOps(env, a + b, s)} :: DoOps(env, a + b, s) == DoOps(env, b, DoOps(env, a, s))
    ensures forall s {:trigger DoOps(env, [], s)} :: DoOps(env, [], s) == s
    ensures forall a, s {:trigger DoOps(env, [a], s)} :: DoOps(env, [a], s) == DoOp(env, a, s)
    ensures forall a, b, s {:trigger DoOps(env, [a, b], s)} :: DoOps(env, [a, b], s) == DoOp(env, b, DoOp(env, a, s))
    ensures forall a, b, c, s {:trigger DoOps(env, [a, b, c], s)} ::
              DoOps(env, [a, b, c], s) == DoOp(env, c, DoOp(env, b, DoOp(env, a, s)))
    ensures forall a, b, c, d, s {:trigger DoOps(env, [a, b, c, d], s)} ::
              DoOps(env, [a, b, c, d], s) == DoOp(env, d, DoOp(env, c, DoOp(env, b, DoOp(env, a, s))))
  {
    hide DoOp, DoOps;
    forall a, b, s
      ensures DoOps(env, a + b, s) == DoOps(env, b, DoOps(env, a, s))
    {
      DoOpsAppend(env, a, b, s);
    }
    forall s
      ensures DoOps(env, [], s) == s
    {
      DoOpsNone(env, s);
    }
    forall a, s
      ensures DoOps(env, [a], s) == DoOp(env, a, s)
    {
      DoOpsOne(env, a, s);
    }
    forall a, b, s
      ensures DoOps(env, [a, b], s) == DoOp(env, b, DoOp(env, a, s))
    {
      Two(env, a, b, s);
    }
    forall a, b, c, s
      ensures DoOps(env, [a, b, c], s) == DoOp(env, c, DoOp(env, b, DoOp(env, a, s)))
    {
      assert [a] + [b, c] == [a, b, c];
      DoOpsAppend(env, [a], [b, c], s);
      DoOpsOne(env, a, s);
      Two(env, b, c, DoOp(env, a, s));
    }
    forall a, b, c, d, s
      ensures DoOps(env, [a, b, c, d], s) == DoOp(env, d, DoOp(env, c, DoOp(env, b, DoOp(env, a, s))))
    {
      assert [a, b] + [c, d] == [a, b, c, d];
      DoOpsAppend(env, [a, b], [c, d], s);
      Two(env, a, b, s);
      Two(env, c, d, DoOp(env, b, DoOp(env, a, s)));
    }
  }

  lemma DoOpsNone(env: Env, s: State)
    ensures DoOps(env, [], s) == s
  {
  }

  /** Moving values about. */
  lemma ShuffleRules(env: Env)
    ensures forall b, t, alt {:trigger DoOp(env, Push(b), On(t, alt))} ::
              DoOp(env, Push(b), On(t, alt)) == On(Cons(Blob(b), t), alt)
    ensures forall n, t, alt {:trigger DoOp(env, PushNum(n), On(t, alt))} ::
              DoOp(env, PushNum(n), On(t, alt)) == On(Cons(Num(n), t), alt)
    ensures forall a: Val, b: Val, t, alt {:trigger DoOp(env, OpSwap, On(Cons(b, Cons(a, t)), alt))} ::
              DoOp(env, OpSwap, On(Cons(b, Cons(a, t)), alt)) == On(Cons(a, Cons(b, t)), alt)
    ensures forall a: Val, t, alt {:trigger DoOp(env, OpDup, On(Cons(a, t), alt))} ::
              DoOp(env, OpDup, On(Cons(a, t), alt)) == On(Cons(a, Cons(a, t)), alt)
    ensures forall a: Val, t, alt {:trigger DoOp(env, OpDrop, On(Cons(a, t), alt))} ::
              DoOp(env, OpDrop, On(Cons(a, t), alt)) == On(t, alt)
    ensures forall a: Val, t, alt {:trigger DoOp(env, OpToAltStack, On(Cons(a, t), alt))} ::
              DoOp(env, OpToAltStack, On(Cons(a, t), alt)) == On(t, Cons(a, alt))
    ensures forall a: Val, t, alt {:trigger DoOp(env, OpFromAltStack, On(t, Cons(a, alt)))} ::
              DoOp(env, OpFromAltStack, On(t, Cons(a, alt))) == On(Cons(a, t), alt)
  {
  }

  /** Byte strings. */
  lemma BytesRules(env: Env)
    ensures forall a, b, t, alt {:trigger DoOp(env, OpCat, On(Cons(Blob(b), Cons(Blob(a), t)), alt))} ::
              DoOp(env, OpCat, On(Cons(Blob(b), Cons(Blob(a), t)), alt)) == On(Cons(Blob(a + b), t), alt)
    ensures forall a, t, alt {:trigger DoOp(env, OpSha256, On(Cons(Blob(a), t), alt))} ::
              DoOp(env, OpSha256, On(Cons(Blob(a), t), alt)) == On(Cons(Blob(env.hash(a)), t), alt)
    ensures forall x, from: nat, to: nat, t, alt
              {:trigger DoOp(env, OpSubstr, On(Cons(Num(to), Cons(Num(from), Cons(Blob(x), t))), alt))} ::
              from <= to <= |x| && to < NumLimit ==>
                DoOp(env, OpSubstr, On(Cons(Num(to), Cons(Num(from), Cons(Blob(x), t))), alt))
                == On(Cons(Blob(x[from..to]), t), alt)
    ensures forall a, b, t, alt {:trigger DoOp(env, OpEqual, On(Cons(Blob(b), Cons(Blob(a), t)), alt))} ::
              DoOp(env, OpEqual, On(Cons(Blob(b), Cons(Blob(a), t)), alt)) == On(Cons(Num(BoolNum(a == b)), t), alt)
    ensures forall v: Byte, t, alt {:trigger DoOp(env, OpBin2Num, On(Cons(Blob([v] + [0]), t), alt))} ::
              DoOp(env, OpBin2Num, On(Cons(Blob([v] + [0]), t), alt)) == On(Cons(Num(v), t), alt)
    ensures forall n: nat, t, alt {:trigger DoOp(env, OpNum2Bin, On(Cons(Num(2), Cons(Num(n), t)), alt))} ::
              n < 32768 ==>
                DoOp(env, OpNum2Bin, On(Cons(Num(2), Cons(Num(n), t)), alt)) == On(Cons(Blob(ToLe(n, 2)), t), alt)
  {
    forall v: Byte, t, alt
      ensures DoOp(env, OpBin2Num, On(Cons(Blob([v] + [0]), t), alt)) == On(Cons(Num(v), t), alt)
    {
      ReadByte(env, v, t, alt);
    }
    forall n: nat, t, alt | n < 32768
      ensures DoOp(env, OpNum2Bin, On(Cons(Num(2), Cons(Num(n), t)), alt)) == On(Cons(Blob(ToLe(n, 2)), t), alt)
    {
      WriteWord(env, n, t, alt);
    }
    hide Num2BinBytes, Decode, ToLe;
  }

  lemma ReadByte(env: Env, v: Byte, t: List<Val>, alt: List<Val>)
    ensures DoOp(env, OpBin2Num, On(Cons(Blob([v] + [0]), t), alt)) == On(Cons(Num(v), t), alt)
  {
    hide Decode;
    DecodePadded(v);
  }

  /** Two bytes hold what stays clear of the sign bit. */
  lemma WriteWord(env: Env, n: nat, t: List<Val>, alt: List<Val>)
    requires n < 32768
    ensures DoOp(env, OpNum2Bin, On(Cons(Num(2), Cons(Num(n), t)), alt)) == On(Cons(Blob(ToLe(n, 2)), t), alt)
  {
    WordFits(n);
    hide Num2BinBytes, ToLe;
  }

  lemma WordFits(n: nat)
    ensures Num2BinBytes(n, 2) == if n < 32768 then Some(ToLe(n, 2)) else None
  {
    Pow2Table();
  }

  /** Arithmetic on operands within the engine's range. */
  lemma ArithRules(env: Env)
    ensures forall a: nat, b: nat, t, alt {:trigger DoOp(env, OpArith(Add), On(Cons(Num(b), Cons(Num(a), t)), alt))} ::
              a + b < NumLimit ==>
                DoOp(env, OpArith(Add), On(Cons(Num(b), Cons(Num(a), t)), alt)) == On(Cons(Num(a + b), t), alt)
    ensures forall a: nat, b: nat, t, alt {:trigger DoOp(env, OpArith(Sub), On(Cons(Num(b), Cons(Num(a), t)), alt))} ::
              b <= a < NumLimit ==>
                DoOp(env, OpArith(Sub), On(Cons(Num(b), Cons(Num(a), t)), alt)) == On(Cons(Num(a - b), t), alt)
    ensures forall a: nat, b: nat, t, alt {:trigger DoOp(env, OpArith(Div), On(Cons(Num(b), Cons(Num(a), t)), alt))} ::
              a < NumLimit && 0 < b < NumLimit ==>
                DoOp(env, OpArith(Div), On(Cons(Num(b), Cons(Num(a), t)), alt)) == On(Cons(Num(a / b), t), alt)
    ensures forall a: nat, b: nat, t, alt {:trigger DoOp(env, OpArith(Mod), On(Cons(Num(b), Cons(Num(a), t)), alt))} ::
              a < NumLimit && 0 < b < NumLimit ==>
                DoOp(env, OpArith(Mod), On(Cons(Num(b), Cons(Num(a), t)), alt)) == On(Cons(Num(a % b), t), alt)
    ensures forall a: nat, b: nat, t, alt {:trigger DoOp(env, OpArith(Mul), On(Cons(Num(b), Cons(Num(a), t)), alt))} ::
              a < NumLimit && b < NumLimit && a * b < NumLimit ==>
                DoOp(env, OpArith(Mul), On(Cons(Num(b), Cons(Num(a), t)), alt)) == On(Cons(Num(a * b), t), alt)
    ensures forall a: nat, b: nat, t, alt
              {:trigger DoOp(env, OpArith(GreaterThanOrEqual), On(Cons(Num(b), Cons(Num(a), t)), alt))} ::
              a < NumLimit && b < NumLimit ==>
                DoOp(env, OpArith(GreaterThanOrEqual), On(Cons(Num(b), Cons(Num(a), t)), alt))
                == On(Cons(Num(BoolNum(a >= b)), t), alt)
  {
    hide Arithmetic;
    forall a: nat, b: nat | a + b < NumLimit
      ensures Arithmetic(Add, a, b) == Some(a + b)
    {
      ArithmeticNat(Add, a, b);
    }
    forall a: nat, b: nat | a < NumLimit && b < NumLimit
      ensures b <= a ==> Arithmetic(Sub, a, b) == Some(a - b)
      ensures Arithmetic(GreaterThanOrEqual, a, b) == Some(BoolNum(a >= b))
    {
      SmallOperands(a, b);
    }
    forall a: nat, b: nat | a < NumLimit && 0 < b
      ensures Arithmetic(Mod, a, b) == Some(a % b) && Arithmetic(Div, a, b) == Some(a / b)
    {
      ArithmeticNat(Mod, a, b);
      ArithmeticNat(Div, a, b);
      DivBounds(a, b);
    }
    forall a: nat, b: nat | a * b < NumLimit
      ensures Arithmetic(Mul, a, b) == Some(a * b)
    {
      ArithmeticNat(Mul, a, b);
    }
  }

  lemma SmallOperands(a: nat, b: nat)
    requires a < NumLimit && b < NumLimit
    ensures b <= a ==> Arithmetic(Sub, a, b) == Some(a - b)
    ensures Arithmetic(GreaterThanOrEqual, a, b) == Some(BoolNum(a >= b))
  {
  }
}
