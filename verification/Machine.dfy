/**
 * The script engine the emitters target: a data stack, an alt stack and a stack of branch conditions over byte
 * strings. `VM<Val>` is the same machine over values that remember whether they are numbers; `ExecRep` shows that a
 * typed run predicts the byte-level run.
 */
module Machine {
  import opened Arith
  import opened Bytes
  import opened Lists
  import opened Numbers

  type Digest = x: Bytes | |x| == 32 witness Zeros(32)
  type Hash = Bytes -> Digest

  datatype Op =
    | Push(data: Bytes)
    | PushNum(n: int)
    | OpCat | OpSha256 | OpSwap | OpDup | OpOver | OpDrop | OpNip | OpPick | OpRoll | OpSubstr | OpNum2Bin | OpBin2Num
    | OpArith(a: ArithOp)
    | OpEqual | OpToAltStack | OpFromAltStack | OpIf | OpEndIf
    | OpTxVersion | OpTxInputIndex | OpOutpointTxId | OpOutpointIndex | OpTxOutputCount
    | OpTxOutputAmount | OpTxOutputSpkLen | OpTxOutputSpk

  datatype Outpoint = Outpoint(txid: Bytes, index: nat)
  datatype TxOutput = TxOutput(amount: nat, spkVersion: nat, script: Bytes)

  /** The transaction under verification: `current` is the input whose script is running. */
  datatype Tx = Tx(version: nat, inputs: seq<Outpoint>, current: nat, outputs: seq<TxOutput>)

  /** What `OpTxOutputSpk` pushes: big-endian version, then the script. */
  function SpkWireBytes(version: nat, script: Bytes): Bytes
  {
    ToBe(version, 2) + script
  }

  datatype Env = Env(hash: Hash, tx: Tx)

  /** `peak` is the largest combined size of the two stacks after any instruction so far. */
  datatype VM<+V> = VM(stack: List<V>, alt: List<V>, cond: List<bool>, peak: nat)

  function Size<V>(m: VM<V>): nat { Len(m.stack) + Len(m.alt) }

  function Note<V>(m: VM<V>): VM<V> { m.(peak := Max(m.peak, Size(m))) }

  predicate AllTrue(c: List<bool>)
  {
    c.Cons? ==> c.head && AllTrue(c.tail)
  }

  // ---- byte level ----------------------------------------------------------

  function WithStack<V>(m: VM<V>, s: List<V>): VM<V> { m.(stack := s) }

  function PushNumber(m: VM<Bytes>, s: List<Bytes>, n: int): Option<VM<Bytes>>
  {
    if InRange(n) then Some(WithStack(m, Cons(MinEnc(n), s))) else None
  }

  /** A stack or transaction index operand below `bound`. */
  function AsIndex(b: Bytes, bound: nat): Option<nat>
  {
    var n := Decode(b);
    if MinEnc(n) == b && 0 <= n < bound then Some(n) else None
  }

  /** One instruction in an executing branch; None is an abort. */
  function Exec(env: Env, op: Op, m: VM<Bytes>): Option<VM<Bytes>>
  {
    match op
    case Push(d) => Some(WithStack(m, Cons(d, m.stack)))
    case PushNum(n) => Some(WithStack(m, Cons(MinEnc(n), m.stack)))
    case OpCat =>
      (match m.stack case Cons(b, Cons(a, s)) => Some(WithStack(m, Cons(a + b, s))) case _ => None)
    case OpSha256 =>
      (match m.stack case Cons(a, s) => Some(WithStack(m, Cons(env.hash(a), s))) case _ => None)
    case OpSwap =>
      (match m.stack case Cons(b, Cons(a, s)) => Some(WithStack(m, Cons(a, Cons(b, s)))) case _ => None)
    case OpDup =>
      (match m.stack case Cons(a, s) => Some(WithStack(m, Cons(a, m.stack))) case _ => None)
    case OpOver =>
      (match m.stack case Cons(b, Cons(a, s)) => Some(WithStack(m, Cons(a, m.stack))) case _ => None)
    case OpDrop =>
      (match m.stack case Cons(a, s) => Some(WithStack(m, s)) case _ => None)
    case OpNip =>
      (match m.stack case Cons(b, Cons(a, s)) => Some(WithStack(m, Cons(b, s))) case _ => None)
    case OpPick =>
      (match m.stack
       case Cons(d, s) =>
         (match AsIndex(d, Len(s)) case Some(n) => Some(WithStack(m, Cons(Nth(s, n), s))) case None => None)
       case _ => None)
    case OpRoll =>
      (match m.stack
       case Cons(d, s) =>
         (match AsIndex(d, Len(s))
          case Some(n) => Some(WithStack(m, Cons(Nth(s, n), Without(s, n))))
          case None => None)
       case _ => None)
    case OpSubstr =>
      (match m.stack
       case Cons(e, Cons(b, Cons(x, s))) =>
         (match (AsNum(b), AsNum(e))
          case (Some(from), Some(to)) =>
            if 0 <= from <= to <= |x| then Some(WithStack(m, Cons(x[from..to], s))) else None
          case _ => None)
       case _ => None)
    case OpNum2Bin =>
      (match m.stack
       case Cons(w, Cons(n, s)) =>
         (match (AsNum(n), AsNum(w))
          case (Some(v), Some(width)) =>
            (match Num2BinBytes(v, width) case Some(b) => Some(WithStack(m, Cons(b, s))) case None => None)
          case _ => None)
       case _ => None)
    case OpBin2Num =>
      (match m.stack
       case Cons(b, s) => if |b| <= 8 then PushNumber(m, s, Decode(b)) else None
       case _ => None)
    case OpArith(op) =>
      (match m.stack
       case Cons(y, Cons(x, s)) =>
         (match (AsNum(x), AsNum(y))
          case (Some(a), Some(b)) =>
            (match Arithmetic(op, a, b) case Some(r) => PushNumber(m, s, r) case None => None)
          case _ => None)
       case _ => None)
    case OpEqual =>
      (match m.stack
       case Cons(b, Cons(a, s)) => Some(WithStack(m, Cons(MinEnc(BoolNum(a == b)), s)))
       case _ => None)
    case OpToAltStack =>
      (match m.stack case Cons(a, s) => Some(m.(stack := s, alt := Cons(a, m.alt))) case _ => None)
    case OpFromAltStack =>
      (match m.alt case Cons(a, s) => Some(m.(stack := Cons(a, m.stack), alt := s)) case _ => None)
    case OpIf =>
      (match m.stack
       case Cons(c, s) =>
         if c == MinEnc(1) || c == MinEnc(0) then Some(m.(stack := s, cond := Cons(c == MinEnc(1), m.cond))) else None
       case _ => None)
    case OpEndIf => if m.cond.Cons? then Some(m.(cond := m.cond.tail)) else None
    case OpTxVersion => PushNumber(m, m.stack, env.tx.version)
    case OpTxInputIndex => PushNumber(m, m.stack, env.tx.current)
    case OpOutpointTxId =>
      (match m.stack
       case Cons(i, s) =>
         (match AsIndex(i, |env.tx.inputs|)
          case Some(n) => Some(WithStack(m, Cons(env.tx.inputs[n].txid, s)))
          case None => None)
       case _ => None)
    case OpOutpointIndex =>
      (match m.stack
       case Cons(i, s) =>
         (match AsIndex(i, |env.tx.inputs|)
          case Some(n) => PushNumber(m, s, env.tx.inputs[n].index)
          case None => None)
       case _ => None)
    case OpTxOutputCount => PushNumber(m, m.stack, |env.tx.outputs|)
    case OpTxOutputAmount =>
      (match m.stack
       case Cons(i, s) =>
         (match AsIndex(i, |env.tx.outputs|)
          case Some(n) => PushNumber(m, s, env.tx.outputs[n].amount)
          case None => None)
       case _ => None)
    case OpTxOutputSpkLen =>
      (match m.stack
       case Cons(i, s) =>
         (match AsIndex(i, |env.tx.outputs|)
          case Some(n) => PushNumber(m, s, 2 + |env.tx.outputs[n].script|)
          case None => None)
       case _ => None)
    case OpTxOutputSpk =>
      (match m.stack
       case Cons(i, s) =>
         (match AsIndex(i, |env.tx.outputs|)
          case Some(n) =>
            var o := env.tx.outputs[n];
            Some(WithStack(m, Cons(SpkWireBytes(o.spkVersion, o.script), s)))
          case None => None)
       case _ => None)
  }

  /** Outside an executing branch only the branch structure is followed. */
  function Skip<V>(op: Op, m: VM<V>): VM<V>
  {
    match op
    case OpIf => m.(cond := Cons(false, m.cond))
    case OpEndIf => if m.cond.Cons? then m.(cond := m.cond.tail) else m
    case _ => m
  }

  function Step(env: Env, op: Op, m: VM<Bytes>): Option<VM<Bytes>>
  {
    if !AllTrue(m.cond) then Some(Skip(op, m))
    else
      match Exec(env, op, m)
      case Some(m') => Some(Note(m'))
      case None => None
  }

  function Run(env: Env, code: seq<Op>, m: VM<Bytes>): Option<VM<Bytes>>
  {
    if |code| == 0 then Some(m)
    else
      match Step(env, code[0], m)
      case Some(m') => Run(env, code[1..], m')
      case None => None
  }

  // ---- typed level ---------------------------------------------------------

  datatype Val = Blob(bytes: Bytes) | Num(num: int)

  function RepVal(v: Val): Bytes
  {
    match v
    case Blob(b) => b
    case Num(n) => MinEnc(n)
  }

  function RepList(l: List<Val>): (r: List<Bytes>)
    ensures Len(r) == Len(l)
  {
    match l
    case Nil => Nil
    case Cons(h, t) => Cons(RepVal(h), RepList(t))
  }

  function Rep(m: VM<Val>): VM<Bytes>
  {
    VM(RepList(m.stack), RepList(m.alt), m.cond, m.peak)
  }

  function TPushNum(m: VM<Val>, s: List<Val>, n: int): Option<VM<Val>>
  {
    if InRange(n) then Some(WithStack(m, Cons(Num(n), s))) else None
  }

  /** The typed counterpart of Exec; None says nothing about the byte level. */
  function TExec(env: Env, op: Op, m: VM<Val>): Option<VM<Val>>
  {
    match op
    case Push(d) => Some(WithStack(m, Cons(Blob(d), m.stack)))
    case PushNum(n) => Some(WithStack(m, Cons(Num(n), m.stack)))
    case OpCat =>
      (match m.stack case Cons(Blob(b), Cons(Blob(a), s)) => Some(WithStack(m, Cons(Blob(a + b), s))) case _ => None)
    case OpSha256 =>
      (match m.stack case Cons(Blob(a), s) => Some(WithStack(m, Cons(Blob(env.hash(a)), s))) case _ => None)
    case OpSwap =>
      (match m.stack case Cons(b, Cons(a, s)) => Some(WithStack(m, Cons(a, Cons(b, s)))) case _ => None)
    case OpDup =>
      (match m.stack case Cons(a, s) => Some(WithStack(m, Cons(a, m.stack))) case _ => None)
    case OpOver =>
      (match m.stack case Cons(b, Cons(a, s)) => Some(WithStack(m, Cons(a, m.stack))) case _ => None)
    case OpDrop =>
      (match m.stack case Cons(a, s) => Some(WithStack(m, s)) case _ => None)
    case OpNip =>
      (match m.stack case Cons(b, Cons(a, s)) => Some(WithStack(m, Cons(b, s))) case _ => None)
    case OpPick =>
      (match m.stack
       case Cons(Num(n), s) => if 0 <= n < Len(s) then Some(WithStack(m, Cons(Nth(s, n), s))) else None
       case _ => None)
    case OpRoll =>
      (match m.stack
       case Cons(Num(n), s) =>
         if 0 <= n < Len(s) then Some(WithStack(m, Cons(Nth(s, n), Without(s, n)))) else None
       case _ => None)
    case OpSubstr =>
      (match m.stack
       case Cons(Num(to), Cons(Num(from), Cons(Blob(x), s))) =>
         if 0 <= from <= to <= |x| && InRange(to) then Some(WithStack(m, Cons(Blob(x[from..to]), s))) else None
       case _ => None)
    case OpNum2Bin =>
      (match m.stack
       case Cons(Num(w), Cons(Num(n), s)) =>
         if InRange(n) && InRange(w) then
           (match Num2BinBytes(n, w) case Some(b) => Some(WithStack(m, Cons(Blob(b), s))) case None => None)
         else None
       case _ => None)
    case OpBin2Num =>
      (match m.stack
       case Cons(Blob(b), s) => if |b| <= 8 then TPushNum(m, s, Decode(b)) else None
       case _ => None)
    case OpArith(op) =>
      (match m.stack
       case Cons(Num(b), Cons(Num(a), s)) =>
         if InRange(a) && InRange(b) then
           (match Arithmetic(op, a, b) case Some(r) => TPushNum(m, s, r) case None => None)
         else None
       case _ => None)
    case OpEqual =>
      (match m.stack
       case Cons(Blob(b), Cons(Blob(a), s)) => Some(WithStack(m, Cons(Num(BoolNum(a == b)), s)))
       case _ => None)
    case OpToAltStack =>
      (match m.stack case Cons(a, s) => Some(m.(stack := s, alt := Cons(a, m.alt))) case _ => None)
    case OpFromAltStack =>
      (match m.alt case Cons(a, s) => Some(m.(stack := Cons(a, m.stack), alt := s)) case _ => None)
    case OpIf =>
      (match m.stack
       case Cons(Num(n), s) => if n == 0 || n == 1 then Some(m.(stack := s, cond := Cons(n == 1, m.cond))) else None
       case _ => None)
    case OpEndIf => if m.cond.Cons? then Some(m.(cond := m.cond.tail)) else None
    case _ => None
  }

  function TStep(env: Env, op: Op, m: VM<Val>): Option<VM<Val>>
  {
    if !AllTrue(m.cond) then Some(Skip(op, m))
    else
      match TExec(env, op, m)
      case Some(m') => Some(Note(m'))
      case None => None
  }

  function TRun(env: Env, code: seq<Op>, m: VM<Val>): Option<VM<Val>>
  {
    if |code| == 0 then Some(m)
    else
      match TStep(env, code[0], m)
      case Some(m') => TRun(env, code[1..], m')
      case None => None
  }

  lemma {:induction false} RepNth(l: List<Val>, d: nat)
    requires d < Len(l)
    ensures RepVal(Nth(l, d)) == Nth(RepList(l), d)
    ensures RepList(Without(l, d)) == Without(RepList(l), d)
  {
    if d > 0 {
      RepNth(l.tail, d - 1);
    }
  }

  /** The top three entries of the byte-level stack. */
  lemma RepTop(l: List<Val>)
    ensures l.Cons? ==> RepList(l) == Cons(RepVal(l.head), RepList(l.tail))
    ensures l.Cons? && l.tail.Cons? ==> RepList(l.tail) == Cons(RepVal(l.tail.head), RepList(l.tail.tail))
    ensures l.Cons? && l.tail.Cons? && l.tail.tail.Cons?
            ==> RepList(l.tail.tail) == Cons(RepVal(l.tail.tail.head), RepList(l.tail.tail.tail))
  {
  }

  predicate IsNumeric(op: Op)
  {
    op in {OpPick, OpRoll, OpSubstr, OpNum2Bin, OpIf, OpEqual}
  }

  lemma ExecRepNumeric(env: Env, op: Op, m: VM<Val>)
    requires IsNumeric(op) && TExec(env, op, m).Some?
    ensures Exec(env, op, Rep(m)) == Some(Rep(TExec(env, op, m).value))
  {
    hide Num2BinBytes, Arithmetic, MinEnc, Decode, AsNum, SpkWireBytes;
    RepTop(m.stack);
    match op
    case OpPick =>
      DecodeMinEnc(m.stack.head.num);
      RepNth(m.stack.tail, m.stack.head.num);
    case OpRoll =>
      DecodeMinEnc(m.stack.head.num);
      RepNth(m.stack.tail, m.stack.head.num);
    case OpSubstr =>
      AsNumMinEnc(m.stack.head.num);
      AsNumMinEnc(m.stack.tail.head.num);
    case OpNum2Bin =>
      AsNumMinEnc(m.stack.head.num);
      AsNumMinEnc(m.stack.tail.head.num);
    case OpIf =>
      DecodeMinEnc(0);
      DecodeMinEnc(1);
    case OpEqual =>
  }

  lemma ExecRepArith(env: Env, a: ArithOp, m: VM<Val>)
    requires TExec(env, OpArith(a), m).Some?
    ensures Exec(env, OpArith(a), Rep(m)) == Some(Rep(TExec(env, OpArith(a), m).value))
  {
    var x, y := m.stack.tail.head.num, m.stack.head.num;
    AsNumMinEnc(y);
    AsNumMinEnc(x);
    RepTop(m.stack);
  }

  /** One typed instruction predicts the byte-level one. */
  lemma ExecRep(env: Env, op: Op, m: VM<Val>)
    requires TExec(env, op, m).Some?
    ensures Exec(env, op, Rep(m)) == Some(Rep(TExec(env, op, m).value))
  {
    hide Num2BinBytes, Arithmetic, MinEnc, Decode, AsNum, SpkWireBytes;
    if IsNumeric(op) {
      ExecRepNumeric(env, op, m);
    } else if op.OpArith? {
      ExecRepArith(env, op.a, m);
    } else {
      RepTop(m.stack);
      RepTop(m.alt);
      RepTop(TExec(env, op, m).value.stack);
    }
  }

  /** A typed run that does not get stuck predicts the byte-level run, branch by branch. */
  lemma {:induction false} RunRep(env: Env, code: seq<Op>, m: VM<Val>)
    requires TRun(env, code, m).Some?
    ensures Run(env, code, Rep(m)) == Some(Rep(TRun(env, code, m).value))
  {
    hide Exec;
    hide TExec;
    if |code| > 0 {
      if AllTrue(m.cond) {
        ExecRep(env, code[0], m);
      }
      RunRep(env, code[1..], TStep(env, code[0], m).value);
    }
  }

  lemma {:induction false} RunAppend(env: Env, c1: seq<Op>, c2: seq<Op>, m: VM<Bytes>)
    requires Run(env, c1, m).Some?
    ensures Run(env, c1 + c2, m) == Run(env, c2, Run(env, c1, m).value)
  {
    if |c1| == 0 {
      assert c1 + c2 == c2;
    } else {
      assert (c1 + c2)[1..] == c1[1..] + c2;
      RunAppend(env, c1[1..], c2, Step(env, c1[0], m).value);
    }
  }

  lemma {:induction false} RunSeq(env: Env, c1: seq<Op>, c2: seq<Op>, m: VM<Bytes>)
    ensures Run(env, c1 + c2, m) == match Run(env, c1, m) case Some(r) => Run(env, c2, r) case None => None
  {
    hide Step;
    if |c1| == 0 {
      assert c1 + c2 == c2;
    } else {
      assert (c1 + c2)[1..] == c1[1..] + c2;
      if Step(env, c1[0], m).Some? {
        RunSeq(env, c1[1..], c2, Step(env, c1[0], m).value);
      }
    }
  }

  lemma {:induction false} TRunAppend(env: Env, c1: seq<Op>, c2: seq<Op>, m: VM<Val>)
    requires TRun(env, c1, m).Some?
    ensures TRun(env, c1 + c2, m) == TRun(env, c2, TRun(env, c1, m).value)
  {
    if |c1| == 0 {
      assert c1 + c2 == c2;
    } else {
      assert (c1 + c2)[1..] == c1[1..] + c2;
      TRunAppend(env, c1[1..], c2, TStep(env, c1[0], m).value);
    }
  }

  lemma TRun2(env: Env, a: Op, b: Op, m: VM<Val>)
    requires TStep(env, a, m).Some?
    ensures TRun(env, [a, b], m) == TStep(env, b, TStep(env, a, m).value)
  {
    hide TStep;
    var m1 := TStep(env, a, m).value;
    assert [a, b][1..] == [b] && [b][1..] == [];
    assert TRun(env, [a, b], m) == TRun(env, [b], m1);
    assert TRun(env, [b], m1) == match TStep(env, b, m1) case Some(m2) => TRun(env, [], m2) case None => None;
  }

  lemma TRun3(env: Env, a: Op, b: Op, c: Op, m: VM<Val>)
    requires TStep(env, a, m).Some?
    ensures TRun(env, [a, b, c], m) == TRun(env, [b, c], TStep(env, a, m).value)
  {
    assert [a, b, c][1..] == [b, c];
  }

  predicate Straight(code: seq<Op>)
  {
    OpIf !in code && OpEndIf !in code
  }

  /** A skipped straight-line block changes nothing. */
  lemma {:induction false} TSkipBlock(env: Env, code: seq<Op>, m: VM<Val>)
    requires Straight(code) && !AllTrue(m.cond)
    ensures TRun(env, code, m) == Some(m)
  {
    if |code| > 0 {
      assert code[0] in code;
      TSkipBlock(env, code[1..], m);
    }
  }

  function WithCond<V>(m: VM<V>, c: List<bool>): VM<V> { m.(cond := c) }

  lemma TExecUnderCond(env: Env, op: Op, m: VM<Val>, c: List<bool>)
    requires op != OpIf && op != OpEndIf && TExec(env, op, m).Some?
    ensures TExec(env, op, m).value.cond == m.cond && TExec(env, op, m).value.peak == m.peak
    ensures TExec(env, op, WithCond(m, c)) == Some(WithCond(TExec(env, op, m).value, c))
  {
  }

  /** A straight-line block behaves the same under any executing conditions. */
  lemma {:induction false} TRunUnderCond(env: Env, code: seq<Op>, m: VM<Val>, c: List<bool>)
    requires Straight(code) && AllTrue(m.cond) && AllTrue(c) && TRun(env, code, m).Some?
    ensures TRun(env, code, m).value.cond == m.cond
    ensures TRun(env, code, WithCond(m, c)) == Some(WithCond(TRun(env, code, m).value, c))
  {
    hide TExec;
    if |code| > 0 {
      assert code[0] in code;
      TExecUnderCond(env, code[0], m, c);
      TRunUnderCond(env, code[1..], TStep(env, code[0], m).value, c);
    }
  }

  /** `OpIf body OpEndIf` on a boolean: the body runs or it does not. */
  lemma TGate(env: Env, body: seq<Op>, m: VM<Val>)
    requires Straight(body) && AllTrue(m.cond)
    requires m.stack.Cons? && m.stack.head.Num? && m.stack.head.num in {0, 1}
    requires Size(m) <= m.peak
    requires m.stack.head.num == 1 ==> TRun(env, body, WithStack(m, m.stack.tail)).Some?
    requires m.stack.head.num == 1 ==> Size(TRun(env, body, WithStack(m, m.stack.tail)).value)
                                       <= TRun(env, body, WithStack(m, m.stack.tail)).value.peak
    ensures var inner := WithStack(m, m.stack.tail);
            TRun(env, [OpIf] + body + [OpEndIf], m)
            == Some(if m.stack.head.num == 1 then TRun(env, body, inner).value else inner)
  {
    var inner := WithStack(m, m.stack.tail);
    var c := Cons(m.stack.head.num == 1, m.cond);
    var entered := WithCond(inner, c);
    assert Note(entered) == entered;
    var code := body + [OpEndIf];
    assert ([OpIf] + body + [OpEndIf])[1..] == code;
    assert TRun(env, [OpIf] + body + [OpEndIf], m) == TRun(env, code, entered);
    var after: VM<Val>;
    if m.stack.head.num == 1 {
      TRunUnderCond(env, body, inner, c);
      TRunUnderCond(env, body, inner, inner.cond);
      after := WithCond(TRun(env, body, inner).value, c);
    } else {
      TSkipBlock(env, body, entered);
      after := entered;
    }
    TRunAppend(env, body, [OpEndIf], entered);
    assert TRun(env, [OpEndIf], after) == Some(WithCond(after, m.cond)) by {
      assert [OpEndIf][1..] == [];
    }
  }
}
