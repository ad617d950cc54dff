/**
 * The script emitter as a fold over its own primitive calls.
 *
 * `EmitAll` is what the generator does: append opcodes, move the frame, slice the witness queue. `Eval` is what the
 * calls mean: operations on a stack of named values. The bridge between the two is in Simulation.dfy.
 */
module Emission {
  import opened Arith
  import opened Bytes
  import opened Lists
  import opened Numbers
  import opened Machine
  import opened Frames

  /**
   * One call of an emitter primitive. `Gate` is `OpIf .. OpEndIf` around straight-line primitives; `Refuse` is a failed
   * generation-time check.
   */
  datatype Macro =
    | Data(bytes: Bytes)
    | Number(n: int)
    | Cat | Sha256 | Swap | Dup | Over | DropTop
    | BinaryNum(op: ArithOp)
    | Pick(slot: Slot)
    | Roll(slot: Slot)
    | RollDepth(depth: nat)
    | NameTop(slot: Slot)
    | Substr(from: nat, to: nat)
    | Num2Bin(width: nat)
    | Nip
    | Bin2Num
    | Equal
    | Refuse
    | Fetch(slot: Slot)
    | Gate(body: seq<Macro>)

  function DepthOr0(f: List<Slot>, s: Slot): nat
  {
    if Depth(f, s).Some? then Depth(f, s).value else 0
  }

  /** The opcodes one primitive appends, given the frame it is called with. */
  function PlainOps(m: Macro, f: List<Slot>): seq<Op>
  {
    match m
    case Data(b) => [Push(b)]
    case Number(n) => [PushNum(n)]
    case Cat => [OpCat]
    case Sha256 => [OpSha256]
    case Swap => [OpSwap]
    case Dup => [OpDup]
    case Over => [OpOver]
    case DropTop => [OpDrop]
    case BinaryNum(op) => [OpArith(op)]
    case Pick(s) => [PushNum(DepthOr0(f, s)), OpPick]
    case Roll(s) => [PushNum(DepthOr0(f, s)), OpRoll]
    case RollDepth(d) => [PushNum(d), OpRoll]
    case NameTop(_) => []
    case Substr(a, b) => [PushNum(a), PushNum(b), OpSubstr]
    case Num2Bin(w) => [PushNum(w), OpNum2Bin]
    case Nip => [OpNip]
    case Bin2Num => [OpBin2Num]
    case Equal => [OpEqual]
    case Refuse => []
    case Fetch(_) => []
    case Gate(_) => []
  }

  /** The frame after one primitive; None is a generation error. */
  function PlainFrame(m: Macro, f: List<Slot>): Option<List<Slot>>
  {
    match m
    case Data(_) => Some(Cons(Transient, f))
    case Number(_) => Some(Cons(Transient, f))
    case Cat => Replace(f, 2, Transient)
    case Sha256 => Replace(f, 1, Transient)
    case Swap => SwapTop(f)
    case Dup => Some(Cons(Transient, f))
    case Over => Some(Cons(Transient, f))
    case DropTop => Drop(f, 1)
    case BinaryNum(_) => Replace(f, 2, Transient)
    case Pick(s) => if Depth(f, s).Some? then Some(Cons(Transient, f)) else None
    case Roll(s) => if Depth(f, s).Some? then RollTop(f, Depth(f, s).value) else None
    case RollDepth(d) => RollTop(f, d)
    case NameTop(s) => Replace(f, 1, s)
    case Substr(_, _) => Replace(f, 1, Transient)
    case Num2Bin(w) => if 1 <= w <= 8 then Replace(f, 1, Transient) else None
    case Nip => NipTop(f)
    case Bin2Num => Replace(f, 1, Transient)
    case Equal => Replace(f, 2, Transient)
    case Refuse => None
    case Fetch(_) => None
    case Gate(_) => None
  }

  /** The largest frame the primitive records while it works. */
  function PlainNote(m: Macro, f: List<Slot>): nat
  {
    match m
    case Data(_) => Len(f) + 1
    case Number(_) => Len(f) + 1
    case Dup => Len(f) + 1
    case Over => Len(f) + 1
    case Pick(_) => Len(f) + 1
    case Roll(_) => Len(f) + 1
    case RollDepth(_) => Len(f) + 1
    case Substr(_, _) => Len(f) + 2
    case Num2Bin(_) => Len(f) + 1
    case _ => 0
  }

  /** Code, frame and recorded peak of a straight-line block. */
  datatype Block = Block(code: seq<Op>, f: List<Slot>, peak: nat)

  function PlainOne(m: Macro, b: Block): Option<Block>
  {
    match PlainFrame(m, b.f)
    case Some(f) => Some(Block(b.code + PlainOps(m, b.f), f, Max(b.peak, PlainNote(m, b.f))))
    case None => None
  }

  function PlainAll(ms: seq<Macro>, b: Block): Option<Block>
  {
    if |ms| == 0 then Some(b)
    else
      match PlainOne(ms[0], b)
      case Some(b') => PlainAll(ms[1..], b')
      case None => None
  }

  /** No fetch and no nested gate. */
  predicate AllPlain(ms: seq<Macro>)
  {
    forall i :: 0 <= i < |ms| ==> !ms[i].Fetch? && !ms[i].Gate?
  }

  // ---- the witness queue ---------------------------------------------------

  /** Which blob holds an element and its position there; None past the end. */
  function Locate(blobs: seq<nat>, index: nat): Option<(nat, nat)>
  {
    if |blobs| == 0 then None
    else if index < blobs[0] then Some((0, index))
    else
      match Locate(blobs[1..], index - blobs[0])
      case Some((b, pos)) => Some((b + 1, pos))
      case None => None
  }

  const ELEM: nat := 16

  /** The peeling loop of `slice_blob` for elements k .. 1. */
  function SlicePeel(k: nat): seq<Op>
  {
    if k == 0 then []
    else
      [OpDup, PushNum(k * ELEM), PushNum((k + 1) * ELEM), OpSubstr, OpToAltStack,
       PushNum(0), PushNum(k * ELEM), OpSubstr] + SlicePeel(k - 1)
  }

  function SliceOps(count: nat): seq<Op>
    requires count > 0
  {
    [OpFromAltStack] + SlicePeel(count - 1) + [OpToAltStack]
  }

  /** The generator's state: code so far, frame, next element, sliced elements waiting, recorded peak. */
  datatype Em = Em(code: seq<Op>, f: List<Slot>, next: nat, pending: nat, peak: nat)

  /** Slice the next blob when nothing is pending. */
  function EmitRefill(blobs: seq<nat>, e: Em): Option<Em>
  {
    if e.pending > 0 then Some(e)
    else
      match Locate(blobs, e.next)
      case None => None
      case Some((b, pos)) =>
        if pos != 0 || b >= |blobs| || blobs[b] == 0 then None
        else
          Some(Em(e.code + SliceOps(blobs[b]), e.f, e.next, blobs[b],
                  Max(e.peak, Len(e.f) + (if blobs[b] > 1 then 4 else 1))))
  }

  function EmitFetch(blobs: seq<nat>, s: Slot, e: Em): Option<Em>
  {
    match EmitRefill(blobs, e)
    case None => None
    case Some(r) =>
      Some(Em(r.code + [OpFromAltStack], Cons(s, r.f), r.next + 1, r.pending - 1, Max(r.peak, Len(r.f) + 1)))
  }

  function EmitGate(body: seq<Macro>, e: Em): Option<Em>
  {
    match Drop(e.f, 1)
    case None => None
    case Some(f) =>
      match PlainAll(body, Block([], f, e.peak))
      case None => None
      case Some(b) => Some(Em(e.code + ([OpIf] + b.code + [OpEndIf]), b.f, e.next, e.pending, b.peak))
  }

  function EmitOne(blobs: seq<nat>, m: Macro, e: Em): Option<Em>
  {
    match m
    case Fetch(s) => EmitFetch(blobs, s, e)
    case Gate(body) => EmitGate(body, e)
    case _ =>
      match PlainOne(m, Block(e.code, e.f, e.peak))
      case Some(b) => Some(Em(b.code, b.f, e.next, e.pending, b.peak))
      case None => None
  }

  function EmitAll(blobs: seq<nat>, ms: seq<Macro>, e: Em): Option<Em>
  {
    if |ms| == 0 then Some(e)
    else
      match EmitOne(blobs, ms[0], e)
      case Some(e') => EmitAll(blobs, ms[1..], e')
      case None => None
  }

  lemma {:induction false} EmitAllAppend(blobs: seq<nat>, a: seq<Macro>, b: seq<Macro>, e: Em)
    ensures EmitAll(blobs, a + b, e)
            == match EmitAll(blobs, a, e) case Some(e') => EmitAll(blobs, b, e') case None => None
  {
    hide EmitOne;
    if |a| == 0 {
      assert a + b == b;
    } else {
      assert (a + b)[1..] == a[1..] + b;
      if EmitOne(blobs, a[0], e).Some? {
        EmitAllAppend(blobs, a[1..], b, EmitOne(blobs, a[0], e).value);
      }
    }
  }

  // ---- meaning -------------------------------------------------------------

  datatype Item = Item(name: Slot, val: Val)
  type NS = List<Item>

  function Names(l: NS): (f: List<Slot>)
    ensures Len(f) == Len(l)
  {
    match l
    case Nil => Nil
    case Cons(h, t) => Cons(h.name, Names(t))
  }

  function Vals(l: NS): (v: List<Val>)
    ensures Len(v) == Len(l)
  {
    match l
    case Nil => Nil
    case Cons(h, t) => Cons(h.val, Vals(t))
  }

  /** Give the values of one stack the names of another of the same height. */
  function Zip(f: List<Slot>, v: List<Val>): NS
    requires Len(f) == Len(v)
  {
    if f.Nil? then Nil else Cons(Item(f.head, v.head), Zip(f.tail, v.tail))
  }

  /** The value last given that name. */
  function Find(l: NS, s: Slot): Option<Val>
  {
    match l
    case Nil => None
    case Cons(h, t) => if h.name == s then Some(h.val) else Find(t, s)
  }

  /** The stack without its topmost entry of that name. */
  function Remove(l: NS, s: Slot): NS
  {
    match l
    case Nil => Nil
    case Cons(h, t) => if h.name == s then t else Cons(h, Remove(t, s))
  }

  function Fresh(v: Val): Item { Item(Transient, v) }

  /** A straight-line primitive on named values; None when it would be stuck or ill-typed. */
  function DoPlain(hash: Hash, m: Macro, l: NS): Option<NS>
  {
    match m
    case Data(b) => Some(Cons(Fresh(Blob(b)), l))
    case Number(n) => Some(Cons(Fresh(Num(n)), l))
    case Cat =>
      (match l
       case Cons(Item(_, Blob(b)), Cons(Item(_, Blob(a)), t)) => Some(Cons(Fresh(Blob(a + b)), t))
       case _ => None)
    case Sha256 =>
      (match l case Cons(Item(_, Blob(a)), t) => Some(Cons(Fresh(Blob(hash(a))), t)) case _ => None)
    case Swap =>
      (match l case Cons(b, Cons(a, t)) => Some(Cons(a, Cons(b, t))) case _ => None)
    case Dup =>
      (match l case Cons(a, t) => Some(Cons(Fresh(a.val), l)) case _ => None)
    case Over =>
      (match l case Cons(b, Cons(a, t)) => Some(Cons(Fresh(a.val), l)) case _ => None)
    case DropTop =>
      (match l case Cons(a, t) => Some(t) case _ => None)
    case BinaryNum(op) =>
      (match l
       case Cons(Item(_, Num(b)), Cons(Item(_, Num(a)), t)) =>
         if InRange(a) && InRange(b) then
           (match Arithmetic(op, a, b) case Some(r) => Some(Cons(Fresh(Num(r)), t)) case None => None)
         else None
       case _ => None)
    case Pick(s) =>
      (match Find(l, s) case Some(v) => Some(Cons(Fresh(v), l)) case None => None)
    case Roll(s) =>
      (match Find(l, s) case Some(v) => Some(Cons(Item(s, v), Remove(l, s))) case None => None)
    case RollDepth(d) => if d < Len(l) then Some(Cons(Nth(l, d), Without(l, d))) else None
    case NameTop(s) =>
      (match l case Cons(a, t) => Some(Cons(Item(s, a.val), t)) case _ => None)
    case Substr(from, to) =>
      (match l
       case Cons(Item(_, Blob(x)), t) =>
         if from <= to <= |x| && InRange(to) then Some(Cons(Fresh(Blob(x[from..to])), t)) else None
       case _ => None)
    case Num2Bin(w) =>
      (match l
       case Cons(Item(_, Num(n)), t) =>
         if InRange(n) && w <= 8 then
           (match Num2BinBytes(n, w) case Some(b) => Some(Cons(Fresh(Blob(b)), t)) case None => None)
         else None
       case _ => None)
    case Nip =>
      (match l case Cons(b, Cons(a, t)) => Some(Cons(b, t)) case _ => None)
    case Bin2Num =>
      (match l
       case Cons(Item(_, Blob(b)), t) =>
         if |b| <= 8 && InRange(Decode(b)) then Some(Cons(Fresh(Num(Decode(b))), t)) else None
       case _ => None)
    case Equal =>
      (match l
       case Cons(Item(_, Blob(b)), Cons(Item(_, Blob(a)), t)) => Some(Cons(Fresh(Num(BoolNum(a == b))), t))
       case _ => None)
    case Refuse => None
    case Fetch(_) => None
    case Gate(_) => None
  }

  function DoPlainAll(hash: Hash, ms: seq<Macro>, l: NS): Option<NS>
  {
    if |ms| == 0 then Some(l)
    else
      match DoPlain(hash, ms[0], l)
      case Some(l') => DoPlainAll(hash, ms[1..], l')
      case None => None
  }

  /** Named values plus the number of signature elements fetched so far. */
  datatype St = Stuck | St(stk: NS, el: nat)

  /** Element n of a signature given by its elements. */
  function Elem(sig: seq<Bytes>, n: nat): Bytes
    requires n < |sig|
  {
    sig[n]
  }

  /** Bytes [16 n, 16 n + 16) of a byte string. */
  function Chunk(x: Bytes, n: nat): (e: Bytes)
    requires (n + 1) * ELEM <= |x|
    ensures |e| == ELEM
  {
    x[n * ELEM..(n + 1) * ELEM]
  }

  function DoGate(hash: Hash, body: seq<Macro>, st: St): St
    requires st.St?
  {
    match st.stk
    case Cons(Item(_, Num(n)), t) =>
      (match PlainAll(body, Block([], Names(t), 0))
       case Some(b) =>
         if n == 1 then
           (match DoPlainAll(hash, body, t) case Some(l) => St(l, st.el) case None => Stuck)
         else if n == 0 && Len(b.f) == Len(t) then St(Zip(b.f, Vals(t)), st.el)
         else Stuck
       case None => Stuck)
    case _ => Stuck
  }

  function Do(hash: Hash, sig: seq<Bytes>, m: Macro, st: St): St
  {
    if st.Stuck? then Stuck
    else
      match m
      case Fetch(s) =>
        if st.el < |sig| then St(Cons(Item(s, Blob(Elem(sig, st.el))), st.stk), st.el + 1) else Stuck
      case Gate(body) => DoGate(hash, body, st)
      case _ =>
        match DoPlain(hash, m, st.stk)
        case Some(l) => St(l, st.el)
        case None => Stuck
  }

  /** What a sequence of emitter calls computes. */
  function Eval(hash: Hash, sig: seq<Bytes>, ms: seq<Macro>, st: St): St
  {
    if |ms| == 0 then st else Eval(hash, sig, ms[1..], Do(hash, sig, ms[0], st))
  }

  lemma {:induction false} EvalAppend(hash: Hash, sig: seq<Bytes>, a: seq<Macro>, b: seq<Macro>, st: St)
    ensures Eval(hash, sig, a + b, st) == Eval(hash, sig, b, Eval(hash, sig, a, st))
  {
    hide Do;
    if |a| == 0 {
      assert a + b == b;
    } else {
      assert (a + b)[1..] == a[1..] + b;
      EvalAppend(hash, sig, a[1..], b, Do(hash, sig, a[0], st));
    }
  }
}
