/** The binding digest: the host serializer, the script that rebuilds it from introspection, and why they agree. */
module Binding {
  import opened Arith
  import opened Bytes
  import opened Lists
  import opened Numbers
  import opened Machine

  const MAX_SPK_LEN: nat := 0x7FFF
  const MAX_AMOUNT: nat := 0x7FFF_FFFF_FFFF_FFFF
  const MAX_TX_VERSION: nat := 0x7FFF
  const MAX_OUTPOINT_INDEX: nat := 0x7FFF_FFFF
  const MAX_OUTPUT_COUNT: nat := 0x7F

  /** The transaction fields the digest commits to. */
  datatype SpendView = SpendView(txVersion: nat, txid: Bytes, index: nat, outputs: seq<TxOutput>)

  /** Values the host types can hold. */
  predicate Typed(v: SpendView)
  {
    v.txVersion < 0x1_0000 && |v.txid| == 32 && v.index < 0x1_0000_0000 && TypedOutputs(v.outputs)
  }

  predicate TypedOutputs(outs: seq<TxOutput>)
  {
    forall o :: o in outs ==> o.amount < 0x1_0000_0000_0000_0000 && o.spkVersion < 0x1_0000
  }

  predicate OutputAccepted(o: TxOutput)
  {
    o.amount <= MAX_AMOUNT && 2 + |o.script| <= MAX_SPK_LEN
  }

  predicate HeaderAccepted(v: SpendView)
  {
    v.txVersion <= MAX_TX_VERSION && v.index <= MAX_OUTPOINT_INDEX && |v.outputs| <= MAX_OUTPUT_COUNT
  }

  predicate OutputsAccepted(outs: seq<TxOutput>)
  {
    forall o :: o in outs ==> OutputAccepted(o)
  }

  predicate Accepted(v: SpendView)
  {
    |v.outputs| > 0 && HeaderAccepted(v) && OutputsAccepted(v.outputs)
  }

  function Header(version: nat, txid: Bytes, index: nat, count: nat): Bytes
  {
    ToLe(version, 2) + txid + ToLe(index, 4) + ToLe(count, 1)
  }

  /** Amount, length and wire form of one output. */
  function Record(o: TxOutput): Bytes
  {
    ToLe(o.amount, 8) + ToLe(2 + |o.script|, 2) + SpkWireBytes(o.spkVersion, o.script)
  }

  function Records(outs: seq<TxOutput>): Bytes
  {
    if |outs| == 0 then [] else Records(outs[..|outs| - 1]) + Record(outs[|outs| - 1])
  }

  /** The canonical preimage; None is a refusal. */
  function Preimage(v: SpendView): Option<Bytes>
  {
    if Accepted(v) then Some(Header(v.txVersion, v.txid, v.index, |v.outputs|) + Records(v.outputs)) else None
  }

  /** `binding_preimage`: refuse as soon as a bound fails, extend the buffer otherwise. */
  method BindingPreimage(v: SpendView) returns (r: Option<Bytes>)
    ensures r == Preimage(v)
  {
    if |v.outputs| == 0 || |v.outputs| > MAX_OUTPUT_COUNT || v.txVersion > MAX_TX_VERSION
       || v.index > MAX_OUTPOINT_INDEX {
      return None;
    }
    hide ToLe;
    var out := ToLe(v.txVersion, 2);
    out := out + v.txid;
    out := out + ToLe(v.index, 4);
    out := out + ToLe(|v.outputs|, 1);
    var i := 0;
    while i < |v.outputs|
      invariant 0 <= i <= |v.outputs|
      invariant OutputsAccepted(v.outputs[..i])
      invariant out == Header(v.txVersion, v.txid, v.index, |v.outputs|) + Records(v.outputs[..i])
    {
      var output := v.outputs[i];
      var spk := SpkWireBytes(output.spkVersion, output.script);
      if output.amount > MAX_AMOUNT || |spk| > MAX_SPK_LEN {
        assert output in v.outputs;
        return None;
      }
      assert v.outputs[..i + 1][..i] == v.outputs[..i];
      out := out + ToLe(output.amount, 8);
      out := out + ToLe(|spk|, 2);
      out := out + spk;
      i := i + 1;
    }
    assert v.outputs[..i] == v.outputs;
    return Some(out);
  }

  // ---- reading it back -----------------------------------------------------

  function LeNat(x: Bytes): nat { LeValue(x) }

  lemma {:induction false} LeToLe(n: nat, w: nat)
    requires n < Pow2(8 * w)
    ensures LeNat(ToLe(n, w)) == n
  {
    if w > 0 {
      Pow2Eight();
      Pow2Add(8, 8 * (w - 1));
      DivLess(n, 256, Pow2(8 * (w - 1)));
      LeToLe(n / 256, w - 1);
      DivBounds(n, 256);
      assert ToLe(n, w)[1..] == ToLe(n / 256, w - 1);
    }
  }

  /** One record off the front: the output and what follows. */
  function ParseRecord(x: Bytes): Option<(TxOutput, Bytes)>
  {
    if |x| < 10 then None
    else
      var len := LeNat(x[8..10]);
      if len < 2 || |x| < 10 + len then None
      else Some((TxOutput(LeNat(x[..8]), Be(x[10..12]), x[12..10 + len]), x[10 + len..]))
  }

  /** Exactly n records, nothing after them. */
  function ParseRecords(x: Bytes, n: nat): Option<seq<TxOutput>>
    decreases n
  {
    if n == 0 then if |x| == 0 then Some([]) else None
    else
      match ParseRecord(x)
      case None => None
      case Some((o, rest)) =>
        match ParseRecords(rest, n - 1)
        case Some(outs) => Some([o] + outs)
        case None => None
  }

  /** The layout read back, field by field. */
  function Parse(x: Bytes): Option<SpendView>
  {
    if |x| < 39 then None
    else
      match ParseRecords(x[39..], x[38])
      case Some(outs) => Some(SpendView(LeNat(x[..2]), x[2..34], LeNat(x[34..38]), outs))
      case None => None
  }

  lemma FieldBounds()
    ensures Pow2(8) == 256 && Pow2(16) == 0x1_0000 && Pow2(32) == 0x1_0000_0000 && Pow2(64) == 0x1_0000_0000_0000_0000
    ensures Pow2(7) == 128 && Pow2(15) == 0x8000 && Pow2(31) == 0x8000_0000 && Pow2(63) == 0x8000_0000_0000_0000
  {
    hide Pow2;
    Pow2Table();
    Pow2Eight();
    Pow2Add(8, 8);
    Pow2Add(16, 16);
    Pow2Add(32, 31);
    Pow2Add(32, 32);
  }

  lemma ParseOneRecord(o: TxOutput, rest: Bytes)
    requires OutputAccepted(o) && o.spkVersion < 0x1_0000
    ensures ParseRecord(Record(o) + rest) == Some((o, rest))
  {
    hide Pow2;
    FieldBounds();
    var x := Record(o) + rest;
    var len := 2 + |o.script|;
    LeToLe(o.amount, 8);
    LeToLe(len, 2);
    BeToBe(o.spkVersion, 2);
    assert x[..8] == ToLe(o.amount, 8);
    assert x[8..10] == ToLe(len, 2);
    assert x[10..12] == ToBe(o.spkVersion, 2);
    assert x[12..10 + len] == o.script;
    assert x[10 + len..] == rest;
  }

  lemma {:induction false} RecordsFront(outs: seq<TxOutput>)
    requires |outs| > 0
    ensures Records(outs) == Record(outs[0]) + Records(outs[1..])
  {
    hide *;
    RecordsLast(outs);
    if |outs| == 1 {
      NoRecords();
      assert outs[..0] == [] && outs[1..] == [];
      assert [] + Record(outs[0]) == Record(outs[0]) + [];
    } else {
      var n := |outs| - 1;
      RecordsFront(outs[..n]);
      RecordsLast(outs[1..]);
      assert outs[..n][1..] == outs[1..][..n - 1];
    }
  }

  lemma NoRecords()
    ensures Records([]) == []
  {
  }

  lemma RecordsLast(outs: seq<TxOutput>)
    requires |outs| > 0
    ensures Records(outs) == Records(outs[..|outs| - 1]) + Record(outs[|outs| - 1])
  {
    hide Record;
  }

  lemma {:induction false} ParseAllRecords(outs: seq<TxOutput>)
    requires OutputsAccepted(outs) && TypedOutputs(outs)
    ensures ParseRecords(Records(outs), |outs|) == Some(outs)
  {
    hide Record, ParseRecord, OutputAccepted;
    if |outs| > 0 {
      RecordsFront(outs);
      assert outs[0] in outs;
      ParseOneRecord(outs[0], Records(outs[1..]));
      ParseAllRecords(outs[1..]);
      assert [outs[0]] + outs[1..] == outs;
    }
  }

  /** The parser inverts the serializer. */
  lemma ParsePreimage(v: SpendView)
    requires Typed(v) && Accepted(v)
    ensures Parse(Preimage(v).value) == Some(v)
  {
    HeaderFields(v.txVersion, v.txid, v.index, |v.outputs|, Records(v.outputs));
    ParseAllRecords(v.outputs);
  }

  lemma HeaderFields(version: nat, txid: Bytes, index: nat, count: nat, rest: Bytes)
    requires version < 0x1_0000 && |txid| == 32 && index < 0x1_0000_0000 && count < 256
    ensures var x := Header(version, txid, index, count) + rest;
            && |x| >= 39 && LeNat(x[..2]) == version && x[2..34] == txid && LeNat(x[34..38]) == index
            && x[38] == count && x[39..] == rest
  {
    hide Pow2;
    FieldBounds();
    var x := Header(version, txid, index, count) + rest;
    LeToLe(version, 2);
    LeToLe(index, 4);
    assert x[..2] == ToLe(version, 2);
    assert x[34..38] == ToLe(index, 4);
  }

  /** Two accepted views with one preimage are the same spend. */
  lemma PreimageInjective(v: SpendView, w: SpendView)
    requires Typed(v) && Typed(w) && Accepted(v) && Accepted(w)
    requires Preimage(v) == Preimage(w)
    ensures v == w
  {
    ParsePreimage(v);
    ParsePreimage(w);
  }

  // ---- the layout by its bytes ---------------------------------------------

  /** What is refused: no output or more than 127, and any field too large for its width's sign-magnitude range. */
  lemma Refusals(v: SpendView)
    ensures Preimage(v).None?
            <==> || |v.outputs| == 0 || |v.outputs| > 127 || v.txVersion > 0x7FFF || v.index > 0x7FFF_FFFF
                 || exists o :: o in v.outputs && (o.amount > 0x7FFF_FFFF_FFFF_FFFF || 2 + |o.script| > 0x7FFF)
  {
    if v.outputs != [] && HeaderAccepted(v) && !OutputsAccepted(v.outputs) {
      var o :| o in v.outputs && !OutputAccepted(o);
    }
  }

  /** Two and four bytes, the first the least significant. */
  function Two(a: int, b: int): int { a + 0x100 * b }

  function Four(a: int, b: int, c: int, d: int): int { Two(a, b) + 0x1_0000 * Two(c, d) }

  lemma LittleTwo(n: nat)
    requires n < 0x1_0000
    ensures Two(ToLe(n, 2)[0], ToLe(n, 2)[1]) == n
  {
    assert ToLe(n, 2) == [n % 256] + ToLe(n / 256, 1);
    assert ToLe(n / 256, 1)[0] == n / 256 % 256;
  }

  lemma LittleFour(n: nat)
    requires n < 0x1_0000_0000
    ensures var x := ToLe(n, 4);
            Four(x[0], x[1], x[2], x[3]) == n
  {
    assert ToLe(n, 4) == [n % 256] + ToLe(n / 256, 3);
    assert ToLe(n / 256, 3) == [n / 256 % 256] + ToLe(n / 256 / 256, 2);
    LittleTwo(n / 256 / 256);
  }

  /** The fixed part, little-endian: version, txid as it is, index, and one byte of output count; then every record. */
  lemma HeaderBytes(v: SpendView)
    requires Typed(v) && Accepted(v)
    ensures Preimage(v).Some? && |Preimage(v).value| >= 39
    ensures var x := Preimage(v).value;
            && Two(x[0], x[1]) == v.txVersion && x[2..34] == v.txid
            && Four(x[34], x[35], x[36], x[37]) == v.index
            && x[38] == |v.outputs| && x[39..] == Records(v.outputs)
  {
    hide ToLe, Records;
    LittleTwo(v.txVersion);
    LittleFour(v.index);
    assert ToLe(|v.outputs|, 1) == [|v.outputs|] by {
      OneByte(|v.outputs|);
    }
    var x := Preimage(v).value;
    assert x[..2] == ToLe(v.txVersion, 2) && x[34..38] == ToLe(v.index, 4);
  }

  lemma OneByte(n: nat)
    requires n < 256
    ensures ToLe(n, 1) == [n]
  {
    assert ToLe(n / 256, 0) == [];
  }

  /**
   * One record: eight little-endian bytes of amount, two of the public key script's length, two big-endian bytes of its
   * version, the script.
   */
  lemma RecordBytes(o: TxOutput)
    requires OutputAccepted(o) && o.spkVersion < 0x1_0000
    ensures |Record(o)| == 12 + |o.script|
    ensures var x := Record(o);
            && Four(x[0], x[1], x[2], x[3]) + 0x1_0000_0000 * Four(x[4], x[5], x[6], x[7]) == o.amount
            && Two(x[8], x[9]) == 2 + |o.script| && Two(x[11], x[10]) == o.spkVersion && x[12..] == o.script
  {
    FieldWidths();
    hide *;
    LittleEight(o.amount);
    LittleTwo(2 + |o.script|);
    BigTwo(o.spkVersion);
    RecordSlices(o);
  }

  lemma FieldWidths()
    ensures forall o :: OutputAccepted(o) ==> o.amount < 0x1_0000_0000_0000_0000 && 2 + |o.script| < 0x1_0000
  {
  }

  lemma RecordSlices(o: TxOutput)
    ensures |Record(o)| == 12 + |o.script| && Record(o)[12..] == o.script
    ensures forall i :: 0 <= i < 8 ==> Record(o)[i] == ToLe(o.amount, 8)[i]
    ensures Record(o)[8] == ToLe(2 + |o.script|, 2)[0] && Record(o)[9] == ToLe(2 + |o.script|, 2)[1]
    ensures Record(o)[10] == ToBe(o.spkVersion, 2)[0] && Record(o)[11] == ToBe(o.spkVersion, 2)[1]
  {
    hide ToLe, ToBe;
  }

  lemma LittleEight(n: nat)
    requires n < 0x1_0000_0000_0000_0000
    ensures var x := ToLe(n, 8);
            Four(x[0], x[1], x[2], x[3]) + 0x1_0000_0000 * Four(x[4], x[5], x[6], x[7]) == n
  {
    var q := n / 0x1_0000_0000;
    FieldBounds();
    LittleSplit(n, 4, 4, 0x1_0000_0000, q, n % 0x1_0000_0000);
    LittleFour(n % 0x1_0000_0000);
    LittleFour(q);
    hide ToLe, Pow2;
    var x := ToLe(n, 8);
    assert x[..4] == ToLe(n % 0x1_0000_0000, 4) && x[4..] == ToLe(q, 4);
  }

  /** The low a bytes, then the rest. */
  lemma {:induction false} LittleSplit(n: nat, a: nat, b: nat, all: nat, q: nat, r: nat)
    requires all == Pow2(8 * a) && n == q * all + r && r < all
    ensures ToLe(n, a + b) == ToLe(r, a) + ToLe(q, b)
  {
    if a == 0 {
      NoBytes(n, all, q, r);
    } else {
      hide *;
      var p := Pow2(8 * (a - 1));
      OneByteMore(a);
      LowDigit(n, all, p, q, r);
      LittleSplit(n / 256, a - 1, b, p, q, r / 256);
      FirstOff(n, a + b, a - 1 + b);
      FirstOff(r, a, a - 1);
      assert [n % 256] + (ToLe(r / 256, a - 1) + ToLe(q, b)) == [n % 256] + ToLe(r / 256, a - 1) + ToLe(q, b);
    }
  }

  lemma OneByteMore(a: nat)
    requires a > 0
    ensures Pow2(8 * a) == 256 * Pow2(8 * (a - 1))
  {
    Pow2Eight();
    Pow2Add(8, 8 * (a - 1));
    hide Pow2;
  }

  lemma FirstOff(n: nat, w: nat, less: nat)
    requires w == less + 1
    ensures ToLe(n, w) == [n % 256] + ToLe(n / 256, less)
  {
  }

  lemma NoBytes(n: nat, all: nat, q: nat, r: nat)
    requires all == Pow2(0) && n == q * all + r && r < all
    ensures n == q && r == 0
  {
  }

  lemma LowDigit(n: nat, all: nat, p: nat, q: nat, r: nat)
    requires n == q * all + r && r < all && all == 256 * p
    ensures n / 256 == q * p + r / 256 && n % 256 == r % 256 && r / 256 < p
  {
    assert n == (q * p) * 256 + r;
    DivUnique(n, 256, q * p + r / 256, r % 256);
  }

  lemma BigTwo(n: nat)
    requires n < 0x1_0000
    ensures Two(ToBe(n, 2)[1], ToBe(n, 2)[0]) == n
  {
    assert ToBe(n, 2) == ToBe(n / 256, 1) + [n % 256];
    assert ToBe(n / 256, 1) == ToBe(n / 256 / 256, 0) + [n / 256 % 256];
    assert ToBe(n / 256 / 256, 0) == [];
  }

  // ---- the script ----------------------------------------------------------

  /** A number as a fixed-width field on the end of the accumulator. */
  function FieldOps(width: nat): seq<Op> { [PushNum(width), OpNum2Bin, OpCat] }

  function HeaderOps(): seq<Op>
  {
    [OpTxVersion, PushNum(2), OpNum2Bin]
    + [OpTxInputIndex, OpOutpointTxId, OpCat]
    + ([OpTxInputIndex, OpOutpointIndex] + FieldOps(4))
    + ([OpTxOutputCount] + FieldOps(1))
  }

  function OutputOps(i: nat): seq<Op>
  {
    ([PushNum(i), OpTxOutputAmount] + FieldOps(8))
    + ([PushNum(i), OpTxOutputSpkLen] + FieldOps(2))
    + [PushNum(i), OpTxOutputSpk, OpCat]
  }

  function OutputsOps(n: nat): seq<Op>
  {
    if n == 0 then [] else OutputsOps(n - 1) + OutputOps(n - 1)
  }

  /** `emit_binding_digest`: None is a refusal to generate. */
  function BindingOps(count: nat): Option<seq<Op>>
  {
    if 0 < count <= MAX_OUTPUT_COUNT then Some(HeaderOps() + OutputsOps(count) + [OpSha256]) else None
  }

  /** `emit_binding_digest`, in a loop over outputs. */
  method EmitBindingDigest(count: nat) returns (r: Option<seq<Op>>)
    ensures r == BindingOps(count)
  {
    if !(0 < count <= MAX_OUTPUT_COUNT) {
      return None;
    }
    var w := HeaderOps();
    var i := 0;
    while i < count
      invariant 0 <= i <= count && w == HeaderOps() + OutputsOps(i)
    {
      w := w + [PushNum(i), OpTxOutputAmount, PushNum(8), OpNum2Bin, OpCat];
      w := w + [PushNum(i), OpTxOutputSpkLen, PushNum(2), OpNum2Bin, OpCat];
      w := w + [PushNum(i), OpTxOutputSpk, OpCat];
      i := i + 1;
    }
    return Some(w + [OpSha256]);
  }

  // ---- running it ----------------------------------------------------------

  lemma RunOne(env: Env, op: Op, m: VM<Bytes>)
    ensures Run(env, [op], m) == Step(env, op, m)
  {
    hide Step;
    assert [op][1..] == [];
  }

  /** The machine a successful run ends in. */
  function End(env: Env, code: seq<Op>, m: VM<Bytes>): VM<Bytes>
  {
    match Run(env, code, m) case Some(r) => r case None => m
  }

  /** A machine in an executing branch whose peak has been recorded. */
  predicate Live(m: VM<Bytes>) { AllTrue(m.cond) && Size(m) <= m.peak }

  /**
   * The code succeeds exactly when `ok`, and then has only replaced the stack, never holding more than `bound` items
   * on both stacks beyond what was recorded before.
   */
  ghost predicate Yields(env: Env, code: seq<Op>, m: VM<Bytes>, ok: bool, stk: List<Bytes>, bound: nat)
  {
    if !ok then Run(env, code, m).None?
    else
      && Run(env, code, m).Some?
      && var r := Run(env, code, m).value;
      && r == m.(stack := stk, peak := r.peak) && Size(r) <= r.peak && m.peak <= r.peak <= Max(m.peak, bound)
  }

  lemma YieldsOne(env: Env, op: Op, m: VM<Bytes>, ok: bool, stk: List<Bytes>, bound: nat)
    requires Live(m)
    requires if ok then Exec(env, op, m) == Some(WithStack(m, stk)) else Exec(env, op, m).None?
    requires Len(stk) + Len(m.alt) <= bound
    ensures Yields(env, [op], m, ok, stk, bound)
  {
    hide Exec;
    RunOne(env, op, m);
  }

  lemma YieldsSeq(env: Env, c1: seq<Op>, c2: seq<Op>, m: VM<Bytes>, ok1: bool, s1: List<Bytes>, ok2: bool,
                  s2: List<Bytes>, bound: nat)
    requires Live(m) && Yields(env, c1, m, ok1, s1, bound)
    requires ok1 ==> Yields(env, c2, End(env, c1, m), ok2, s2, bound)
    ensures Yields(env, c1 + c2, m, ok1 && ok2, s2, bound)
  {
    hide Run;
    RunSeq(env, c1, c2, m);
  }

  lemma YieldsLive(env: Env, code: seq<Op>, m: VM<Bytes>, stk: List<Bytes>, bound: nat)
    requires Live(m) && Yields(env, code, m, true, stk, bound)
    ensures var r := End(env, code, m);
            Live(r) && r.stack == stk && r.alt == m.alt
  {
  }

  /** Fixed-width fields refuse exactly what needs the sign bit. */
  lemma FieldFits(n: nat, w: nat)
    requires InRange(n) && 1 <= w <= 8
    ensures Num2BinBytes(n, w) == if n < Pow2(8 * w - 1) then Some(ToLe(n, w)) else None
  {
    hide Pow2;
  }

  lemma Num2BinYields(env: Env, n: nat, w: nat, m: VM<Bytes>, s: List<Bytes>, bound: nat)
    requires Live(m) && InRange(n) && 1 <= w <= 8 && m.stack == Cons(MinEnc(n), s)
    requires Len(s) + 2 + Len(m.alt) <= bound
    ensures Yields(env, [PushNum(w)] + [OpNum2Bin], m, n < Pow2(8 * w - 1), Cons(ToLe(n, w), s), bound)
  {
    hide Pow2, MinEnc, Num2BinBytes, AsNum, Yields, Run, ToLe, End;
    AsNumMinEnc(n);
    AsNumMinEnc(w);
    FieldFits(n, w);
    var s1 := Cons(MinEnc(w), m.stack);
    YieldsOne(env, PushNum(w), m, true, s1, bound);
    YieldsLive(env, [PushNum(w)], m, s1, bound);
    var m1 := End(env, [PushNum(w)], m);
    YieldsOne(env, OpNum2Bin, m1, n < Pow2(8 * w - 1), Cons(ToLe(n, w), s), bound);
    YieldsSeq(env, [PushNum(w)], [OpNum2Bin], m, true, s1, n < Pow2(8 * w - 1), Cons(ToLe(n, w), s), bound);
  }

  lemma FieldYields(env: Env, n: nat, w: nat, m: VM<Bytes>, acc: Bytes, s: List<Bytes>, bound: nat)
    requires Live(m) && InRange(n) && 1 <= w <= 8 && m.stack == Cons(MinEnc(n), Cons(acc, s))
    requires Len(s) + 3 + Len(m.alt) <= bound
    ensures Yields(env, FieldOps(w), m, n < Pow2(8 * w - 1), Cons(acc + ToLe(n, w), s), bound)
  {
    hide Pow2, MinEnc, Num2BinBytes, AsNum, Yields, Run, ToLe, End;
    var ok := n < Pow2(8 * w - 1);
    var s1 := Cons(ToLe(n, w), Cons(acc, s));
    var s2 := Cons(acc + ToLe(n, w), s);
    Num2BinYields(env, n, w, m, Cons(acc, s), bound);
    var c1 := [PushNum(w)] + [OpNum2Bin];
    if ok {
      YieldsLive(env, c1, m, s1, bound);
      YieldsOne(env, OpCat, End(env, c1, m), true, s2, bound);
    }
    YieldsSeq(env, c1, [OpCat], m, ok, s1, true, s2, bound);
    assert FieldOps(w) == c1 + [OpCat];
  }

  // ---- introspection -------------------------------------------------------

  /** One output's three fields, as the script reads them. */
  function TheView(tx: Tx): SpendView
    requires tx.current < |tx.inputs|
  {
    SpendView(tx.version, tx.inputs[tx.current].txid, tx.inputs[tx.current].index, tx.outputs)
  }

  /** An index operand within bounds is read back; one past the end aborts. */
  lemma IndexOperand(n: nat, bound: nat)
    ensures AsIndex(MinEnc(n), bound) == if n < bound then Some(n) else None
  {
    DecodeMinEnc(n);
  }

  /** Push an index, read a numeric property of that output, append it as a field. */
  lemma PropertyYields(env: Env, i: nat, op: Op, n: nat, w: nat, limit: nat, m: VM<Bytes>, acc: Bytes, s: List<Bytes>,
                       bound: nat)
    requires op in {OpTxOutputAmount, OpTxOutputSpkLen}
    requires i < |env.tx.outputs| ==>
               n == if op == OpTxOutputAmount then env.tx.outputs[i].amount else 2 + |env.tx.outputs[i].script|
    requires 1 <= w <= 8 && limit + 1 == Pow2(8 * w - 1) && limit < NumLimit
    requires Live(m) && m.stack == Cons(acc, s) && Len(s) + 3 + Len(m.alt) <= bound
    ensures Yields(env, [PushNum(i), op] + FieldOps(w), m, i < |env.tx.outputs| && n <= limit,
                   Cons(acc + ToLe(n, w), s), bound)
  {
    hide Pow2, MinEnc, Num2BinBytes, AsNum, AsIndex, Yields, Run, ToLe, End, FieldOps, SpkWireBytes;
    IndexOperand(i, |env.tx.outputs|);
    var s1 := Cons(MinEnc(i), m.stack);
    var s2 := Cons(MinEnc(n), m.stack);
    var ok := i < |env.tx.outputs| && InRange(n);
    YieldsOne(env, PushNum(i), m, true, s1, bound);
    YieldsLive(env, [PushNum(i)], m, s1, bound);
    YieldsOne(env, op, End(env, [PushNum(i)], m), ok, s2, bound);
    YieldsSeq(env, [PushNum(i)], [op], m, true, s1, ok, s2, bound);
    assert [PushNum(i)] + [op] == [PushNum(i), op];
    var s3 := Cons(acc + ToLe(n, w), s);
    if ok {
      YieldsLive(env, [PushNum(i), op], m, s2, bound);
      FieldYields(env, n, w, End(env, [PushNum(i), op], m), acc, s, bound);
    }
    YieldsSeq(env, [PushNum(i), op], FieldOps(w), m, ok, s2, n < Pow2(8 * w - 1), s3, bound);
  }

  lemma ScriptYields(env: Env, i: nat, m: VM<Bytes>, acc: Bytes, s: List<Bytes>, bound: nat)
    requires i < |env.tx.outputs| && Live(m) && m.stack == Cons(acc, s) && Len(s) + 3 + Len(m.alt) <= bound
    ensures var o := env.tx.outputs[i];
            Yields(env, [PushNum(i), OpTxOutputSpk, OpCat], m, true,
                   Cons(acc + SpkWireBytes(o.spkVersion, o.script), s), bound)
  {
    hide MinEnc, AsIndex, Yields, Run, End, SpkWireBytes;
    var o := env.tx.outputs[i];
    var wire := SpkWireBytes(o.spkVersion, o.script);
    IndexOperand(i, |env.tx.outputs|);
    var s1, s2, s3 := Cons(MinEnc(i), m.stack), Cons(wire, m.stack), Cons(acc + wire, s);
    YieldsOne(env, PushNum(i), m, true, s1, bound);
    YieldsLive(env, [PushNum(i)], m, s1, bound);
    YieldsOne(env, OpTxOutputSpk, End(env, [PushNum(i)], m), true, s2, bound);
    YieldsSeq(env, [PushNum(i)], [OpTxOutputSpk], m, true, s1, true, s2, bound);
    var c := [PushNum(i)] + [OpTxOutputSpk];
    YieldsLive(env, c, m, s2, bound);
    YieldsOne(env, OpCat, End(env, c, m), true, s3, bound);
    YieldsSeq(env, c, [OpCat], m, true, s2, true, s3, bound);
    assert c + [OpCat] == [PushNum(i), OpTxOutputSpk, OpCat];
  }

  /** Output i: appended when it exists and its fields fit, an abort otherwise. */
  lemma OutputYields(env: Env, i: nat, m: VM<Bytes>, acc: Bytes, s: List<Bytes>, bound: nat)
    requires Live(m) && m.stack == Cons(acc, s) && Len(s) + 3 + Len(m.alt) <= bound
    ensures var there := i < |env.tx.outputs|;
            Yields(env, OutputOps(i), m, there && OutputAccepted(env.tx.outputs[i]),
                   if there then Cons(acc + Record(env.tx.outputs[i]), s) else Nil, bound)
  {
    hide Yields, Run, End, FieldOps, ToLe, SpkWireBytes, Pow2;
    FieldBounds();
    var a, b, c := [PushNum(i), OpTxOutputAmount] + FieldOps(8), [PushNum(i), OpTxOutputSpkLen] + FieldOps(2),
                   [PushNum(i), OpTxOutputSpk, OpCat];
    assert OutputOps(i) == a + b + c;
    var there := i < |env.tx.outputs|;
    var o := if there then env.tx.outputs[i] else TxOutput(0, 0, []);
    var len := 2 + |o.script|;
    var ok1 := there && o.amount <= MAX_AMOUNT;
    var x1 := acc + ToLe(o.amount, 8);
    PropertyYields(env, i, OpTxOutputAmount, o.amount, 8, MAX_AMOUNT, m, acc, s, bound);
    var ok2 := there && len <= MAX_SPK_LEN;
    var x2 := x1 + ToLe(len, 2);
    if ok1 {
      YieldsLive(env, a, m, Cons(x1, s), bound);
      PropertyYields(env, i, OpTxOutputSpkLen, len, 2, MAX_SPK_LEN, End(env, a, m), x1, s, bound);
    }
    YieldsSeq(env, a, b, m, ok1, Cons(x1, s), ok2, Cons(x2, s), bound);
    var x3 := x2 + SpkWireBytes(o.spkVersion, o.script);
    if ok1 && ok2 {
      YieldsLive(env, a + b, m, Cons(x2, s), bound);
      ScriptYields(env, i, End(env, a + b, m), x2, s, bound);
    }
    YieldsSeq(env, a + b, c, m, ok1 && ok2, Cons(x2, s), true, Cons(x3, s), bound);
    if there {
      assert x3 == acc + Record(o);
    } else {
      YieldsNothing(env, OutputOps(i), m, Cons(x3, s), Nil, bound);
    }
  }

  lemma YieldsNothing(env: Env, code: seq<Op>, m: VM<Bytes>, s1: List<Bytes>, s2: List<Bytes>, bound: nat)
    requires Yields(env, code, m, false, s1, bound)
    ensures Yields(env, code, m, false, s2, bound)
  {
  }

  lemma {:induction false} OutputsYields(env: Env, n: nat, m: VM<Bytes>, acc: Bytes, s: List<Bytes>, bound: nat)
    requires Live(m) && m.stack == Cons(acc, s) && Len(s) + 3 + Len(m.alt) <= bound
    ensures var there := n <= |env.tx.outputs|;
            Yields(env, OutputsOps(n), m, there && OutputsAccepted(env.tx.outputs[..n]),
                   if there then Cons(acc + Records(env.tx.outputs[..n]), s) else Nil, bound)
  {
    hide *;
    var outs := env.tx.outputs;
    if n == 0 {
      NothingYields(env, m, bound);
      NoOutputs(outs, acc);
    } else {
      OutputsYields(env, n - 1, m, acc, s, bound);
      var there := n - 1 <= |outs|;
      var ok1 := there && OutputsAccepted(outs[..n - 1]);
      var x1 := if there then acc + Records(outs[..n - 1]) else acc;
      var s1 := if there then Cons(x1, s) else Nil;
      if ok1 {
        YieldsLive(env, OutputsOps(n - 1), m, s1, bound);
        OutputYields(env, n - 1, End(env, OutputsOps(n - 1), m), x1, s, bound);
      }
      var now := n - 1 < |outs|;
      var s2 := if now then Cons(x1 + Record(outs[n - 1]), s) else Nil;
      YieldsSeq(env, OutputsOps(n - 1), OutputOps(n - 1), m, ok1, s1, now && OutputAccepted(outs[n - 1]), s2, bound);
      OutputsOpsSnoc(n);
      if now {
        LastOutput(outs, n);
        assert x1 + Record(outs[n - 1]) == acc + Records(outs[..n]);
      }
    }
  }

  lemma NoOutputs(outs: seq<TxOutput>, acc: Bytes)
    ensures OutputsOps(0) == [] && OutputsAccepted(outs[..0]) && acc + Records(outs[..0]) == acc
  {
    assert outs[..0] == [] && acc + [] == acc;
  }

  lemma OutputsOpsSnoc(n: nat)
    requires n > 0
    ensures OutputsOps(n) == OutputsOps(n - 1) + OutputOps(n - 1)
  {
    hide OutputOps;
  }

  lemma LastOutput(outs: seq<TxOutput>, n: nat)
    requires 0 < n <= |outs|
    ensures Records(outs[..n]) == Records(outs[..n - 1]) + Record(outs[n - 1])
    ensures OutputsAccepted(outs[..n]) <==> OutputsAccepted(outs[..n - 1]) && OutputAccepted(outs[n - 1])
  {
    hide OutputAccepted, Record;
    assert outs[..n] == outs[..n - 1] + [outs[n - 1]];
    assert outs[..n][..n - 1] == outs[..n - 1];
  }

  lemma NothingYields(env: Env, m: VM<Bytes>, bound: nat)
    requires Live(m)
    ensures Yields(env, [], m, true, m.stack, bound)
  {
  }

  /** A numeric introspection opcode followed by its field. */
  lemma NumberFieldYields(env: Env, op: seq<Op>, n: nat, w: nat, limit: nat, m: VM<Bytes>, acc: Bytes, s: List<Bytes>,
                          bound: nat)
    requires Live(m) && m.stack == Cons(acc, s) && Len(s) + 3 + Len(m.alt) <= bound
    requires Yields(env, op, m, InRange(n), Cons(MinEnc(n), m.stack), bound)
    requires 1 <= w <= 8 && limit + 1 == Pow2(8 * w - 1) && limit < NumLimit
    ensures Yields(env, op + FieldOps(w), m, n <= limit, Cons(acc + ToLe(n, w), s), bound)
  {
    hide Yields, FieldOps, MinEnc, Pow2, ToLe, End;
    if InRange(n) {
      YieldsLive(env, op, m, Cons(MinEnc(n), m.stack), bound);
      FieldYields(env, n, w, End(env, op, m), acc, s, bound);
    }
    YieldsSeq(env, op, FieldOps(w), m, InRange(n), Cons(MinEnc(n), m.stack), n < Pow2(8 * w - 1),
              Cons(acc + ToLe(n, w), s), bound);
  }

  /** The input being verified exists and its position is a number the engine can push. */
  predicate Spending(tx: Tx)
  {
    tx.current < |tx.inputs| && InRange(tx.current) && Typed(TheView(tx))
  }

  lemma VersionYields(env: Env, m: VM<Bytes>, bound: nat)
    requires Spending(env.tx) && Live(m) && Len(m.stack) + 2 + Len(m.alt) <= bound
    ensures Yields(env, [OpTxVersion, PushNum(2), OpNum2Bin], m, env.tx.version <= MAX_TX_VERSION,
                   Cons(ToLe(env.tx.version, 2), m.stack), bound)
  {
    hide Yields, MinEnc, Pow2, ToLe, End;
    FieldBounds();
    var n := env.tx.version;
    var s1 := Cons(MinEnc(n), m.stack);
    YieldsOne(env, OpTxVersion, m, true, s1, bound);
    YieldsLive(env, [OpTxVersion], m, s1, bound);
    Num2BinYields(env, n, 2, End(env, [OpTxVersion], m), m.stack, bound);
    YieldsSeq(env, [OpTxVersion], [PushNum(2)] + [OpNum2Bin], m, true, s1, n <= MAX_TX_VERSION,
              Cons(ToLe(n, 2), m.stack), bound);
    assert [OpTxVersion] + ([PushNum(2)] + [OpNum2Bin]) == [OpTxVersion, PushNum(2), OpNum2Bin];
  }

  lemma TxidYields(env: Env, m: VM<Bytes>, acc: Bytes, s: List<Bytes>, bound: nat)
    requires Spending(env.tx) && Live(m) && m.stack == Cons(acc, s) && Len(s) + 3 + Len(m.alt) <= bound
    ensures Yields(env, [OpTxInputIndex, OpOutpointTxId, OpCat], m, true, Cons(acc + TheView(env.tx).txid, s), bound)
  {
    hide Yields, MinEnc, AsIndex, End, Typed;
    var txid := env.tx.inputs[env.tx.current].txid;
    IndexOperand(env.tx.current, |env.tx.inputs|);
    var s1, s2, s3 := Cons(MinEnc(env.tx.current), m.stack), Cons(txid, m.stack), Cons(acc + txid, s);
    YieldsOne(env, OpTxInputIndex, m, true, s1, bound);
    YieldsLive(env, [OpTxInputIndex], m, s1, bound);
    YieldsOne(env, OpOutpointTxId, End(env, [OpTxInputIndex], m), true, s2, bound);
    YieldsSeq(env, [OpTxInputIndex], [OpOutpointTxId], m, true, s1, true, s2, bound);
    var c := [OpTxInputIndex] + [OpOutpointTxId];
    YieldsLive(env, c, m, s2, bound);
    YieldsOne(env, OpCat, End(env, c, m), true, s3, bound);
    YieldsSeq(env, c, [OpCat], m, true, s2, true, s3, bound);
    assert c + [OpCat] == [OpTxInputIndex, OpOutpointTxId, OpCat];
  }

  lemma OutpointIndexYields(env: Env, m: VM<Bytes>, acc: Bytes, s: List<Bytes>, bound: nat)
    requires Spending(env.tx) && Live(m) && m.stack == Cons(acc, s) && Len(s) + 3 + Len(m.alt) <= bound
    ensures Yields(env, [OpTxInputIndex, OpOutpointIndex] + FieldOps(4), m,
                   TheView(env.tx).index <= MAX_OUTPOINT_INDEX, Cons(acc + ToLe(TheView(env.tx).index, 4), s), bound)
  {
    OutpointNumberYields(env, m, acc, s, bound);
    FieldBounds();
    hide Yields, MinEnc, FieldOps, ToLe, Pow2, Live, Spending, TheView;
    NumberFieldYields(env, [OpTxInputIndex, OpOutpointIndex], TheView(env.tx).index, 4, MAX_OUTPOINT_INDEX, m, acc, s, bound);
  }

  lemma OutpointNumberYields(env: Env, m: VM<Bytes>, acc: Bytes, s: List<Bytes>, bound: nat)
    requires Spending(env.tx) && Live(m) && m.stack == Cons(acc, s) && Len(s) + 3 + Len(m.alt) <= bound
    ensures var n := TheView(env.tx).index;
            InRange(n) && Yields(env, [OpTxInputIndex, OpOutpointIndex], m, true, Cons(MinEnc(n), m.stack), bound)
  {
    hide Yields, MinEnc, AsIndex, End;
    var n := TheView(env.tx).index;
    IndexOperand(env.tx.current, |env.tx.inputs|);
    var s1, s2 := Cons(MinEnc(env.tx.current), m.stack), Cons(MinEnc(n), m.stack);
    YieldsOne(env, OpTxInputIndex, m, true, s1, bound);
    YieldsLive(env, [OpTxInputIndex], m, s1, bound);
    YieldsOne(env, OpOutpointIndex, End(env, [OpTxInputIndex], m), true, s2, bound);
    YieldsSeq(env, [OpTxInputIndex], [OpOutpointIndex], m, true, s1, true, s2, bound);
    assert [OpTxInputIndex] + [OpOutpointIndex] == [OpTxInputIndex, OpOutpointIndex];
  }

  lemma CountYields(env: Env, m: VM<Bytes>, acc: Bytes, s: List<Bytes>, bound: nat)
    requires Live(m) && m.stack == Cons(acc, s) && Len(s) + 3 + Len(m.alt) <= bound
    ensures Yields(env, [OpTxOutputCount] + FieldOps(1), m, |env.tx.outputs| <= MAX_OUTPUT_COUNT,
                   Cons(acc + ToLe(|env.tx.outputs|, 1), s), bound)
  {
    hide Yields, MinEnc, End, FieldOps, ToLe, Pow2;
    FieldBounds();
    var n := |env.tx.outputs|;
    YieldsOne(env, OpTxOutputCount, m, InRange(n), Cons(MinEnc(n), m.stack), bound);
    NumberFieldYields(env, [OpTxOutputCount], n, 1, MAX_OUTPUT_COUNT, m, acc, s, bound);
  }

  /** The header: refused exactly when the host serializer refuses it. */
  lemma HeaderYields(env: Env, m: VM<Bytes>, bound: nat)
    requires Spending(env.tx) && Live(m) && Len(m.stack) + 3 + Len(m.alt) <= bound
    ensures var v := TheView(env.tx);
            Yields(env, HeaderOps(), m, HeaderAccepted(v),
                   Cons(Header(v.txVersion, v.txid, v.index, |v.outputs|), m.stack), bound)
  {
    var v := TheView(env.tx);
    hide Yields, MinEnc, End, FieldOps, ToLe, Pow2, Spending, Live;
    var s := m.stack;
    var a, b := [OpTxVersion, PushNum(2), OpNum2Bin], [OpTxInputIndex, OpOutpointTxId, OpCat];
    var c, d := [OpTxInputIndex, OpOutpointIndex] + FieldOps(4), [OpTxOutputCount] + FieldOps(1);
    var x1 := ToLe(v.txVersion, 2);
    var x2, x3 := x1 + v.txid, x1 + v.txid + ToLe(v.index, 4);
    var x4 := x3 + ToLe(|v.outputs|, 1);
    var ok1, ok3, ok4 := v.txVersion <= MAX_TX_VERSION, v.index <= MAX_OUTPOINT_INDEX, |v.outputs| <= MAX_OUTPUT_COUNT;
    VersionYields(env, m, bound);
    if ok1 {
      YieldsLive(env, a, m, Cons(x1, s), bound);
      TxidYields(env, End(env, a, m), x1, s, bound);
    }
    YieldsSeq(env, a, b, m, ok1, Cons(x1, s), true, Cons(x2, s), bound);
    if ok1 {
      YieldsLive(env, a + b, m, Cons(x2, s), bound);
      OutpointIndexYields(env, End(env, a + b, m), x2, s, bound);
    }
    YieldsSeq(env, a + b, c, m, ok1, Cons(x2, s), ok3, Cons(x3, s), bound);
    if ok1 && ok3 {
      YieldsLive(env, a + b + c, m, Cons(x3, s), bound);
      CountYields(env, End(env, a + b + c, m), x3, s, bound);
    }
    YieldsSeq(env, a + b + c, d, m, ok1 && ok3, Cons(x3, s), ok4, Cons(x4, s), bound);
  }

  /** What the script hashes: the spend's own output count, but only the unrolled outputs. */
  function ScriptBytes(v: SpendView, count: nat): Bytes
    requires count <= |v.outputs|
  {
    Header(v.txVersion, v.txid, v.index, |v.outputs|) + Records(v.outputs[..count])
  }

  predicate ScriptAccepts(v: SpendView, count: nat)
  {
    HeaderAccepted(v) && count <= |v.outputs| && OutputsAccepted(v.outputs[..count])
  }

  /** Unrolled to the spend's own outputs, the script commits to exactly what the serializer does. */
  lemma WholeSpend(v: SpendView)
    requires |v.outputs| > 0
    ensures ScriptAccepts(v, |v.outputs|) <==> Preimage(v).Some?
    ensures Preimage(v).Some? ==> Preimage(v).value == ScriptBytes(v, |v.outputs|)
  {
    hide HeaderAccepted, OutputsAccepted, Header, Records;
    assert v.outputs[..|v.outputs|] == v.outputs;
  }

  /** The emitted program, for any transaction: when it succeeds, and what it leaves. */
  lemma BindingYields(env: Env, count: nat, m: VM<Bytes>, bound: nat)
    requires Spending(env.tx) && Live(m) && Len(m.stack) + 3 + Len(m.alt) <= bound
    requires 0 < count <= MAX_OUTPUT_COUNT
    ensures var v := TheView(env.tx);
            Yields(env, BindingOps(count).value, m, ScriptAccepts(v, count),
                   if count <= |v.outputs| then Cons(env.hash(ScriptBytes(v, count)), m.stack) else Nil, bound)
  {
    var v := TheView(env.tx);
    hide Yields, HeaderOps, OutputsOps, HeaderAccepted, OutputsAccepted, Header, Records, End, Live, Spending;
    var h := Header(v.txVersion, v.txid, v.index, |v.outputs|);
    var s, s1 := m.stack, Cons(h, m.stack);
    HeaderYields(env, m, bound);
    var there := count <= |v.outputs|;
    var x2 := if there then ScriptBytes(v, count) else [];
    var ok2 := there && OutputsAccepted(v.outputs[..count]);
    var s2 := if there then Cons(x2, s) else Nil;
    if HeaderAccepted(v) {
      YieldsLive(env, HeaderOps(), m, s1, bound);
      OutputsYields(env, count, End(env, HeaderOps(), m), h, s, bound);
    }
    var c := HeaderOps() + OutputsOps(count);
    YieldsSeq(env, HeaderOps(), OutputsOps(count), m, HeaderAccepted(v), s1, ok2, s2, bound);
    var s3 := if there then Cons(env.hash(x2), s) else Nil;
    var ok := HeaderAccepted(v) && ok2;
    if ok {
      YieldsLive(env, c, m, s2, bound);
      YieldsOne(env, OpSha256, End(env, c, m), true, s3, bound);
    }
    YieldsSeq(env, c, [OpSha256], m, ok, s2, true, s3, bound);
  }

  /** With the unrolled number of outputs, the script and the host serializer agree, byte for byte and refusal for refusal. */
  lemma BindingAgrees(env: Env, m: VM<Bytes>)
    requires Spending(env.tx) && Live(m) && 0 < |env.tx.outputs| <= MAX_OUTPUT_COUNT
    ensures var v := TheView(env.tx);
            var run := Run(env, BindingOps(|v.outputs|).value, m);
            && (run.Some? <==> Preimage(v).Some?)
            && (run.Some? ==> run.value.stack == Cons(env.hash(Preimage(v).value), m.stack) && run.value.alt == m.alt)
  {
    var v := TheView(env.tx);
    hide Run, HeaderAccepted, OutputsAccepted, Header, Records, Live, Spending, BindingOps;
    BindingYields(env, |v.outputs|, m, Len(m.stack) + 3 + Len(m.alt));
    assert v.outputs[..|v.outputs|] == v.outputs;
  }

  // ---- more outputs than the script unrolls --------------------------------

  lemma {:induction false} FewerRecords(outs: seq<TxOutput>, n: nat)
    requires OutputsAccepted(outs) && TypedOutputs(outs) && |outs| != n
    ensures ParseRecords(Records(outs), n).None?
  {
    hide Record, ParseRecord, OutputAccepted;
    if |outs| == 0 {
      assert ParseRecord([]).None? by { EmptyRecord(); }
    } else if n > 0 {
      RecordsFront(outs);
      assert outs[0] in outs;
      ParseOneRecord(outs[0], Records(outs[1..]));
      FewerRecords(outs[1..], n - 1);
    } else {
      RecordsFront(outs);
      RecordLength(outs[0]);
    }
  }

  lemma EmptyRecord()
    ensures ParseRecord([]).None?
  {
  }

  lemma RecordLength(o: TxOutput)
    ensures |Record(o)| >= 12
  {
  }

  /**
   * A spend with more outputs than the script unrolls: what the script hashes is not the preimage of any spend the
   * serializer accepts, so no signature over a real digest can match it.
   */
  lemma ExtraOutputsUnmatched(v: SpendView, count: nat, w: SpendView)
    requires Typed(v) && ScriptAccepts(v, count) && count < |v.outputs|
    requires Typed(w) && Accepted(w)
    ensures Preimage(w).value != ScriptBytes(v, count)
  {
    hide Records, Header, ParseRecords;
    if Preimage(w).value == ScriptBytes(v, count) {
      HeaderFields(v.txVersion, v.txid, v.index, |v.outputs|, Records(v.outputs[..count]));
      HeaderFields(w.txVersion, w.txid, w.index, |w.outputs|, Records(w.outputs));
      FewerRecords(v.outputs[..count], |w.outputs|);
      ParseAllRecords(w.outputs);
    }
  }
}
