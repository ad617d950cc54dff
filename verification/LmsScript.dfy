/** The LMS verifier as a script, and that it computes Algorithm 6a. */
module LmsScript {
  import opened Arith
  import opened Bytes
  import opened Lists
  import opened Numbers
  import opened Machine
  import opened Lane
  import opened Lms

  // ---- the program ---------------------------------------------------------

  function CoefShift(p: LmsParams, i: nat): nat
    requires p.w in {1, 2, 4, 8}
  {
    if 8 - p.w - p.w * i % 8 >= 0 then 8 - p.w - p.w * i % 8 else 0
  }

  /** One byte of the value on top, as a number. */
  function ByteOps(byte: nat): seq<Op>
  {
    [PushNum(byte), PushNum(byte + 1), OpSubstr] + [Push([0]), OpCat, OpBin2Num]
  }

  /** Shift down, unless by nothing, and mask. */
  function FieldOps(shift: nat, w: nat): seq<Op>
  {
    (if shift > 0 then [PushNum(Pow2(shift)), OpArith(Div)] else []) + [PushNum(Pow2(w)), OpArith(Mod)]
  }

  /** `coef(V, i, w)` of the value on top, which stays. */
  function CoefOps(p: LmsParams, i: nat): seq<Op>
    requires p.w in {1, 2, 4, 8}
  {
    [OpDup] + ByteOps(p.w * i / 8) + FieldOps(CoefShift(p, i), p.w)
  }

  function DigestOps(key: LmsKey, q: nat): seq<Op>
  {
    [OpSwap, Push(Prefix(key.id, q, D_MESG)), OpSwap, OpCat] + [OpSwap, OpCat, OpSha256]
  }

  /** Coefficient i's distance from the maximum, added to the sum on the alt stack. */
  function SumOps(p: LmsParams, i: nat): seq<Op>
    requires p.w in {1, 2, 4, 8}
  {
    CoefOps(p, i) + ([PushNum(p.MaxCoef()), OpSwap, OpArith(Sub)] + [OpFromAltStack, OpArith(Add), OpToAltStack])
  }

  function SumsOps(p: LmsParams, n: nat): seq<Op>
    requires p.w in {1, 2, 4, 8}
  {
    if n == 0 then [] else SumsOps(p, n - 1) + SumOps(p, n - 1)
  }

  /** The sum, shifted into place. */
  function ShiftOps(p: LmsParams): seq<Op> { [OpFromAltStack, PushNum(Pow2(p.ls)), OpArith(Mul)] }

  /** Sixteen bits, big-endian, behind the digest. */
  function SwapBytesOps(): seq<Op>
  {
    [OpDup, PushNum(1), PushNum(2), OpSubstr] + [OpSwap, PushNum(0), PushNum(1), OpSubstr] + [OpCat, OpCat]
  }

  function ChecksumHead(p: LmsParams): seq<Op>
    requires p.w in {1, 2, 4, 8}
  {
    [PushNum(0), OpToAltStack] + SumsOps(p, p.u) + (ShiftOps(p) + [PushNum(2)])
  }

  function ChecksumTail(): seq<Op> { [OpNum2Bin] + SwapBytesOps() }

  /** The gated body of one chain step. */
  function StepBody(key: LmsKey, q: nat, i: nat, j: nat): seq<Op>
  {
    [Push(Prefix(key.id, q, i) + [j % 256]), OpSwap, OpCat, OpSha256]
  }

  /** One chain step, gated on j >= a_i. */
  function ChainStep(key: LmsKey, q: nat, i: nat, j: nat): seq<Piece>
  {
    Ops([OpFromAltStack, OpDup, OpToAltStack] + [PushNum(j), OpSwap, OpArith(GreaterThanOrEqual)])
    + [Gated(StepBody(key, q, i, j))]
  }

  function ChainSteps(key: LmsKey, q: nat, i: nat, n: nat): seq<Piece>
  {
    if n == 0 then [] else ChainSteps(key, q, i, n - 1) + ChainStep(key, q, i, n - 1)
  }

  /** Chain i, its end stashed on the alt stack. */
  function ChainPieces(p: LmsParams, key: LmsKey, q: nat, i: nat): seq<Piece>
    requires p.w in {1, 2, 4, 8}
  {
    Ops(CoefOps(p, i) + [OpToAltStack, OpSwap])
    + ChainSteps(key, q, i, p.MaxCoef())
    + Ops([OpFromAltStack, OpDrop, OpToAltStack])
  }

  function ChainsPieces(p: LmsParams, key: LmsKey, q: nat, n: nat): seq<Piece>
    requires p.w in {1, 2, 4, 8}
  {
    if n == 0 then [] else ChainsPieces(p, key, q, n - 1) + ChainPieces(p, key, q, n - 1)
  }

  function FromAlts(n: nat): seq<Op>
  {
    if n == 0 then [] else FromAlts(n - 1) + [OpFromAltStack]
  }

  function SwapCats(n: nat): seq<Op>
  {
    if n == 0 then [] else SwapCats(n - 1) + [OpSwap, OpCat]
  }

  /** Kc from the stashed chain ends. */
  function KeyOps(p: LmsParams, key: LmsKey, q: nat): seq<Op>
  {
    [OpDrop] + FromAlts(p.p) + [Push(Prefix(key.id, q, D_PBLC)), OpSwap, OpCat]
    + SwapCats(if p.p > 0 then p.p - 1 else 0) + [OpSha256]
  }

  /** One level of the path, the order of the operands fixed by the constant node number. */
  function LevelOps(key: LmsKey, node: nat): seq<Op>
  {
    var pfx := Prefix(key.id, node / 2, D_INTR);
    if node % 2 == 1 then [OpSwap, Push(pfx), OpSwap, OpCat] + [OpSwap, OpCat, OpSha256]
    else [Push(pfx), OpSwap, OpCat] + [OpSwap, OpCat, OpSha256]
  }

  function LevelsOps(key: LmsKey, node: nat): seq<Op>
    decreases node
  {
    if node <= 1 then [] else LevelOps(key, node) + LevelsOps(key, node / 2)
  }

  function PathOps(key: LmsKey, node: nat): seq<Op>
  {
    [Push(Prefix(key.id, node, D_LEAF)), OpSwap, OpCat, OpSha256] + LevelsOps(key, node)
  }

  /** Everything after the checksum has been formed. */
  function AfterChecksum(p: LmsParams, key: LmsKey, q: nat): seq<Piece>
    requires p.w in {1, 2, 4, 8}
  {
    ChainsPieces(p, key, q, p.p) + Ops(KeyOps(p, key, q) + PathOps(key, p.LeafCount() + q) + [Push(key.root), OpEqual])
  }

  /** `emit_verify`; None when q is no leaf of the tree. */
  function EmitLms(p: LmsParams, key: LmsKey, q: nat): Option<seq<Op>>
    requires p.w in {1, 2, 4, 8}
  {
    if q >= p.LeafCount() then None
    else
      Some(DigestOps(key, q) + ChecksumHead(p) + ChecksumTail() + Flat(AfterChecksum(p, key, q)))
  }

  // ---- coefficients and checksum -------------------------------------------

  lemma CoefOpsOk(env: Env, p: LmsParams, i: nat, v: Bytes, t: List<Val>, alt: List<Val>)
    requires p.w in {1, 2, 4, 8} && p.w * i + p.w <= 8 * |v| && |v| <= 34
    ensures DoOps(env, CoefOps(p, i), On(Cons(Blob(v), t), alt))
            == On(Cons(Num(Coef(v, i, p.w)), Cons(Blob(v), t)), alt)
  {
    hide *;
    CoefPlace(v, i, p.w);
    var byte, shift := p.w * i / 8, CoefShift(p, i);
    var below := Cons(Blob(v), t);
    CoefIs(v, p, i);
    DupBlob(env, v, t, alt);
    ByteOnTop(env, v, byte, below, alt);
    ShiftedByte(env, v[byte], shift, p.w, below, alt);
    CoefParts(env, p, i, On(below, alt));
  }

  /** A coefficient is a field of one byte. */
  lemma CoefIs(v: Bytes, p: LmsParams, i: nat)
    requires p.w in {1, 2, 4, 8} && p.w * i + p.w <= 8 * |v|
    ensures p.w * i / 8 < |v| && CoefShift(p, i) <= 8
    ensures Coef(v, i, p.w) == Low(Shr(v[p.w * i / 8], CoefShift(p, i)), p.w)
  {
    CoefPlace(v, i, p.w);
    hide Low, Shr;
  }

  lemma DupBlob(env: Env, v: Bytes, t: List<Val>, alt: List<Val>)
    ensures DoOps(env, [OpDup], On(Cons(Blob(v), t), alt)) == On(Cons(Blob(v), Cons(Blob(v), t)), alt)
  {
    hide DoOps, DoOp;
    SequenceRules(env);
    ShuffleRules(env);
  }

  lemma CoefParts(env: Env, p: LmsParams, i: nat, s: State)
    requires p.w in {1, 2, 4, 8}
    ensures p.w * i / 8 >= 0
            && DoOps(env, CoefOps(p, i), s)
               == DoOps(env, FieldOps(CoefShift(p, i), p.w), DoOps(env, ByteOps(p.w * i / 8), DoOps(env, [OpDup], s)))
  {
    hide DoOps, ByteOps, FieldOps;
    DoOpsAppend(env, [OpDup], ByteOps(p.w * i / 8), s);
    DoOpsAppend(env, [OpDup] + ByteOps(p.w * i / 8), FieldOps(CoefShift(p, i), p.w), s);
  }

  lemma ByteOnTop(env: Env, v: Bytes, byte: nat, t: List<Val>, alt: List<Val>)
    requires byte < |v| <= 34
    ensures DoOps(env, ByteOps(byte), On(Cons(Blob(v), t), alt))
            == On(Cons(Num(v[byte]), t), alt)
  {
    hide DoOps, DoOp;
    SequenceRules(env);
    ShuffleRules(env);
    BytesRules(env);
    assert v[byte..byte + 1] == [v[byte]];
  }

  lemma ShiftedByte(env: Env, b: Byte, shift: nat, w: nat, t: List<Val>, alt: List<Val>)
    requires shift <= 8 && w <= 8
    ensures DoOps(env, FieldOps(shift, w), On(Cons(Num(b), t), alt))
            == On(Cons(Num(Low(Shr(b, shift), w)), t), alt)
  {
    SmallPowersOfTwo(shift);
    SmallPowersOfTwo(w);
    ShrZero(b);
    DivBounds(b, Pow2(shift));
    hide DoOps, DoOp, Pow2;
    SequenceRules(env);
    ShuffleRules(env);
    ArithRules(env);
  }

  lemma SmallPowersOfTwo(n: nat)
    requires n <= 15
    ensures 0 < Pow2(n) <= 32768
  {
    Pow2Mono(n, 15);
    Pow2Table();
  }

  lemma AddDistance(env: Env, most: nat, a: nat, sum: nat, t: List<Val>, alt: List<Val>)
    requires a <= most <= 32768 && sum < 0x1_0000_0000
    ensures DoOps(env, [PushNum(most), OpSwap, OpArith(Sub)] + [OpFromAltStack, OpArith(Add), OpToAltStack],
                  On(Cons(Num(a), t), Cons(Num(sum), alt)))
            == On(t, Cons(Num(sum + (most - a)), alt))
  {
    hide DoOps, DoOp;
    SequenceRules(env);
    ShuffleRules(env);
    ArithRules(env);
    assert most - a + sum == sum + (most - a);
  }

  lemma SumOpsOk(env: Env, p: LmsParams, i: nat, q: Bytes, sum: nat, t: List<Val>, alt: List<Val>)
    requires p.WellFormed() && |q| == NODE && i < p.u && sum < 0x1_0000_0000
    ensures p.w * i + p.w <= 8 * |q|
    ensures DoOps(env, SumOps(p, i), On(Cons(Blob(q), t), Cons(Num(sum), alt)))
            == On(Cons(Blob(q), t), Cons(Num(sum + (p.MaxCoef() - Coef(q, i, p.w))), alt))
  {
    hide *;
    WidthFacts(p);
    CoefRoom(p, i);
    CoefOpsOk(env, p, i, q, t, Cons(Num(sum), alt));
    AddDistance(env, p.MaxCoef(), Coef(q, i, p.w), sum, Cons(Blob(q), t), alt);
    SumParts(env, p, i, On(Cons(Blob(q), t), Cons(Num(sum), alt)));
  }

  lemma WidthFacts(p: LmsParams)
    requires p.WellFormed()
    ensures p.w in {1, 2, 4, 8} && p.MaxCoef() + 1 == Pow2(p.w) && 0 <= p.MaxCoef() <= 255 && p.ls <= 15
    ensures NODE == 32 && p.h <= 25
  {
    Pow2Eight();
  }

  lemma SumParts(env: Env, p: LmsParams, i: nat, s: State)
    requires p.w in {1, 2, 4, 8}
    ensures DoOps(env, SumOps(p, i), s)
            == DoOps(env, [PushNum(p.MaxCoef()), OpSwap, OpArith(Sub)] + [OpFromAltStack, OpArith(Add), OpToAltStack],
                     DoOps(env, CoefOps(p, i), s))
  {
    hide DoOps, CoefOps, LmsParams.MaxCoef;
    var rest := [PushNum(p.MaxCoef()), OpSwap, OpArith(Sub)] + [OpFromAltStack, OpArith(Add), OpToAltStack];
    DoOpsAppend(env, CoefOps(p, i), rest, s);
  }

  lemma {:induction false} SumsOpsOk(env: Env, p: LmsParams, n: nat, q: Bytes, t: List<Val>, alt: List<Val>)
    requires p.WellFormed() && |q| == NODE && n <= p.u
    ensures DoOps(env, SumsOps(p, n), On(Cons(Blob(q), t), Cons(Num(0), alt)))
            == On(Cons(Blob(q), t), Cons(Num(SumTo(q, p, n)), alt))
  {
    hide DoOps, SumOps, Coef, LmsParams.MaxCoef, LmsParams.MaxSum, Pow2;
    var start := On(Cons(Blob(q), t), Cons(Num(0), alt));
    if n == 0 {
      DoOpsNone(env, start);
    } else {
      SumsOpsOk(env, p, n - 1, q, t, alt);
      SumSmall(q, p, n - 1);
      SumOpsOk(env, p, n - 1, q, SumTo(q, p, n - 1), t, alt);
      DoOpsAppend(env, SumsOps(p, n - 1), SumOps(p, n - 1), start);
    }
  }

  lemma SumSmall(q: Bytes, p: LmsParams, n: nat)
    requires p.WellFormed() && |q| == NODE && n <= p.u
    ensures SumTo(q, p, n) < 0x1_0000_0000
  {
    SumBound(q, p, n);
    UAtMost(p.w, p.u);
    SmallPowersOfTwo(p.w);
    MulMono(n, 256, p.MaxCoef());
  }

  lemma UAtMost(w: nat, u: nat)
    requires w in {1, 2, 4, 8} && w * u == 8 * NODE
    ensures u <= 256
  {
  }

  /** The shift, on the sum from the alt stack. */
  lemma ShiftOpsOk(env: Env, p: LmsParams, sum: nat, t: List<Val>, alt: List<Val>)
    requires p.ls <= 15 && sum < 0x1_0000_0000 && sum * Pow2(p.ls) < 0x1_0000_0000
    ensures DoOps(env, ShiftOps(p) + [PushNum(2)], On(t, Cons(Num(sum), alt)))
            == On(Cons(Num(2), Cons(Num(sum * Pow2(p.ls)), t)), alt)
  {
    SmallPowersOfTwo(p.ls);
    hide DoOps, DoOp, Pow2;
    SequenceRules(env);
    ShuffleRules(env);
    ArithRules(env);
  }

  /** The digest and the full checksum beside it, ready to be written in two bytes. */
  lemma ChecksumHeadOk(env: Env, p: LmsParams, q: Bytes, t: List<Val>, alt: List<Val>)
    requires p.WellFormed() && |q| == NODE
    ensures DoOps(env, ChecksumHead(p), On(Cons(Blob(q), t), alt))
            == On(Cons(Num(2), Cons(Num(FullChecksum(q, p)), Cons(Blob(q), t))), alt)
  {
    hide *;
    var sum := SumTo(q, p, p.u);
    WidthFacts(p);
    ChecksumFits16(q, p);
    SumSmall(q, p, p.u);
    Sixteen();
    ShiftedIs(q, p);
    SumsOpsOk(env, p, p.u, q, t, alt);
    ShiftOpsOk(env, p, sum, Cons(Blob(q), t), alt);
    ZeroSum(env, On(Cons(Blob(q), t), alt));
    HeadParts(env, p, On(Cons(Blob(q), t), alt));
  }

  lemma ShiftedIs(q: Bytes, p: LmsParams)
    requires p.WellFormed() && |q| == NODE
    ensures FullChecksum(q, p) == SumTo(q, p, p.u) * Pow2(p.ls)
  {
  }

  lemma ZeroSum(env: Env, s: State)
    requires s.On?
    ensures DoOps(env, [PushNum(0), OpToAltStack], s) == On(s.stk, Cons(Num(0), s.alt))
  {
    hide DoOps, DoOp;
    SequenceRules(env);
    ShuffleRules(env);
  }

  lemma HeadParts(env: Env, p: LmsParams, s: State)
    requires p.w in {1, 2, 4, 8}
    ensures DoOps(env, ChecksumHead(p), s)
            == DoOps(env, ShiftOps(p) + [PushNum(2)], DoOps(env, SumsOps(p, p.u), DoOps(env, [PushNum(0), OpToAltStack], s)))
  {
    hide DoOps, SumsOps, ShiftOps;
    DoOpsAppend(env, [PushNum(0), OpToAltStack], SumsOps(p, p.u), s);
    DoOpsAppend(env, [PushNum(0), OpToAltStack] + SumsOps(p, p.u), ShiftOps(p) + [PushNum(2)], s);
  }

  lemma Sixteen()
    ensures Pow2(16) == 65536
  {
    Pow2Table();
    Pow2Add(15, 1);
  }

  lemma TwoBytes(c: nat)
    ensures |ToLe(c, 2)| == 2 && ToLe(c, 2)[1..2] + ToLe(c, 2)[0..1] == ToBe(c, 2)
  {
    assert ToLe(c, 2) == [c % 256, c / 256 % 256];
    assert ToBe(c, 2) == ToBe(c / 256, 1) + [c % 256] && ToBe(c / 256, 1) == ToBe(c / 256 / 256, 0) + [c / 256 % 256];
  }

  /** Clear of the sign bit, the checksum joins the digest big-endian. */
  lemma ChecksumTailOk(env: Env, p: LmsParams, q: Bytes, t: List<Val>, alt: List<Val>)
    requires p.WellFormed() && |q| == NODE && FullChecksum(q, p) < 32768
    ensures DoOps(env, ChecksumTail(), On(Cons(Num(2), Cons(Num(FullChecksum(q, p)), Cons(Blob(q), t))), alt))
            == On(Cons(Blob(CoefSource(q, p)), t), alt)
  {
    hide FullChecksum, DoOps, ChecksumTail, ToBe, LmsParams.WellFormed;
    JoinWord(env, FullChecksum(q, p), q, t, alt);
  }

  /** A number below the sign bit, appended in two big-endian bytes. */
  lemma JoinWord(env: Env, c: nat, q: Bytes, t: List<Val>, alt: List<Val>)
    requires c < 32768
    ensures DoOps(env, ChecksumTail(), On(Cons(Num(2), Cons(Num(c), Cons(Blob(q), t))), alt))
            == On(Cons(Blob(q + ToBe(c, 2)), t), alt)
  {
    hide *;
    TwoBytes(c);
    var le := ToLe(c, 2);
    WordBytes(env, c, Cons(Blob(q), t), alt);
    SwapAndJoin(env, le, q, t, alt);
    TailParts(env, On(Cons(Num(2), Cons(Num(c), Cons(Blob(q), t))), alt));
  }

  lemma WordBytes(env: Env, c: nat, t: List<Val>, alt: List<Val>)
    requires c < 32768
    ensures DoOps(env, [OpNum2Bin], On(Cons(Num(2), Cons(Num(c), t)), alt)) == On(Cons(Blob(ToLe(c, 2)), t), alt)
  {
    hide DoOps, DoOp, ToLe;
    SequenceRules(env);
    BytesRules(env);
  }

  lemma SwapAndJoin(env: Env, le: Bytes, q: Bytes, t: List<Val>, alt: List<Val>)
    requires |le| == 2
    ensures DoOps(env, SwapBytesOps(), On(Cons(Blob(le), Cons(Blob(q), t)), alt))
            == On(Cons(Blob(q + (le[1..2] + le[0..1])), t), alt)
  {
    hide DoOps, DoOp;
    SequenceRules(env);
    ShuffleRules(env);
    BytesRules(env);
  }

  lemma TailParts(env: Env, s: State)
    ensures DoOps(env, ChecksumTail(), s) == DoOps(env, SwapBytesOps(), DoOps(env, [OpNum2Bin], s))
  {
    hide DoOps, SwapBytesOps;
    DoOpsAppend(env, [OpNum2Bin], SwapBytesOps(), s);
  }

  lemma DigestOpsOk(env: Env, key: LmsKey, q: nat, c: Bytes, message: Bytes, t: List<Val>, alt: List<Val>)
    ensures DoOps(env, DigestOps(key, q), On(Cons(Blob(message), Cons(Blob(c), t)), alt))
            == On(Cons(Blob(MessageDigest(env.hash, key.id, q, c, message)), t), alt)
  {
    hide DoOps, DoOp, Prefix;
    SequenceRules(env);
    ShuffleRules(env);
    BytesRules(env);
  }

  // ---- chains --------------------------------------------------------------

  lemma StepCondition(env: Env, a: nat, j: nat, x: Val, below: List<Val>, alt: List<Val>)
    requires a <= 255 && j <= 255
    ensures DoOps(env, [OpFromAltStack, OpDup, OpToAltStack] + [PushNum(j), OpSwap, OpArith(GreaterThanOrEqual)],
                  On(Cons(x, below), Cons(Num(a), alt)))
            == On(Cons(Num(BoolNum(j >= a)), Cons(x, below)), Cons(Num(a), alt))
  {
    hide DoOps, DoOp;
    SequenceRules(env);
    ShuffleRules(env);
    ArithRules(env);
  }

  lemma StepBodyOk(env: Env, key: LmsKey, q: nat, i: nat, j: nat, x: Bytes, below: List<Val>, alt: List<Val>)
    ensures DoOps(env, StepBody(key, q, i, j), On(Cons(Blob(x), below), alt))
            == On(Cons(Blob(env.hash(Prefix(key.id, q, i) + [j % 256] + x)), below), alt)
  {
    hide DoOps, DoOp, Prefix;
    SequenceRules(env);
    ShuffleRules(env);
    BytesRules(env);
  }

  lemma GatedBody(env: Env, body: seq<Op>, b: bool, t: List<Val>, alt: List<Val>)
    requires Straight(body)
    ensures Do(env, [Gated(body)], On(Cons(Num(BoolNum(b)), t), alt)) == if b then DoOps(env, body, On(t, alt)) else On(t, alt)
  {
    hide DoOps;
    var s := On(Cons(Num(BoolNum(b)), t), alt);
    assert [Gated(body)][1..] == [];
    assert Do(env, [Gated(body)], s) == Do(env, [], DoPiece(env, Gated(body), s));
  }

  /** A chain step hashes exactly when its index has reached the coefficient. */
  lemma ChainStepOk(env: Env, key: LmsKey, q: nat, i: nat, j: nat, a: nat, x: Bytes, below: List<Val>, alt: List<Val>)
    requires a <= 255 && j <= 255
    ensures Do(env, ChainStep(key, q, i, j), On(Cons(Blob(x), below), Cons(Num(a), alt)))
            == On(Cons(Blob(if a <= j then env.hash(Prefix(key.id, q, i) + [j % 256] + x) else x), below), Cons(Num(a), alt))
  {
    var cond := [OpFromAltStack, OpDup, OpToAltStack] + [PushNum(j), OpSwap, OpArith(GreaterThanOrEqual)];
    var body := StepBody(key, q, i, j);
    assert Straight(cond) && Straight(body);
    hide Do, DoOps, Ops, Prefix, StepBody, Straight;
    var s := On(Cons(Blob(x), below), Cons(Num(a), alt));
    OpsMeaning(env, cond, s);
    StepCondition(env, a, j, Blob(x), below, alt);
    StepBodyOk(env, key, q, i, j, x, below, Cons(Num(a), alt));
    GatedBody(env, body, j >= a, Cons(Blob(x), below), Cons(Num(a), alt));
    DoAppend(env, Ops(cond), [Gated(body)], s);
  }

  lemma {:induction false} ChainStepsOk(env: Env, key: LmsKey, q: nat, i: nat, n: nat, a: nat, x: Bytes, below: List<Val>,
                                        alt: List<Val>)
    requires a <= 255 && n <= 256
    ensures Do(env, ChainSteps(key, q, i, n), On(Cons(Blob(x), below), Cons(Num(a), alt)))
            == On(Cons(Blob(OtsChain(env.hash, key.id, q, i, x, a, n)), below), Cons(Num(a), alt))
  {
    hide ChainStep, DoPiece, Prefix;
    var s := On(Cons(Blob(x), below), Cons(Num(a), alt));
    if n > 0 {
      ChainStepsOk(env, key, q, i, n - 1, a, x, below, alt);
      ChainStepOk(env, key, q, i, n - 1, a, OtsChain(env.hash, key.id, q, i, x, a, n - 1), below, alt);
      hide Do;
      DoAppend(env, ChainSteps(key, q, i, n - 1), ChainStep(key, q, i, n - 1), s);
    }
  }

  lemma ChainOpen(env: Env, p: LmsParams, i: nat, v: Bytes, y: Bytes, t: List<Val>, alt: List<Val>)
    requires p.WellFormed() && |v| == NODE + 2 && i < p.p
    ensures p.w * i + p.w <= 8 * |v|
    ensures Do(env, Ops(CoefOps(p, i) + [OpToAltStack, OpSwap]), On(Cons(Blob(v), Cons(Blob(y), t)), alt))
            == On(Cons(Blob(y), Cons(Blob(v), t)), Cons(Num(Coef(v, i, p.w)), alt))
  {
    WidthFacts(p);
    CoefRoom(p, i);
    CoefStraight(p, i);
    hide Do, DoOp, DoOps, Ops, CoefOps, Coef, LmsParams.WellFormed, Straight;
    var s := On(Cons(Blob(v), Cons(Blob(y), t)), alt);
    OpsMeaning(env, CoefOps(p, i) + [OpToAltStack, OpSwap], s);
    CoefOpsOk(env, p, i, v, Cons(Blob(y), t), alt);
    SequenceRules(env);
    ShuffleRules(env);
  }

  lemma CoefStraight(p: LmsParams, i: nat)
    requires p.w in {1, 2, 4, 8}
    ensures Straight(CoefOps(p, i) + [OpToAltStack, OpSwap])
  {
    hide Pow2, CoefShift;
  }

  lemma ChainClose(env: Env, x: Val, a: Val, t: List<Val>, alt: List<Val>)
    ensures Do(env, Ops([OpFromAltStack, OpDrop, OpToAltStack]), On(Cons(x, t), Cons(a, alt))) == On(t, Cons(x, alt))
  {
    var ops := [OpFromAltStack, OpDrop, OpToAltStack];
    assert Straight(ops);
    hide Do, DoOp, DoOps, Ops, Straight;
    OpsMeaning(env, ops, On(Cons(x, t), Cons(a, alt)));
    SequenceRules(env);
    ShuffleRules(env);
  }

  /** Chain i takes one value off the stack and stashes its end. */
  lemma ChainOk(env: Env, p: LmsParams, key: LmsKey, q: nat, i: nat, v: Bytes, y: seq<Bytes>, t: List<Val>, alt: List<Val>)
    requires p.WellFormed() && |v| == NODE + 2 && |y| == p.p && i < p.p
    ensures Do(env, ChainPieces(p, key, q, i), On(Cons(Blob(v), Cons(Blob(y[i]), t)), alt))
            == On(Cons(Blob(v), t), Cons(Blob(ChainEnd(env.hash, p, key.id, q, v, y, i)), alt))
  {
    hide *;
    WidthFacts(p);
    CoefRoom(p, i);
    var a := Coef(v, i, p.w);
    ChainOpen(env, p, i, v, y[i], t, alt);
    ChainStepsOk(env, key, q, i, p.MaxCoef(), a, y[i], Cons(Blob(v), t), alt);
    ChainEndIs(env.hash, p, key.id, q, v, y, i);
    ChainClose(env, Blob(ChainEnd(env.hash, p, key.id, q, v, y, i)), Num(a), Cons(Blob(v), t), alt);
    ChainParts(env, p, key, q, i, On(Cons(Blob(v), Cons(Blob(y[i]), t)), alt));
  }

  lemma ChainEndIs(hash: Hash, p: LmsParams, id: Bytes, q: nat, v: Bytes, y: seq<Bytes>, i: nat)
    requires p.WellFormed() && |v| == NODE + 2 && |y| == p.p && i < p.p && p.w * i + p.w <= 8 * |v|
    ensures ChainEnd(hash, p, id, q, v, y, i) == OtsChain(hash, id, q, i, y[i], Coef(v, i, p.w), p.MaxCoef())
  {
  }

  lemma ChainParts(env: Env, p: LmsParams, key: LmsKey, q: nat, i: nat, s: State)
    requires p.w in {1, 2, 4, 8}
    ensures Do(env, ChainPieces(p, key, q, i), s)
            == Do(env, Ops([OpFromAltStack, OpDrop, OpToAltStack]),
               Do(env, ChainSteps(key, q, i, p.MaxCoef()), Do(env, Ops(CoefOps(p, i) + [OpToAltStack, OpSwap]), s)))
  {
    hide Do, Ops, CoefOps, ChainSteps, LmsParams.MaxCoef;
    var a, b, c := Ops(CoefOps(p, i) + [OpToAltStack, OpSwap]), ChainSteps(key, q, i, p.MaxCoef()),
                   Ops([OpFromAltStack, OpDrop, OpToAltStack]);
    DoAppend(env, a, b, s);
    DoAppend(env, a + b, c, s);
  }

  /** Byte strings on a stack, the first on top. */
  function Blobs(xs: seq<Bytes>, t: List<Val>): List<Val>
  {
    if |xs| == 0 then t else Cons(Blob(xs[0]), Blobs(xs[1..], t))
  }

  /** Byte strings stashed one after the other, the last on top. */
  function Stashed(xs: seq<Bytes>, t: List<Val>): List<Val>
  {
    if |xs| == 0 then t else Cons(Blob(xs[|xs| - 1]), Stashed(xs[..|xs| - 1], t))
  }

  /** The first n chain ends. */
  function Ends(hash: Hash, p: LmsParams, id: Bytes, q: nat, v: Bytes, y: seq<Bytes>, n: nat): (r: seq<Bytes>)
    requires p.WellFormed() && |v| == NODE + 2 && |y| == p.p && n <= p.p
    ensures |r| == n
  {
    if n == 0 then [] else Ends(hash, p, id, q, v, y, n - 1) + [ChainEnd(hash, p, id, q, v, y, n - 1)]
  }

  lemma {:induction false} ChainsOk(env: Env, p: LmsParams, key: LmsKey, q: nat, v: Bytes, y: seq<Bytes>, n: nat,
                                    t: List<Val>, alt: List<Val>)
    requires p.WellFormed() && |v| == NODE + 2 && |y| == p.p && n <= p.p
    ensures Do(env, ChainsPieces(p, key, q, n), On(Cons(Blob(v), Blobs(y, t)), alt))
            == On(Cons(Blob(v), Blobs(y[n..], t)), Stashed(Ends(env.hash, p, key.id, q, v, y, n), alt))
  {
    hide ChainPieces, ChainEnd, DoPiece, LmsParams.MaxSum, Pow2;
    var s := On(Cons(Blob(v), Blobs(y, t)), alt);
    if n == 0 {
      assert y[0..] == y;
    } else {
      ChainsOk(env, p, key, q, v, y, n - 1, t, alt);
      var ends := Ends(env.hash, p, key.id, q, v, y, n - 1);
      assert y[n - 1..][1..] == y[n..];
      ChainOk(env, p, key, q, n - 1, v, y, Blobs(y[n..], t), Stashed(ends, alt));
      var end := ChainEnd(env.hash, p, key.id, q, v, y, n - 1);
      assert (ends + [end])[..n - 1] == ends;
      hide Do;
      DoAppend(env, ChainsPieces(p, key, q, n - 1), ChainPieces(p, key, q, n - 1), s);
    }
  }

  // ---- the candidate key ---------------------------------------------------

  lemma {:induction false} FromAltsOk(env: Env, zs: seq<Bytes>, n: nat, t: List<Val>, alt: List<Val>)
    requires n <= |zs|
    ensures DoOps(env, FromAlts(n), On(t, Stashed(zs, alt)))
            == On(Blobs(zs[|zs| - n..], t), Stashed(zs[..|zs| - n], alt))
  {
    hide DoOp;
    var s := On(t, Stashed(zs, alt));
    if n == 0 {
      assert zs[|zs|..] == [] && zs[..|zs|] == zs;
    } else {
      FromAltsOk(env, zs, n - 1, t, alt);
      var k := |zs| - (n - 1);
      assert zs[..k][..k - 1] == zs[..k - 1] && zs[k - 1..][1..] == zs[k..];
      ShuffleRules(env);
      DoOpsAppend(env, FromAlts(n - 1), [OpFromAltStack], s);
      DoOpsOne(env, OpFromAltStack, DoOps(env, FromAlts(n - 1), s));
    }
  }

  /** The first n of a list, concatenated. */
  function Joined(zs: seq<Bytes>, n: nat): Bytes
    requires n <= |zs|
  {
    if n == 0 then [] else Joined(zs, n - 1) + zs[n - 1]
  }

  lemma {:induction false} SwapCatsOk(env: Env, zs: seq<Bytes>, n: nat, pfx: Bytes, t: List<Val>, alt: List<Val>)
    requires n + 1 <= |zs|
    ensures DoOps(env, SwapCats(n), On(Cons(Blob(pfx + zs[0]), Blobs(zs[1..], t)), alt))
            == On(Cons(Blob(pfx + Joined(zs, n + 1)), Blobs(zs[n + 1..], t)), alt)
  {
    hide DoOp;
    var s := On(Cons(Blob(pfx + zs[0]), Blobs(zs[1..], t)), alt);
    if n == 0 {
      assert Joined(zs, 1) == [] + zs[0];
      assert [] + zs[0] == zs[0];
    } else {
      SwapCatsOk(env, zs, n - 1, pfx, t, alt);
      assert zs[n..][1..] == zs[n + 1..];
      assert pfx + Joined(zs, n) + zs[n] == pfx + (Joined(zs, n) + zs[n]);
      ShuffleRules(env);
      BytesRules(env);
      DoOpsAppend(env, SwapCats(n - 1), [OpSwap, OpCat], s);
      Two(env, OpSwap, OpCat, DoOps(env, SwapCats(n - 1), s));
    }
  }

  lemma {:induction false} JoinedEnds(hash: Hash, p: LmsParams, id: Bytes, q: nat, v: Bytes, y: seq<Bytes>, n: nat, m: nat)
    requires p.WellFormed() && |v| == NODE + 2 && |y| == p.p && n <= m <= p.p
    ensures Joined(Ends(hash, p, id, q, v, y, m), n) == ChainEndsTo(hash, p, id, q, v, y, n)
    decreases n, m
  {
    hide ChainEnd, Pow2, LmsParams.MaxSum;
    if n > 0 {
      JoinedEnds(hash, p, id, q, v, y, n - 1, m);
      EndsAt(hash, p, id, q, v, y, n - 1, m);
    }
  }

  lemma {:induction false} EndsAt(hash: Hash, p: LmsParams, id: Bytes, q: nat, v: Bytes, y: seq<Bytes>, i: nat, m: nat)
    requires p.WellFormed() && |v| == NODE + 2 && |y| == p.p && i < m <= p.p
    ensures Ends(hash, p, id, q, v, y, m)[i] == ChainEnd(hash, p, id, q, v, y, i)
  {
    hide ChainEnd, Pow2, LmsParams.MaxSum;
    if i < m - 1 {
      EndsAt(hash, p, id, q, v, y, i, m - 1);
    }
  }

  lemma KeyOpen(env: Env, pfx: Bytes, z: Bytes, t: List<Val>, alt: List<Val>)
    ensures DoOps(env, [Push(pfx), OpSwap, OpCat], On(Cons(Blob(z), t), alt)) == On(Cons(Blob(pfx + z), t), alt)
  {
    hide DoOps, DoOp;
    SequenceRules(env);
    ShuffleRules(env);
    BytesRules(env);
  }

  /** The stashed ends become Kc; everything above the path is gone. */
  lemma KeyOpsOk(env: Env, p: LmsParams, key: LmsKey, q: nat, v: Val, zs: seq<Bytes>, t: List<Val>, alt: List<Val>)
    requires |zs| == p.p > 0
    ensures DoOps(env, KeyOps(p, key, q), On(Cons(v, t), Stashed(zs, alt)))
            == On(Cons(Blob(env.hash(Prefix(key.id, q, D_PBLC) + Joined(zs, p.p))), t), alt)
  {
    hide DoOps, DoOp, FromAlts, SwapCats, Prefix, Joined;
    var pfx := Prefix(key.id, q, D_PBLC);
    FromAltsOk(env, zs, p.p, t, alt);
    assert zs[0..] == zs && zs[..0] == [];
    KeyOpen(env, pfx, zs[0], Blobs(zs[1..], t), alt);
    SwapCatsOk(env, zs, p.p - 1, pfx, t, alt);
    assert zs[p.p..] == [];
    SequenceRules(env);
    ShuffleRules(env);
    BytesRules(env);
  }

  // ---- the path ------------------------------------------------------------

  lemma LevelOpsOk(env: Env, key: LmsKey, node: nat, tmp: Bytes, sibling: Bytes, t: List<Val>, alt: List<Val>)
    ensures var pfx := Prefix(key.id, node / 2, D_INTR);
            DoOps(env, LevelOps(key, node), On(Cons(Blob(tmp), Cons(Blob(sibling), t)), alt))
            == On(Cons(Blob(env.hash(if node % 2 == 1 then pfx + sibling + tmp else pfx + tmp + sibling)), t), alt)
  {
    hide DoOps, DoOp, Prefix;
    SequenceRules(env);
    ShuffleRules(env);
    BytesRules(env);
  }

  lemma {:induction false} LevelsOpsOk(env: Env, key: LmsKey, node: nat, tmp: Bytes, path: seq<Bytes>, i: nat, t: List<Val>,
                                       alt: List<Val>)
    requires i <= |path| && Pow2(|path| - i) <= node < Pow2(|path| - i + 1)
    ensures DoOps(env, LevelsOps(key, node), On(Cons(Blob(tmp), Blobs(path[i..], t)), alt))
            == On(Cons(Blob(Climb(env.hash, key.id, node, tmp, path, i)), t), alt)
    decreases node
  {
    hide DoOp, LevelOps, Prefix;
    var s := On(Cons(Blob(tmp), Blobs(path[i..], t)), alt);
    if i == |path| {
      assert path[i..] == [] && node == 1;
      assert LevelsOps(key, node) == [];
    } else {
      assert node >= 2;
      var pfx := Prefix(key.id, node / 2, D_INTR);
      var next := env.hash(if node % 2 == 1 then pfx + path[i] + tmp else pfx + tmp + path[i]);
      assert path[i..][1..] == path[i + 1..];
      LevelOpsOk(env, key, node, tmp, path[i], Blobs(path[i + 1..], t), alt);
      LevelsOpsOk(env, key, node / 2, next, path, i + 1, t, alt);
      hide DoOps;
      DoOpsAppend(env, LevelOps(key, node), LevelsOps(key, node / 2), s);
    }
  }

  /** From Kc to the candidate root: exactly the path's elements are consumed. */
  lemma PathOpsOk(env: Env, key: LmsKey, node: nat, kc: Bytes, path: seq<Bytes>, t: List<Val>, alt: List<Val>)
    requires Pow2(|path|) <= node < Pow2(|path| + 1)
    ensures DoOps(env, PathOps(key, node), On(Cons(Blob(kc), Blobs(path, t)), alt))
            == On(Cons(Blob(Climb(env.hash, key.id, node, env.hash(Prefix(key.id, node, D_LEAF) + kc), path, 0)), t), alt)
  {
    hide DoOps, DoOp, LevelsOps, Prefix, Climb, Pow2;
    assert path[0..] == path;
    LevelsOpsOk(env, key, node, env.hash(Prefix(key.id, node, D_LEAF) + kc), path, 0, t, alt);
    SequenceRules(env);
    ShuffleRules(env);
    BytesRules(env);
  }
}
