/** The LMS emitter as it runs: every phase appends to one script, in loops. */
module LmsEmitter {
  import opened Arith
  import opened Bytes
  import opened Lists
  import opened Numbers
  import opened Machine
  import opened Lane
  import opened Lms
  import opened LmsScript
  import opened Binding
  import LmsVerify

  class ScriptWriter {
    var code: seq<Op>

    constructor ()
      ensures code == []
    {
      code := [];
    }

    method Op(op: Op)
      modifies this
      ensures code == old(code) + [op]
    {
      code := code + [op];
    }

    method Data(bytes: Bytes)
      modifies this
      ensures code == old(code) + [Push(bytes)]
    {
      code := code + [Push(bytes)];
    }

    method Num(n: int)
      modifies this
      ensures code == old(code) + [PushNum(n)]
    {
      code := code + [PushNum(n)];
    }
  }

  /** `emit_coefficient`: refused past the last chain. */
  method EmitCoefficient(w: ScriptWriter, p: LmsParams, i: nat) returns (ok: bool)
    requires p.w in {1, 2, 4, 8}
    modifies w
    ensures ok == (i < p.p)
    ensures w.code == if ok then old(w.code) + CoefOps(p, i) else old(w.code)
  {
    ok := i < p.p;
    if !ok {
      return;
    }
    hide ByteOps, LmsScript.FieldOps, CoefShift;
    w.Op(OpDup);
    EmitByte(w, p.w * i / 8);
    EmitField(w, CoefShift(p, i), p.w);
  }

  /** One byte of the value on top, its sign bit padded away. */
  method EmitByte(w: ScriptWriter, byte: nat)
    modifies w
    ensures w.code == old(w.code) + ByteOps(byte)
  {
    w.Num(byte);
    w.Num(byte + 1);
    w.Op(OpSubstr);
    w.Data([0]);
    w.Op(OpCat);
    w.Op(OpBin2Num);
  }

  /** The shift, skipped when there is none, and the mask. */
  method EmitField(w: ScriptWriter, shift: nat, bits: nat)
    modifies w
    ensures w.code == old(w.code) + LmsScript.FieldOps(shift, bits)
  {
    hide Pow2;
    if shift > 0 {
      w.Num(Pow2(shift));
      w.Op(OpArith(Div));
    }
    w.Num(Pow2(bits));
    w.Op(OpArith(Mod));
  }

  /** `emit_message_digest`. */
  method EmitMessageDigest(w: ScriptWriter, key: LmsKey, q: nat)
    modifies w
    ensures w.code == old(w.code) + DigestOps(key, q)
  {
    hide Prefix;
    w.Op(OpSwap);
    w.Data(Prefix(key.id, q, D_MESG));
    w.Op(OpSwap);
    w.Op(OpCat);
    w.Op(OpSwap);
    w.Op(OpCat);
    w.Op(OpSha256);
  }

  method EmitSums(w: ScriptWriter, p: LmsParams)
    requires p.w in {1, 2, 4, 8} && p.u <= p.p
    modifies w
    ensures w.code == old(w.code) + SumsOps(p, p.u)
  {
    hide CoefOps, LmsParams.MaxCoef;
    for i := 0 to p.u
      invariant w.code == old(w.code) + SumsOps(p, i)
    {
      ghost var was := w.code;
      var ok := EmitCoefficient(w, p, i);
      w.Num(p.MaxCoef());
      w.Op(OpSwap);
      w.Op(OpArith(Sub));
      w.Op(OpFromAltStack);
      w.Op(OpArith(Add));
      w.Op(OpToAltStack);
      assert w.code == was + SumOps(p, i);
    }
  }

  /** `emit_checksum_and_v`. */
  method EmitChecksumAndV(w: ScriptWriter, p: LmsParams)
    requires p.w in {1, 2, 4, 8} && p.u <= p.p
    modifies w
    ensures w.code == old(w.code) + ChecksumHead(p) + ChecksumTail()
  {
    hide SumsOps, Pow2;
    w.Num(0);
    w.Op(OpToAltStack);
    EmitSums(w, p);
    w.Op(OpFromAltStack);
    w.Num(Pow2(p.ls));
    w.Op(OpArith(Mul));
    w.Num(2);
    assert w.code == old(w.code) + ChecksumHead(p);
    EmitByteSwap(w);
  }

  method EmitByteSwap(w: ScriptWriter)
    modifies w
    ensures w.code == old(w.code) + ChecksumTail()
  {
    w.Op(OpNum2Bin);
    w.Op(OpDup);
    w.Num(1);
    w.Num(2);
    w.Op(OpSubstr);
    w.Op(OpSwap);
    w.Num(0);
    w.Num(1);
    w.Op(OpSubstr);
    w.Op(OpCat);
    w.Op(OpCat);
  }

  // ---- chains --------------------------------------------------------------

  lemma FlatOps(ops: seq<Op>)
    ensures Flat(Ops(ops)) == ops
  {
    if |ops| > 0 {
      FlatOps(ops[1..]);
      assert Ops(ops)[1..] == Ops(ops[1..]);
      assert [ops[0]] + ops[1..] == ops;
    }
  }

  lemma FlatStep(key: LmsKey, q: nat, i: nat, j: nat)
    ensures Flat(ChainStep(key, q, i, j))
            == [OpFromAltStack, OpDup, OpToAltStack] + [PushNum(j), OpSwap, OpArith(GreaterThanOrEqual)]
               + ([OpIf] + StepBody(key, q, i, j) + [OpEndIf])
  {
    hide Ops, Flat, StepBody;
    var cond := [OpFromAltStack, OpDup, OpToAltStack] + [PushNum(j), OpSwap, OpArith(GreaterThanOrEqual)];
    FlatOps(cond);
    FlatGate(StepBody(key, q, i, j));
    FlatAppend(Ops(cond), [Gated(StepBody(key, q, i, j))]);
  }

  lemma FlatGate(body: seq<Op>)
    ensures Flat([Gated(body)]) == [OpIf] + body + [OpEndIf]
  {
    assert [Gated(body)][1..] == [];
    assert [OpIf] + body + [OpEndIf] + [] == [OpIf] + body + [OpEndIf];
  }

  /** One gated step. */
  method EmitStep(w: ScriptWriter, key: LmsKey, q: nat, i: nat, j: nat)
    modifies w
    ensures w.code == old(w.code) + Flat(ChainStep(key, q, i, j))
  {
    hide Prefix, Flat, ChainStep;
    FlatStep(key, q, i, j);
    w.Op(OpFromAltStack);
    w.Op(OpDup);
    w.Op(OpToAltStack);
    w.Num(j);
    w.Op(OpSwap);
    w.Op(OpArith(GreaterThanOrEqual));
    w.Op(OpIf);
    w.Data(Prefix(key.id, q, i) + [j % 256]);
    w.Op(OpSwap);
    w.Op(OpCat);
    w.Op(OpSha256);
    w.Op(OpEndIf);
  }

  lemma FlatNone()
    ensures Flat([]) == []
  {
  }

  method EmitSteps(w: ScriptWriter, key: LmsKey, q: nat, i: nat, n: nat)
    modifies w
    ensures w.code == old(w.code) + Flat(ChainSteps(key, q, i, n))
  {
    hide Flat, ChainStep;
    FlatNone();
    for j := 0 to n
      invariant w.code == old(w.code) + Flat(ChainSteps(key, q, i, j))
    {
      FlatAppend(ChainSteps(key, q, i, j), ChainStep(key, q, i, j));
      EmitStep(w, key, q, i, j);
    }
  }

  lemma FlatChain(p: LmsParams, key: LmsKey, q: nat, i: nat)
    requires p.w in {1, 2, 4, 8}
    ensures Flat(ChainPieces(p, key, q, i))
            == CoefOps(p, i) + [OpToAltStack, OpSwap] + Flat(ChainSteps(key, q, i, p.MaxCoef()))
               + [OpFromAltStack, OpDrop, OpToAltStack]
  {
    hide Ops, Flat, CoefOps, ChainSteps, LmsParams.MaxCoef;
    var a, b, c := Ops(CoefOps(p, i) + [OpToAltStack, OpSwap]), ChainSteps(key, q, i, p.MaxCoef()),
                   Ops([OpFromAltStack, OpDrop, OpToAltStack]);
    FlatAppend(a, b);
    FlatAppend(a + b, c);
    FlatOps(CoefOps(p, i) + [OpToAltStack, OpSwap]);
    FlatOps([OpFromAltStack, OpDrop, OpToAltStack]);
  }

  method EmitChain(w: ScriptWriter, p: LmsParams, key: LmsKey, q: nat, i: nat)
    requires p.w in {1, 2, 4, 8} && i < p.p
    modifies w
    ensures w.code == old(w.code) + Flat(ChainPieces(p, key, q, i))
  {
    hide Flat, CoefOps, ChainSteps, ChainPieces, LmsParams.MaxCoef;
    FlatChain(p, key, q, i);
    var ok := EmitCoefficient(w, p, i);
    w.Op(OpToAltStack);
    w.Op(OpSwap);
    EmitSteps(w, key, q, i, p.MaxCoef());
    w.Op(OpFromAltStack);
    w.Op(OpDrop);
    w.Op(OpToAltStack);
  }

  /** `emit_chains`. */
  method EmitChains(w: ScriptWriter, p: LmsParams, key: LmsKey, q: nat)
    requires p.w in {1, 2, 4, 8}
    modifies w
    ensures w.code == old(w.code) + Flat(ChainsPieces(p, key, q, p.p))
  {
    hide Flat, ChainPieces;
    FlatNone();
    for i := 0 to p.p
      invariant w.code == old(w.code) + Flat(ChainsPieces(p, key, q, i))
    {
      FlatAppend(ChainsPieces(p, key, q, i), ChainPieces(p, key, q, i));
      EmitChain(w, p, key, q, i);
    }
  }

  // ---- key and path --------------------------------------------------------

  /** `emit_candidate_key`. */
  method EmitCandidateKey(w: ScriptWriter, p: LmsParams, key: LmsKey, q: nat)
    modifies w
    ensures w.code == old(w.code) + KeyOps(p, key, q)
  {
    hide Prefix;
    w.Op(OpDrop);
    ghost var c0 := w.code;
    for i := 0 to p.p
      invariant w.code == c0 + FromAlts(i)
    {
      w.Op(OpFromAltStack);
    }
    w.Data(Prefix(key.id, q, D_PBLC));
    w.Op(OpSwap);
    w.Op(OpCat);
    ghost var c1 := w.code;
    var last := if p.p > 0 then p.p - 1 else 0;
    for i := 0 to last
      invariant w.code == c1 + SwapCats(i)
    {
      w.Op(OpSwap);
      w.Op(OpCat);
    }
    w.Op(OpSha256);
  }

  /** One level, the operand order resolved by the node number. */
  method EmitLevel(w: ScriptWriter, key: LmsKey, node: nat)
    modifies w
    ensures w.code == old(w.code) + LevelOps(key, node)
  {
    hide Prefix;
    var pfx := Prefix(key.id, node / 2, D_INTR);
    if node % 2 == 1 {
      w.Op(OpSwap);
      w.Data(pfx);
      w.Op(OpSwap);
      w.Op(OpCat);
      w.Op(OpSwap);
      w.Op(OpCat);
    } else {
      w.Data(pfx);
      w.Op(OpSwap);
      w.Op(OpCat);
      w.Op(OpSwap);
      w.Op(OpCat);
    }
    w.Op(OpSha256);
  }

  /** `emit_merkle_path`: halve the node number until the root. */
  method EmitMerklePath(w: ScriptWriter, p: LmsParams, key: LmsKey, q: nat)
    modifies w
    ensures w.code == old(w.code) + PathOps(key, p.LeafCount() + q)
  {
    hide Prefix, LevelOps, Pow2;
    var node := p.LeafCount() + q;
    w.Data(Prefix(key.id, node, D_LEAF));
    w.Op(OpSwap);
    w.Op(OpCat);
    w.Op(OpSha256);
    while node > 1
      invariant 0 <= node
      invariant w.code + LevelsOps(key, node) == old(w.code) + PathOps(key, p.LeafCount() + q)
      decreases node
    {
      ghost var was := w.code;
      EmitLevel(w, key, node);
      assert was + (LevelOps(key, node) + LevelsOps(key, node / 2)) == w.code + LevelsOps(key, node / 2);
      node := node / 2;
    }
    assert w.code + [] == w.code;
  }

  /** `emit_verify`: nothing for a leaf outside the tree. */
  method EmitVerify(w: ScriptWriter, p: LmsParams, key: LmsKey, q: nat) returns (ok: bool)
    requires p.w in {1, 2, 4, 8} && p.u <= p.p
    modifies w
    ensures ok == EmitLms(p, key, q).Some?
    ensures w.code == if ok then old(w.code) + EmitLms(p, key, q).value else old(w.code)
  {
    ok := q < p.LeafCount();
    if !ok {
      return;
    }
    hide *;
    FlatAfter(p, key, q);
    LmsVerify.EmitIs(p, key, q);
    Assemble(w.code, DigestOps(key, q), ChecksumHead(p), ChecksumTail(), Flat(ChainsPieces(p, key, q, p.p)),
             KeyOps(p, key, q), PathOps(key, p.LeafCount() + q), Push(key.root), OpEqual);
    EmitMessageDigest(w, key, q);
    EmitChecksumAndV(w, p);
    EmitChains(w, p, key, q);
    EmitCandidateKey(w, p, key, q);
    EmitMerklePath(w, p, key, q);
    w.Data(key.root);
    w.Op(OpEqual);
  }

  lemma Assemble(c0: seq<Op>, d: seq<Op>, h: seq<Op>, t: seq<Op>, c: seq<Op>, k: seq<Op>, p: seq<Op>, x: Op, y: Op)
    ensures c0 + d + h + t + c + k + p + [x] + [y] == c0 + ((d + h) + (t + (c + (k + p + [x, y]))))
    ensures c0 + d + (h + t) == c0 + d + h + t
  {
  }

  lemma FlatAfter(p: LmsParams, key: LmsKey, q: nat)
    requires p.w in {1, 2, 4, 8}
    ensures Flat(AfterChecksum(p, key, q))
            == Flat(ChainsPieces(p, key, q, p.p)) + (KeyOps(p, key, q) + PathOps(key, p.LeafCount() + q)
                                                     + [Push(key.root), OpEqual])
  {
    hide Flat, Ops, ChainsPieces, KeyOps, PathOps, LmsParams.LeafCount;
    var ops := KeyOps(p, key, q) + PathOps(key, p.LeafCount() + q) + [Push(key.root), OpEqual];
    FlatAppend(ChainsPieces(p, key, q, p.p), Ops(ops));
    FlatOps(ops);
  }

  /** `emit_vault_script`: the digest, then the verifier. */
  method EmitVaultScript(w: ScriptWriter, p: LmsParams, key: LmsKey, q: nat, count: nat) returns (ok: bool)
    requires p.w in {1, 2, 4, 8} && p.u <= p.p && w.code == []
    modifies w
    ensures ok == LmsVerify.EmitLmsVault(p, key, q, count).Some?
    ensures ok ==> w.code == LmsVerify.EmitLmsVault(p, key, q, count).value
  {
    hide EmitLms, BindingOps;
    var digest := EmitBindingDigest(count);
    if digest.None? {
      return false;
    }
    w.code := digest.value;
    ok := EmitVerify(w, p, key, q);
  }
}
