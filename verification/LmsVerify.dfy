/** The emitted LMS script, on the engine, decides exactly what section 5.4.2 of RFC 8554 decides. */
module LmsVerify {
  import opened Arith
  import opened Bytes
  import opened Lists
  import opened Numbers
  import opened Machine
  import opened Lane
  import opened Lms
  import opened LmsScript
  import opened Binding

  // ---- the whole meaning ---------------------------------------------------

  lemma KeyStraight(p: LmsParams, key: LmsKey, q: nat)
    ensures Straight(KeyOps(p, key, q))
  {
    hide Prefix;
    AltsStraight(p.p);
    CatsStraight(if p.p > 0 then p.p - 1 else 0);
  }

  lemma PathStraight(key: LmsKey, node: nat)
    ensures Straight(PathOps(key, node))
  {
    hide Prefix;
    LevelsStraight(key, node);
  }

  lemma EndStraight(p: LmsParams, key: LmsKey, q: nat)
    ensures Straight(KeyOps(p, key, q) + PathOps(key, p.LeafCount() + q) + [Push(key.root), OpEqual])
  {
    KeyStraight(p, key, q);
    PathStraight(key, p.LeafCount() + q);
    hide KeyOps, PathOps, Straight;
    JoinStraight(KeyOps(p, key, q), PathOps(key, p.LeafCount() + q), key.root);
  }

  lemma JoinStraight(a: seq<Op>, b: seq<Op>, root: Bytes)
    requires Straight(a) && Straight(b)
    ensures Straight(a + b + [Push(root), OpEqual])
  {
  }

  lemma {:induction false} AltsStraight(n: nat)
    ensures Straight(FromAlts(n))
  {
    if n > 0 {
      AltsStraight(n - 1);
    }
  }

  lemma {:induction false} CatsStraight(n: nat)
    ensures Straight(SwapCats(n))
  {
    if n > 0 {
      CatsStraight(n - 1);
    }
  }

  lemma {:induction false} LevelsStraight(key: LmsKey, node: nat)
    ensures Straight(LevelsOps(key, node))
    decreases node
  {
    hide Prefix;
    if node > 1 {
      LevelsStraight(key, node / 2);
    }
  }

  /** The stack the verifier starts from: message, C, y and path, then whatever lies below. */
  function LmsStart(s: LmsSignature, message: Bytes, t: List<Val>): List<Val>
  {
    Cons(Blob(message), Cons(Blob(s.c), Blobs(s.y, Blobs(s.path, t))))
  }

  /** From the digest on, when its checksum stays clear of the sign bit. */
  lemma AfterDigest(env: Env, p: LmsParams, key: LmsKey, q: nat, y: seq<Bytes>, path: seq<Bytes>, d: Bytes, t: List<Val>,
                    alt: List<Val>)
    requires p.WellFormed() && |y| == p.p && |path| == p.h && |d| == NODE && q < p.LeafCount()
    ensures Do(env, AfterChecksum(p, key, q), On(Cons(Blob(CoefSource(d, p)), Blobs(y, Blobs(path, t))), alt))
            == On(Cons(Num(BoolNum(ClimbFrom(env.hash, p, key.id, q, y, path, d) == key.root)), t), alt)
  {
    hide *;
    WidthFacts(p);
    ChainCount(p);
    var v := CoefSource(d, p);
    var below := Blobs(path, t);
    var ends := Ends(env.hash, p, key.id, q, v, y, p.p);
    var s := On(Cons(Blob(v), Blobs(y, below)), alt);
    ChainsOk(env, p, key, q, v, y, p.p, below, alt);
    assert y[p.p..] == [];
    NoBlobs(below);
    KeyOpsOk(env, p, key, q, Blob(v), ends, below, alt);
    JoinedEnds(env.hash, p, key.id, q, v, y, p.p, p.p);
    var kc := CandidateKey(env.hash, p, key.id, q, y, d);
    KeyIs(env.hash, p, key.id, q, y, d);
    NodeNumber(p, q);
    PathOpsOk(env, key, p.LeafCount() + q, kc, path, t, alt);
    ClimbIs(env.hash, p, key.id, q, y, path, d);
    RootEqual(env, ClimbFrom(env.hash, p, key.id, q, y, path, d), key.root, t, alt);
    AfterParts(env, p, key, q, s);
  }

  /** The candidate root from a digest already taken. */
  function ClimbFrom(hash: Hash, p: LmsParams, id: Bytes, q: nat, y: seq<Bytes>, path: seq<Bytes>, d: Bytes): Bytes
    requires p.WellFormed() && |y| == p.p && |d| == NODE
  {
    var node := p.LeafCount() + q;
    Climb(hash, id, node, hash(Prefix(id, node, D_LEAF) + CandidateKey(hash, p, id, q, y, d)), path, 0)
  }

  lemma ChainCount(p: LmsParams)
    requires p.WellFormed()
    ensures p.p > 0
  {
    hide Pow2, LmsParams.MaxSum;
  }

  lemma NoBlobs(t: List<Val>)
    ensures Blobs([], t) == t
  {
  }

  lemma KeyIs(hash: Hash, p: LmsParams, id: Bytes, q: nat, y: seq<Bytes>, d: Bytes)
    requires p.WellFormed() && |y| == p.p && |d| == NODE
    ensures CandidateKey(hash, p, id, q, y, d)
            == hash(Prefix(id, q, D_PBLC) + ChainEndsTo(hash, p, id, q, CoefSource(d, p), y, p.p))
  {
    hide ChainEndsTo, CoefSource, Prefix;
  }

  lemma ClimbIs(hash: Hash, p: LmsParams, id: Bytes, q: nat, y: seq<Bytes>, path: seq<Bytes>, d: Bytes)
    requires p.WellFormed() && |y| == p.p && |d| == NODE
    ensures var node := p.LeafCount() + q;
            ClimbFrom(hash, p, id, q, y, path, d)
            == Climb(hash, id, node, hash(Prefix(id, node, D_LEAF) + CandidateKey(hash, p, id, q, y, d)), path, 0)
  {
    hide Climb, CandidateKey, Prefix, Pow2;
  }

  lemma NodeNumber(p: LmsParams, q: nat)
    requires q < p.LeafCount()
    ensures Pow2(p.h) <= p.LeafCount() + q < Pow2(p.h + 1)
  {
  }

  lemma RootEqual(env: Env, root: Bytes, want: Bytes, t: List<Val>, alt: List<Val>)
    ensures DoOps(env, [Push(want), OpEqual], On(Cons(Blob(root), t), alt)) == On(Cons(Num(BoolNum(root == want)), t), alt)
  {
    hide DoOps, DoOp;
    SequenceRules(env);
    ShuffleRules(env);
    BytesRules(env);
  }

  lemma AfterParts(env: Env, p: LmsParams, key: LmsKey, q: nat, s: State)
    requires p.w in {1, 2, 4, 8}
    ensures Do(env, AfterChecksum(p, key, q), s)
            == DoOps(env, [Push(key.root), OpEqual], DoOps(env, PathOps(key, p.LeafCount() + q),
               DoOps(env, KeyOps(p, key, q), Do(env, ChainsPieces(p, key, q, p.p), s))))
  {
    EndStraight(p, key, q);
    hide Do, DoOps, Ops, ChainsPieces, KeyOps, PathOps, Straight, LmsParams.LeafCount;
    var a, b, c := KeyOps(p, key, q), PathOps(key, p.LeafCount() + q), [Push(key.root), OpEqual];
    DoAppend(env, ChainsPieces(p, key, q, p.p), Ops(a + b + c), s);
    var s1 := Do(env, ChainsPieces(p, key, q, p.p), s);
    OpsMeaning(env, a + b + c, s1);
    DoOpsAppend(env, a, b, s1);
    DoOpsAppend(env, a + b, c, s1);
  }

  // ---- on the engine -------------------------------------------------------

  /** The typed machine at the start. */
  function Begin(s: LmsSignature, message: Bytes, peak: nat): VM<Val>
  {
    VM(LmsStart(s, message, Nil), Nil, Nil, peak)
  }

  /** Up to the two-byte encoding of the checksum. */
  lemma HeadRuns(env: Env, p: LmsParams, key: LmsKey, q: nat, s: LmsSignature, message: Bytes, m: VM<Val>)
    requires p.WellFormed() && m == Begin(s, message, m.peak) && Size(m) <= m.peak
    ensures var d := MessageDigest(env.hash, key.id, q, s.c, message);
            var code := DigestOps(key, q) + ChecksumHead(p);
            var after := On(Cons(Num(2), Cons(Num(FullChecksum(d, p)), Cons(Blob(d), Blobs(s.y, Blobs(s.path, Nil))))), Nil);
            TRun(env, code, m).Some? && At(TRun(env, code, m).value, after) && TRun(env, code, m).value.cond == Nil
  {
    hide *;
    WidthFacts(p);
    var t := Blobs(s.y, Blobs(s.path, Nil));
    var d := MessageDigest(env.hash, key.id, q, s.c, message);
    BeginAt(s, message, m);
    DigestOpsOk(env, key, q, s.c, message, t, Nil);
    ChecksumHeadOk(env, p, d, t, Nil);
    DoOpsAppend(env, DigestOps(key, q), ChecksumHead(p), On(LmsStart(s, message, Nil), Nil));
    OpsRun(env, DigestOps(key, q) + ChecksumHead(p), m, On(LmsStart(s, message, Nil), Nil));
  }

  lemma BeginAt(s: LmsSignature, message: Bytes, m: VM<Val>)
    requires m == Begin(s, message, m.peak) && Size(m) <= m.peak
    ensures At(m, On(LmsStart(s, message, Nil), Nil)) && m.cond == Nil
    ensures LmsStart(s, message, Nil) == Cons(Blob(message), Cons(Blob(s.c), Blobs(s.y, Blobs(s.path, Nil))))
  {
  }

  /** The rest, when the encoding succeeds. */
  lemma TailRuns(env: Env, p: LmsParams, key: LmsKey, q: nat, y: seq<Bytes>, path: seq<Bytes>, d: Bytes, m: VM<Val>)
    requires p.WellFormed() && |y| == p.p && |path| == p.h && |d| == NODE && q < p.LeafCount()
    requires FullChecksum(d, p) < 32768
    requires At(m, On(Cons(Num(2), Cons(Num(FullChecksum(d, p)), Cons(Blob(d), Blobs(y, Blobs(path, Nil))))), Nil))
    ensures var code := ChecksumTail() + Flat(AfterChecksum(p, key, q));
            var after := On(Cons(Num(BoolNum(ClimbFrom(env.hash, p, key.id, q, y, path, d) == key.root)), Nil), Nil);
            TRun(env, code, m).Some? && At(TRun(env, code, m).value, after) && TRun(env, code, m).value.cond == m.cond
  {
    hide *;
    WidthFacts(p);
    var t := Blobs(y, Blobs(path, Nil));
    var s := On(Cons(Num(2), Cons(Num(FullChecksum(d, p)), Cons(Blob(d), t))), Nil);
    ChecksumTailOk(env, p, d, t, Nil);
    OpsRun(env, ChecksumTail(), m, s);
    var m1 := TRun(env, ChecksumTail(), m).value;
    AfterDigest(env, p, key, q, y, path, d, Nil, Nil);
    LaneRun(env, AfterChecksum(p, key, q), m1, On(Cons(Blob(CoefSource(d, p)), t), Nil));
    TRunAppend(env, ChecksumTail(), Flat(AfterChecksum(p, key, q)), m);
  }

  /** A checksum that reaches the sign bit stops the script. */
  lemma WideAborts(env: Env, c: nat, m: VM<Val>, t: List<Val>, rest: seq<Op>)
    requires 32768 <= c < 65536 && m.cond == Nil && m.stack == Cons(Num(2), Cons(Num(c), t))
    ensures Run(env, [OpNum2Bin] + rest, Rep(m)) == None
  {
    WordFits(c);
    AsNumMinEnc(c);
    AsNumMinEnc(2);
    hide Num2BinBytes, MinEnc, AsNum;
    RepTop(m.stack);
    assert Exec(env, OpNum2Bin, Rep(m)) == None;
    assert ([OpNum2Bin] + rest)[0] == OpNum2Bin;
  }

  lemma EmitIs(p: LmsParams, key: LmsKey, q: nat)
    requires p.w in {1, 2, 4, 8} && q < p.LeafCount()
    ensures EmitLms(p, key, q).Some?
    ensures EmitLms(p, key, q).value
            == (DigestOps(key, q) + ChecksumHead(p)) + (ChecksumTail() + Flat(AfterChecksum(p, key, q)))
    ensures ChecksumTail() + Flat(AfterChecksum(p, key, q))
            == [OpNum2Bin] + (SwapBytesOps() + Flat(AfterChecksum(p, key, q)))
  {
    hide DigestOps, ChecksumHead, AfterChecksum, Flat, SwapBytesOps;
  }

  /** What the byte-level run must come to: one boolean and empty stacks, or an abort. */
  ghost predicate Outcome(env: Env, code: seq<Op>, m: VM<Bytes>, answer: Option<bool>)
  {
    var r := Run(env, code, m);
    match answer
    case None => r.None?
    case Some(b) => r.Some? && r.value.stack == Cons(MinEnc(BoolNum(b)), Nil) && r.value.alt == Nil && r.value.cond == Nil
  }

  /**
   * For every parameter set, key, leaf, message and signature: the script answers whether the candidate root is the
   * pinned one, consuming exactly p chain values and h path nodes, if and only if the digest's checksum stays below 2^15;
   * otherwise it aborts.
   */
  lemma LmsScriptCorrect(env: Env, p: LmsParams, key: LmsKey, q: nat, s: LmsSignature, message: Bytes, peak: nat)
    requires p.WellFormed() && q < p.LeafCount() && |s.y| == p.p && |s.path| == p.h
    requires 2 + |s.y| + |s.path| <= peak
    ensures p.w in {1, 2, 4, 8} && EmitLms(p, key, q).Some?
    ensures var d := MessageDigest(env.hash, key.id, q, s.c, message);
            var m0 := VM(Cons(message, Cons(s.c, Stack(s.y, Stack(s.path, Nil)))), Nil, Nil, peak);
            Outcome(env, EmitLms(p, key, q).value, m0,
                    if FullChecksum(d, p) < 32768
                    then Some(CandidateRoot(env.hash, p, key.id, q, s.c, s.y, s.path, message) == key.root)
                    else None)
  {
    hide *;
    WidthFacts(p);
    EmitIs(p, key, q);
    var d := MessageDigest(env.hash, key.id, q, s.c, message);
    var m := Begin(s, message, peak);
    BeginRep(s, message, peak);
    HeadRuns(env, p, key, q, s, message, m);
    var head := DigestOps(key, q) + ChecksumHead(p);
    var m1 := TRun(env, head, m).value;
    RunRep(env, head, m);
    ChecksumFits16(d, p);
    Sixteen();
    var tail := ChecksumTail() + Flat(AfterChecksum(p, key, q));
    RunSeq(env, head, tail, Rep(m));
    if FullChecksum(d, p) < 32768 {
      TailRuns(env, p, key, q, s.y, s.path, d, m1);
      RunRep(env, tail, m1);
      RootOfMessage(env.hash, p, key.id, q, s, message);
      Answered(env, tail, m1, head + tail, Rep(m), ClimbFrom(env.hash, p, key.id, q, s.y, s.path, d) == key.root);
    } else {
      AtStack(m1, On(Cons(Num(2), Cons(Num(FullChecksum(d, p)), Cons(Blob(d), Blobs(s.y, Blobs(s.path, Nil))))), Nil));
      WideAborts(env, FullChecksum(d, p), m1, Cons(Blob(d), Blobs(s.y, Blobs(s.path, Nil))),
                 SwapBytesOps() + Flat(AfterChecksum(p, key, q)));
      Aborted(env, head + tail, Rep(m));
    }
  }

  /** The one-bit set: the script answers for every digest but one, and aborts on the all-zero digest. */
  lemma OneBitScript(env: Env, key: LmsKey, q: nat, s: LmsSignature, message: Bytes, peak: nat)
    requires SHA256_H5_W1.WellFormed() && q < SHA256_H5_W1.LeafCount()
    requires |s.y| == SHA256_H5_W1.p && |s.path| == SHA256_H5_W1.h && 2 + |s.y| + |s.path| <= peak
    ensures EmitLms(SHA256_H5_W1, key, q).Some?
    ensures Outcome(env, EmitLms(SHA256_H5_W1, key, q).value,
                    VM(Cons(message, Cons(s.c, Stack(s.y, Stack(s.path, Nil)))), Nil, Nil, peak),
                    if MessageDigest(env.hash, key.id, q, s.c, message) == Zeros(NODE) then None
                    else Some(CandidateRoot(env.hash, SHA256_H5_W1, key.id, q, s.c, s.y, s.path, message) == key.root))
  {
    hide Outcome, EmitLms, CandidateRoot, FullChecksum, LmsParams.WellFormed, LmsParams.LeafCount;
    OneBitChecksum(MessageDigest(env.hash, key.id, q, s.c, message));
    LmsScriptCorrect(env, SHA256_H5_W1, key, q, s, message, peak);
  }

  lemma AtStack(m: VM<Val>, s: State)
    requires At(m, s)
    ensures s.On? && m.stack == s.stk && m.alt == s.alt
  {
  }

  lemma Aborted(env: Env, code: seq<Op>, m: VM<Bytes>)
    requires Run(env, code, m) == None
    ensures Outcome(env, code, m, None)
  {
    hide Run;
  }

  lemma Answered(env: Env, tail: seq<Op>, m1: VM<Val>, code: seq<Op>, m0: VM<Bytes>, b: bool)
    requires TRun(env, tail, m1).Some? && At(TRun(env, tail, m1).value, On(Cons(Num(BoolNum(b)), Nil), Nil))
    requires TRun(env, tail, m1).value.cond == Nil
    requires Run(env, code, m0) == Some(Rep(TRun(env, tail, m1).value))
    ensures Outcome(env, code, m0, Some(b))
  {
    hide Run, TRun;
  }

  lemma RootOfMessage(hash: Hash, p: LmsParams, id: Bytes, q: nat, s: LmsSignature, message: Bytes)
    requires p.WellFormed() && |s.y| == p.p
    ensures CandidateRoot(hash, p, id, q, s.c, s.y, s.path, message)
            == ClimbFrom(hash, p, id, q, s.y, s.path, MessageDigest(hash, id, q, s.c, message))
  {
    hide Climb, CandidateKey, Prefix, Pow2;
  }

  lemma {:induction false} BlobsRep(xs: seq<Bytes>, t: List<Val>)
    ensures RepList(Blobs(xs, t)) == Stack(xs, RepList(t)) && Len(Blobs(xs, t)) == |xs| + Len(t)
  {
    if |xs| > 0 {
      BlobsRep(xs[1..], t);
    }
  }

  lemma BeginRep(s: LmsSignature, message: Bytes, peak: nat)
    requires 2 + |s.y| + |s.path| <= peak
    ensures Rep(Begin(s, message, peak)) == VM(Cons(message, Cons(s.c, Stack(s.y, Stack(s.path, Nil)))), Nil, Nil, peak)
    ensures Size(Begin(s, message, peak)) <= peak && Begin(s, message, peak).peak == peak
  {
    BlobsRep(s.y, Blobs(s.path, Nil));
    BlobsRep(s.path, Nil);
    RepTop(LmsStart(s, message, Nil));
  }

  // ---- from the signature's bytes ------------------------------------------

  lemma {:induction false} PushAllAppend<T>(a: seq<T>, b: seq<T>, l: List<T>)
    ensures PushAll(a + b, l) == PushAll(b, PushAll(a, l))
  {
    if |a| == 0 {
      assert a + b == b;
    } else {
      assert (a + b)[1..] == a[1..] + b;
      PushAllAppend(a[1..], b, Cons(a[0], l));
    }
  }

  lemma {:induction false} PushReversedIsStack(xs: seq<Bytes>, l: List<Bytes>)
    ensures PushAll(Reversed(xs), l) == Stack(xs, l)
  {
    if |xs| > 0 {
      PushReversedIsStack(xs[1..], l);
      PushAllSnoc(Reversed(xs[1..]), xs[0], l);
    }
  }

  /** The witness layout is the one the script consumes. */
  lemma WitnessLayout(s: LmsSignature)
    ensures PushAll(LmsPushes(s), Nil) == Cons(s.c, Stack(s.y, Stack(s.path, Nil)))
  {
    PushAllSnoc(Reversed(s.path) + Reversed(s.y), s.c, Nil);
    PushAllAppend(Reversed(s.path), Reversed(s.y), Nil);
    PushReversedIsStack(s.path, Nil);
    PushReversedIsStack(s.y, PushAll(Reversed(s.path), Nil));
  }

  /** The bare verifier on `witness_pushes` and a message, for the sets whose checksum never reaches the sign bit. */
  lemma LmsVerifies(env: Env, p: LmsParams, key: LmsKey, q: nat, x: Bytes, message: Bytes)
    requires p.WellFormed() && p.Narrow() && q < p.LeafCount() && |x| == p.SignatureLen()
    ensures p.w in {1, 2, 4, 8} && EmitLms(p, key, q).Some?
    ensures var s := ParseLms(p, x);
            Outcome(env, EmitLms(p, key, q).value,
                    VM(Cons(message, PushAll(LmsPushes(s), Nil)), Nil, Nil, 2 + p.p + p.h),
                    Some(CandidateRoot(env.hash, p, key.id, q, s.c, s.y, s.path, message) == key.root))
  {
    hide *;
    var s := ParseLms(p, x);
    WitnessLayout(s);
    ChecksumFits16(MessageDigest(env.hash, key.id, q, s.c, message), p);
    LmsScriptCorrect(env, p, key, q, s, message, 2 + p.p + p.h);
  }

  // ---- the LMS vault -------------------------------------------------------

  /** `emit_vault_script`: rebuild the digest, then verify. */
  function EmitLmsVault(p: LmsParams, key: LmsKey, q: nat, count: nat): Option<seq<Op>>
    requires p.w in {1, 2, 4, 8}
  {
    match (BindingOps(count), EmitLms(p, key, q))
    case (Some(binding), Some(verify)) => Some(binding + verify)
    case _ => None
  }

  /**
   * The message is not in the witness. For every parameter set, transaction and unrolled output count the script answers
   * for the digest of this very spend, or aborts because a committed field does not fit or the checksum reaches the sign
   * bit.
   */
  lemma LmsVaultCorrect(env: Env, p: LmsParams, key: LmsKey, q: nat, x: Bytes, count: nat)
    requires p.WellFormed() && q < p.LeafCount() && |x| == p.SignatureLen()
    requires Spending(env.tx) && 0 < count <= MAX_OUTPUT_COUNT
    ensures p.w in {1, 2, 4, 8} && EmitLmsVault(p, key, q, count).Some?
    ensures var s := ParseLms(p, x);
            var v := TheView(env.tx);
            Outcome(env, EmitLmsVault(p, key, q, count).value, VM(PushAll(LmsPushes(s), Nil), Nil, Nil, 1 + p.p + p.h),
                    if ScriptAccepts(v, count) then VaultAnswer(env, p, key, q, s, ScriptBytes(v, count)) else None)
  {
    var s := ParseLms(p, x);
    var v := TheView(env.tx);
    var m0 := VM(PushAll(LmsPushes(s), Nil), Nil, Nil, 1 + p.p + p.h);
    BindingGenerates(count);
    AcceptsWithin(v, count);
    hide *;
    WidthFacts(p);
    WitnessLayout(s);
    WitnessLive(s, 1 + p.p + p.h);
    BindingRuns(env, count, m0);
    EmitIs(p, key, q);
    VaultCode(p, key, q, count);
    RunSeq(env, BindingOps(count).value, EmitLms(p, key, q).value, m0);
    if ScriptAccepts(v, count) {
      var m1 := Run(env, BindingOps(count).value, m0).value;
      var message := env.hash(ScriptBytes(v, count));
      LmsScriptCorrect(env, p, key, q, s, message, m1.peak);
      VaultAnswerIs(env, p, key, q, s, ScriptBytes(v, count));
      Continued(env, EmitLmsVault(p, key, q, count).value, m0, EmitLms(p, key, q).value, m1,
                VaultAnswer(env, p, key, q, s, ScriptBytes(v, count)));
    } else {
      Aborted(env, EmitLmsVault(p, key, q, count).value, m0);
    }
  }

  /** The verifier's answer over the hash of a preimage; None when the checksum does not fit its two bytes. */
  function VaultAnswer(env: Env, p: LmsParams, key: LmsKey, q: nat, s: LmsSignature, preimage: Bytes): Option<bool>
    requires p.WellFormed() && |s.y| == p.p
  {
    var message := env.hash(preimage);
    if FullChecksum(MessageDigest(env.hash, key.id, q, s.c, message), p) < 32768
    then Some(CandidateRoot(env.hash, p, key.id, q, s.c, s.y, s.path, message) == key.root)
    else None
  }

  lemma VaultAnswerIs(env: Env, p: LmsParams, key: LmsKey, q: nat, s: LmsSignature, preimage: Bytes)
    requires p.WellFormed() && |s.y| == p.p
    ensures var message := env.hash(preimage);
            VaultAnswer(env, p, key, q, s, preimage)
            == if FullChecksum(MessageDigest(env.hash, key.id, q, s.c, message), p) < 32768
               then Some(CandidateRoot(env.hash, p, key.id, q, s.c, s.y, s.path, message) == key.root)
               else None
  {
    hide FullChecksum, MessageDigest, CandidateRoot;
  }

  /** Unrolled to the spend's own outputs, the message is the host's binding digest, refusal for refusal. */
  lemma LmsVaultBindsSpend(env: Env, p: LmsParams, key: LmsKey, q: nat, x: Bytes)
    requires p.WellFormed() && q < p.LeafCount() && |x| == p.SignatureLen()
    requires Spending(env.tx) && 0 < |env.tx.outputs| <= MAX_OUTPUT_COUNT
    ensures p.w in {1, 2, 4, 8} && EmitLmsVault(p, key, q, |env.tx.outputs|).Some?
    ensures var s := ParseLms(p, x);
            Outcome(env, EmitLmsVault(p, key, q, |env.tx.outputs|).value,
                    VM(PushAll(LmsPushes(s), Nil), Nil, Nil, 1 + p.p + p.h),
                    match Preimage(TheView(env.tx))
                    case None => None
                    case Some(b) => VaultAnswer(env, p, key, q, s, b))
  {
    var v := TheView(env.tx);
    assert v.outputs == env.tx.outputs;
    hide *;
    LmsVaultCorrect(env, p, key, q, x, |v.outputs|);
    WholeSpend(v);
  }

  lemma AcceptsWithin(v: SpendView, count: nat)
    ensures ScriptAccepts(v, count) ==> count <= |v.outputs|
  {
  }

  lemma BindingGenerates(count: nat)
    requires 0 < count <= MAX_OUTPUT_COUNT
    ensures BindingOps(count).Some?
  {
  }

  lemma VaultCode(p: LmsParams, key: LmsKey, q: nat, count: nat)
    requires p.w in {1, 2, 4, 8} && BindingOps(count).Some? && EmitLms(p, key, q).Some?
    ensures EmitLmsVault(p, key, q, count) == Some(BindingOps(count).value + EmitLms(p, key, q).value)
  {
    hide BindingOps, EmitLms;
  }

  lemma Continued(env: Env, code: seq<Op>, m0: VM<Bytes>, rest: seq<Op>, m1: VM<Bytes>, answer: Option<bool>)
    requires Run(env, code, m0) == Run(env, rest, m1) && Outcome(env, rest, m1, answer)
    ensures Outcome(env, code, m0, answer)
  {
    hide Run;
  }

  lemma WitnessLive(s: LmsSignature, peak: nat)
    requires 1 + |s.y| + |s.path| <= peak
    ensures Live(VM(Cons(s.c, Stack(s.y, Stack(s.path, Nil))), Nil, Nil, peak))
    ensures 1 + |s.y| + |s.path| == Len(Cons(s.c, Stack(s.y, Stack(s.path, Nil))))
  {
  }

  lemma BindingRuns(env: Env, count: nat, m: VM<Bytes>)
    requires Spending(env.tx) && 0 < count <= MAX_OUTPUT_COUNT
    requires Live(m) && m.alt == Nil && m.cond == Nil && BindingOps(count).Some?
    ensures var v := TheView(env.tx);
            var run := Run(env, BindingOps(count).value, m);
            && (run.Some? <==> ScriptAccepts(v, count))
            && (run.Some? ==>
                  && count <= |v.outputs|
                  && run.value == VM(Cons(env.hash(ScriptBytes(v, count)), m.stack), Nil, Nil, run.value.peak)
                  && Len(m.stack) + 1 <= run.value.peak)
  {
    hide Run, HeaderAccepted, OutputsAccepted, Live, Spending, BindingOps, ScriptBytes;
    BindingYields(env, count, m, Len(m.stack) + 3 + Len(m.alt));
  }
}
