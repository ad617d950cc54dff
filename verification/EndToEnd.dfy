/** From the objects and loops to the theorems: what a caller of the generators, the signer and the verifier gets. */
module EndToEnd {
  import opened Bytes
  import opened Lists
  import opened Machine
  import opened Params
  import opened Witness
  import opened Reference
  import opened HostVerifier
  import opened Emission
  import opened SlhProgram
  import opened SlhVerify
  import opened SignatureBytes
  import opened Signing
  import opened SigningKeys
  import opened Binding
  import opened Vault
  import ScriptEmitter
  import Lms
  import LmsScript
  import LmsVerify
  import LmsEmitter

  // ---- SLH-DSA -------------------------------------------------------------

  /** The generated verifier, fed the generated witness, decides what the host verifier decides. */
  method VerifyOnScript(env: Env, p: Params, pk: PublicKey, blobs: seq<nat>, x: Bytes, message: Bytes)
    returns (code: seq<Op>, peak: nat, pushes: seq<Bytes>)
    requires p.WellFormed() && Fed(p, blobs, x)
    ensures VerifyDecides(env, p, pk, blobs, x, message, code, peak, pushes)
  {
    hide *;
    WellFormedSized(p);
    FedFacts(p, blobs, x);
    var built := ScriptEmitter.BuildVerifyScript(p, pk, blobs);
    var cut := WitnessPushes(blobs, |x|, x);
    VerifyAnswers(env, p, pk, blobs, x, message, built, cut.value);
    code, peak, pushes := built.value.0, built.value.1, cut.value;
  }

  /** One boolean at the end, the host verifier's verdict, within the stack estimate. */
  ghost predicate VerifyDecides(env: Env, p: Params, pk: PublicKey, blobs: seq<nat>, x: Bytes, message: Bytes, code: seq<Op>,
                                peak: nat, pushes: seq<Bytes>)
    requires p.WellFormed() && Fed(p, blobs, x)
  {
    Answers(env, code, Pushed(pushes, Cons(message, Nil)), Verifies(env.hash, p, pk, FromBytes(p, x).value, message),
            PeakStackEstimate(blobs, peak))
  }

  lemma VerifyAnswers(env: Env, p: Params, pk: PublicKey, blobs: seq<nat>, x: Bytes, message: Bytes,
                      built: Option<(seq<Op>, nat)>, pushes: seq<Bytes>)
    requires p.WellFormed() && Fed(p, blobs, x) && Sized(p) && |x| == ELEM * Sum(blobs)
    requires built == match EmitVerify(p, pk, blobs) case Some(e) => Some((e.code, e.peak)) case None => None
    requires pushes == WitnessBlobs(blobs, x)
    ensures built.Some? && VerifyDecides(env, p, pk, blobs, x, message, built.value.0, built.value.1, pushes)
  {
    hide *;
    WitnessReassembles(blobs, x);
    VerifyScriptCorrect(env, p, pk, blobs, x, message);
    VerifyDecidesIf(env, p, pk, blobs, x, message, built.value.0, built.value.1, pushes);
  }

  lemma VerifyDecidesIf(env: Env, p: Params, pk: PublicKey, blobs: seq<nat>, x: Bytes, message: Bytes, code: seq<Op>,
                        peak: nat, pushes: seq<Bytes>)
    requires p.WellFormed() && Fed(p, blobs, x)
    requires Answers(env, code, Pushed(pushes, Cons(message, Nil)),
                     Verifies(env.hash, p, pk, FromBytes(p, x).value, message), PeakStackEstimate(blobs, peak))
    ensures VerifyDecides(env, p, pk, blobs, x, message, code, peak, pushes)
  {
    hide Answers, Verifies, FromBytes, PeakStackEstimate, Params.WellFormed, Fed, Pushed;
  }

  /** The generated vault, fed the generated witness, decides over the digest of the spend that runs it. */
  method VaultOnScript(env: Env, p: Params, pk: PublicKey, blobs: seq<nat>, x: Bytes, count: nat)
    returns (code: seq<Op>, peak: nat, pushes: seq<Bytes>)
    requires p.WellFormed() && Fed(p, blobs, x) && Spending(env.tx) && 0 < count <= MAX_OUTPUT_COUNT
    ensures VaultDecides(env, p, pk, blobs, x, count, code, peak, pushes)
  {
    hide *;
    WellFormedSized(p);
    FedFacts(p, blobs, x);
    var built := ScriptEmitter.BuildVaultScript(p, pk, blobs, count);
    var cut := WitnessPushes(blobs, |x|, x);
    VaultAnswers(env, p, pk, blobs, x, count, built, cut.value);
    code, peak, pushes := built.value.0, built.value.1, cut.value;
  }

  /** An abort when a committed field does not fit, and the host verifier's verdict over the spend's digest otherwise. */
  ghost predicate VaultDecides(env: Env, p: Params, pk: PublicKey, blobs: seq<nat>, x: Bytes, count: nat, code: seq<Op>,
                               peak: nat, pushes: seq<Bytes>)
    requires p.WellFormed() && Fed(p, blobs, x) && Spending(env.tx)
  {
    var v := TheView(env.tx);
    if ScriptAccepts(v, count)
    then Answers(env, code, Pushed(pushes, Nil),
                 Verifies(env.hash, p, pk, FromBytes(p, x).value, env.hash(ScriptBytes(v, count))),
                 PeakStackEstimate(blobs, peak))
    else Run(env, code, Pushed(pushes, Nil)).None?
  }

  lemma VaultAnswers(env: Env, p: Params, pk: PublicKey, blobs: seq<nat>, x: Bytes, count: nat,
                     built: Option<(seq<Op>, nat)>, pushes: seq<Bytes>)
    requires p.WellFormed() && Fed(p, blobs, x) && Sized(p) && |x| == ELEM * Sum(blobs)
    requires Spending(env.tx) && 0 < count <= MAX_OUTPUT_COUNT
    requires built == match EmitVault(p, pk, blobs, count) case Some(e) => Some((e.code, e.peak)) case None => None
    requires pushes == WitnessBlobs(blobs, x)
    ensures built.Some? && VaultDecides(env, p, pk, blobs, x, count, built.value.0, built.value.1, pushes)
  {
    WitnessReassembles(blobs, x);
    VaultScriptCorrect(env, p, pk, blobs, x, count);
    hide EmitVault, Answers, Run, Verifies, FromBytes, PeakStackEstimate, ScriptBytes, ScriptAccepts, TheView, WitnessBlobs;
    hide Params.WellFormed, Sized, Fed, Spending, Sum, Pushed;
  }

  /** Whatever a key has signed before, its next signature parses and verifies under its public key. */
  method SignThenVerify(key: SigningKey, message: Bytes, hmac: Hmac, cores: nat, schedule: seq<nat>)
    returns (x: Bytes, ok: bool)
    requires key.Valid() && key.p.d > 0 && key.p.WellFormed() && key.publicKey == KeyGen(key.hash, key.p, key.seeds)
    modifies key
    ensures key.Valid() && key.publicKey == old(key.publicKey) && |x| == key.p.SigLen() && ok
  {
    hide *;
    ghost var r := hmac(key.seeds.skPrf, key.seeds.pkSeed + ContextPrefixed(message))[..16];
    x := key.Sign(message, hmac, cores, schedule);
    Signed(key.hash, key.p, key.seeds, key.publicKey, hmac, message, x);
    var sig := ParseSignature(key.p, x);
    ok := Verify(key.hash, key.p, key.publicKey, sig.value, message);
  }

  lemma Signed(hash: Hash, p: DigitParams, sd: Seeds, pk: PublicKey, hmac: Hmac, message: Bytes, x: Bytes)
    requires p.d > 0 && p.WellFormed() && pk == KeyGen(hash, p, sd)
    requires x == ToBytes(SignWith(hash, p, sd, pk, hmac(sd.skPrf, sd.pkSeed + ContextPrefixed(message))[..N], message))
    ensures |x| == p.SigLen() && FromBytes(p, x).Some? && Verifies(hash, p, pk, FromBytes(p, x).value, message)
  {
    var r := hmac(sd.skPrf, sd.pkSeed + ContextPrefixed(message))[..N];
    assert |r| == N;
    hide *;
    SignaturesVerify(hash, p, sd, r, message);
  }

  /** A spend the serializer accepts, signed by the key over its binding digest, unlocks the generated vault. */
  method SignThenUnlock(env: Env, key: SigningKey, blobs: seq<nat>, v: SpendView, hmac: Hmac, cores: nat, schedule: seq<nat>)
    returns (code: seq<Op>, peak: nat, pushes: seq<Bytes>)
    requires key.Valid() && key.p.d > 0 && key.p.WellFormed() && key.publicKey == KeyGen(key.hash, key.p, key.seeds)
    requires env.hash == key.hash && Spending(env.tx) && v == TheView(env.tx) && Accepted(v)
    requires Positive(blobs) && Sum(blobs) == key.p.SigElements()
    modifies key
    ensures Answers(env, code, Pushed(pushes, Nil), true, PeakStackEstimate(blobs, peak))
  {
    hide *;
    AcceptedWhole(v);
    var preimage := BindingPreimage(v);
    var message := env.hash(preimage.value);
    var x := key.Sign(message, hmac, cores, schedule);
    Signed(key.hash, key.p, key.seeds, key.publicKey, hmac, message, x);
    FedIf(key.p, blobs, x);
    code, peak, pushes := VaultOnScript(env, key.p, key.publicKey, blobs, x, |v.outputs|);
    Unlocked(env, key.p, key.publicKey, blobs, x, code, peak, pushes);
  }

  lemma Unlocked(env: Env, p: Params, pk: PublicKey, blobs: seq<nat>, x: Bytes, code: seq<Op>, peak: nat, pushes: seq<Bytes>)
    requires p.WellFormed() && Fed(p, blobs, x) && Spending(env.tx)
    requires ScriptAccepts(TheView(env.tx), |TheView(env.tx).outputs|) && FromBytes(p, x).Some?
    requires Verifies(env.hash, p, pk, FromBytes(p, x).value,
                      env.hash(ScriptBytes(TheView(env.tx), |TheView(env.tx).outputs|)))
    requires VaultDecides(env, p, pk, blobs, x, |TheView(env.tx).outputs|, code, peak, pushes)
    ensures Answers(env, code, Pushed(pushes, Nil), true, PeakStackEstimate(blobs, peak))
  {
    hide Answers, Run, Verifies, FromBytes, PeakStackEstimate, ScriptBytes, ScriptAccepts, TheView, Pushed;
    hide Params.WellFormed, Fed, Spending;
  }

  lemma AcceptedWhole(v: SpendView)
    requires Accepted(v)
    ensures 0 < |v.outputs| <= MAX_OUTPUT_COUNT && Preimage(v).Some?
    ensures ScriptAccepts(v, |v.outputs|) && Preimage(v).value == ScriptBytes(v, |v.outputs|)
  {
    WholeSpend(v);
  }

  // ---- LMS -----------------------------------------------------------------

  /** The generated LMS verifier, fed the generated witness, answers root equality, or aborts on a checksum of 2^15. */
  method LmsOnScript(env: Env, p: Lms.LmsParams, key: Lms.LmsKey, q: nat, x: Bytes, message: Bytes)
    returns (code: seq<Op>, pushes: seq<Bytes>)
    requires p.WellFormed() && q < p.LeafCount() && |x| == p.SignatureLen()
    ensures LmsDecides(env, p, key, q, x, message, code, pushes)
  {
    hide *;
    LmsWidths(p);
    var w := new LmsEmitter.ScriptWriter();
    var ok := LmsEmitter.EmitVerify(w, p, key, q);
    code := w.code;
    var cut := Lms.WitnessPushes(p, x);
    pushes := cut.value;
    LmsAnswers(env, p, key, q, x, message, code, pushes);
  }

  ghost predicate LmsDecides(env: Env, p: Lms.LmsParams, key: Lms.LmsKey, q: nat, x: Bytes, message: Bytes, code: seq<Op>,
                             pushes: seq<Bytes>)
    requires p.WellFormed() && |x| == p.SignatureLen()
  {
    var s := Lms.ParseLms(p, x);
    LmsVerify.Outcome(env, code, VM(Cons(message, PushAll(pushes, Nil)), Nil, Nil, |pushes| + 1),
                      if Lms.FullChecksum(Lms.MessageDigest(env.hash, key.id, q, s.c, message), p) < 32768
                      then Some(Lms.CandidateRoot(env.hash, p, key.id, q, s.c, s.y, s.path, message) == key.root)
                      else None)
  }

  lemma LmsAnswers(env: Env, p: Lms.LmsParams, key: Lms.LmsKey, q: nat, x: Bytes, message: Bytes, code: seq<Op>,
                   pushes: seq<Bytes>)
    requires p.WellFormed() && q < p.LeafCount() && |x| == p.SignatureLen() && p.w in {1, 2, 4, 8}
    requires LmsScript.EmitLms(p, key, q).Some? ==> code == LmsScript.EmitLms(p, key, q).value
    requires pushes == Lms.LmsPushes(Lms.ParseLms(p, x))
    ensures LmsDecides(env, p, key, q, x, message, code, pushes)
  {
    hide *;
    var s := Lms.ParseLms(p, x);
    LmsVerify.WitnessLayout(s);
    LmsPushCount(s);
    LmsVerify.LmsScriptCorrect(env, p, key, q, s, message, 2 + p.p + p.h);
    LmsDecidesIf(env, p, key, q, x, message, code, pushes);
  }

  lemma LmsDecidesIf(env: Env, p: Lms.LmsParams, key: Lms.LmsKey, q: nat, x: Bytes, message: Bytes, code: seq<Op>,
                     pushes: seq<Bytes>)
    requires p.WellFormed() && |x| == p.SignatureLen()
    requires var s := Lms.ParseLms(p, x);
             LmsVerify.Outcome(env, code, VM(Cons(message, PushAll(pushes, Nil)), Nil, Nil, |pushes| + 1),
                               if Lms.FullChecksum(Lms.MessageDigest(env.hash, key.id, q, s.c, message), p) < 32768
                               then Some(Lms.CandidateRoot(env.hash, p, key.id, q, s.c, s.y, s.path, message) == key.root)
                               else None)
    ensures LmsDecides(env, p, key, q, x, message, code, pushes)
  {
    hide Lms.LmsParams.WellFormed, LmsVerify.Outcome, Lms.CandidateRoot, Lms.FullChecksum, Lms.MessageDigest, Lms.ParseLms;
  }

  lemma LmsPushCount(s: Lms.LmsSignature)
    ensures |Lms.LmsPushes(s)| == 1 + |s.y| + |s.path|
  {
  }

  lemma LmsWidths(p: Lms.LmsParams)
    requires p.WellFormed()
    ensures p.u <= p.p && p.w in {1, 2, 4, 8}
  {
  }
}
