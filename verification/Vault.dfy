/** The vault redeem script: the verifier over a message the script rebuilds from the spend itself. */
module Vault {
  import opened Bytes
  import opened Lists
  import opened Machine
  import opened Params
  import opened Emission
  import opened Witness
  import opened Reference
  import opened SlhProgram
  import opened SlhVerify
  import opened Binding
  import opened Signing
  import opened SignatureBytes

  /** `emit_vault_script`: queue the blobs, rebuild the digest, verify. */
  function EmitVault(p: Params, pk: PublicKey, blobs: seq<nat>, count: nat): Option<Em>
    requires Sized(p)
  {
    match BindingOps(count)
    case None => None
    case Some(ops) => EmitBody(p, pk, blobs, Begin(Prologue(|blobs|) + ops))
  }

  /** The digest part, run on the queue. */
  lemma DigestReady(env: Env, pushes: seq<Bytes>, count: nat)
    requires Spending(env.tx) && 0 < count <= MAX_OUTPUT_COUNT
    ensures var pre := Prologue(|pushes|) + BindingOps(count).value;
            var v := TheView(env.tx);
            var run := Run(env, pre, Pushed(pushes, Nil));
            && (run.Some? <==> ScriptAccepts(v, count))
            && (run.Some? ==>
                  && |pushes| + 1 <= run.value.peak <= |pushes| + 3
                  && run.value == Ready(pushes, env.hash(ScriptBytes(v, count)), run.value.peak))
  {
    hide Run, HeaderOps, OutputsOps, Prologue, Spending, HeaderAccepted, OutputsAccepted, ScriptBytes, PushAll;
    PrologueRun(env, pushes, Nil, Nil, |pushes|);
    var m := VM(Nil, Stack(pushes, Nil), Nil, |pushes|);
    BindingYields(env, count, m, |pushes| + 3);
    RunSeq(env, Prologue(|pushes|), BindingOps(count).value, Pushed(pushes, Nil));
  }

  /**
   * The vault script on any witness, for any transaction and any pushes, one a blob and of any lengths: it aborts when a
   * committed field does not fit or a push is cut short, and otherwise answers the verifier's equation, over the
   * elements the pushes are cut into and the digest of this very spend.
   */
  lemma VaultAnyPushes(env: Env, p: Params, pk: PublicKey, blobs: seq<nat>, pushes: seq<Bytes>, count: nat)
    requires p.WellFormed() && Planned(p, blobs) && |pushes| == |blobs|
    requires Spending(env.tx) && 0 < count <= MAX_OUTPUT_COUNT
    ensures Sized(p) && EmitVault(p, pk, blobs, count).Some?
    ensures var e := EmitVault(p, pk, blobs, count);
            var v := TheView(env.tx);
            if ScriptAccepts(v, count) then
              Judges(env, p, pk, blobs, pushes, env.hash(ScriptBytes(v, count)), e, Pushed(pushes, Nil))
            else Run(env, e.value.code, Pushed(pushes, Nil)).None?
  {
    var v := TheView(env.tx);
    var ops := BindingOps(count).value;
    var pre := Prologue(|pushes|) + ops;
    hide *;
    WellFormedSized(p);
    DigestReady(env, pushes, count);
    EmitVaultIs(p, pk, blobs, count);
    GenerationSucceeds(env, p, pk, blobs, pre);
    if ScriptAccepts(v, count) {
      var peak := Run(env, pre, Pushed(pushes, Nil)).value.peak;
      ScriptJudges(env, p, pk, blobs, pushes, env.hash(ScriptBytes(v, count)), pre, Pushed(pushes, Nil), peak);
    } else {
      var e := EmitBody(p, pk, blobs, Begin([])).value;
      RunSeq(env, pre, e.code, Pushed(pushes, Nil));
    }
  }

  /**
   * The vault script, for any transaction: it aborts when a committed field does not fit, and otherwise answers whether
   * the reference verifier accepts the signature over the digest of this very spend.
   */
  lemma VaultScriptCorrect(env: Env, p: Params, pk: PublicKey, blobs: seq<nat>, x: Bytes, count: nat)
    requires p.WellFormed() && Fed(p, blobs, x)
    requires Spending(env.tx) && 0 < count <= MAX_OUTPUT_COUNT
    ensures Sized(p) && |x| == ELEM * Sum(blobs)
    ensures var e := EmitVault(p, pk, blobs, count);
            var v := TheView(env.tx);
            var m0 := Pushed(WitnessBlobs(blobs, x), Nil);
            && e.Some?
            && (!ScriptAccepts(v, count) ==> Run(env, e.value.code, m0).None?)
            && (ScriptAccepts(v, count) ==>
                  Answers(env, e.value.code, m0,
                          Verifies(env.hash, p, pk, FromBytes(p, x).value, env.hash(ScriptBytes(v, count))),
                          PeakStackEstimate(blobs, e.value.peak)))
  {
    var v := TheView(env.tx);
    hide *;
    FedFacts(p, blobs, x);
    var m0 := Pushed(WitnessBlobs(blobs, x), Nil);
    VaultAnyPushes(env, p, pk, blobs, WitnessBlobs(blobs, x), count);
    if ScriptAccepts(v, count) {
      JudgesWitness(env, p, pk, blobs, x, env.hash(ScriptBytes(v, count)), EmitVault(p, pk, blobs, count), m0);
    }
  }

  lemma EmitVaultIs(p: Params, pk: PublicKey, blobs: seq<nat>, count: nat)
    requires Sized(p) && 0 < count <= MAX_OUTPUT_COUNT
    ensures EmitVault(p, pk, blobs, count) == EmitBody(p, pk, blobs, Begin(Prologue(|blobs|) + BindingOps(count).value))
  {
    hide EmitBody, Prologue;
  }

  // ---- fewer pushes than blobs ---------------------------------------------

  lemma {:induction false} PrologueSplit(k: nat, n: nat)
    ensures Prologue(k + n) == Prologue(k) + Prologue(n)
  {
    if k > 0 {
      PrologueSplit(k - 1, n);
    }
  }

  /** The prologue stops when there are fewer pushes than blobs. */
  lemma PrologueStops(env: Env, pushes: seq<Bytes>, n: nat)
    requires |pushes| < n
    ensures Run(env, Prologue(n), Pushed(pushes, Nil)) == None
  {
    var k := n - |pushes|;
    var m := VM(Nil, Stack(pushes, Nil), Nil, |pushes|);
    PrologueSplit(|pushes|, k);
    PrologueRun(env, pushes, Nil, Nil, |pushes|);
    assert Prologue(k)[0] == OpToAltStack && Step(env, OpToAltStack, m) == None;
    assert Run(env, Prologue(k), m) == None;
    hide Run, Prologue;
    RunSeq(env, Prologue(|pushes|), Prologue(k), Pushed(pushes, Nil));
  }

  /** A witness with fewer pushes than the plan has blobs never unlocks. */
  lemma TooFewPushes(env: Env, p: Params, pk: PublicKey, blobs: seq<nat>, pushes: seq<Bytes>, count: nat)
    requires p.WellFormed() && Planned(p, blobs) && |pushes| < |blobs| && 0 < count <= MAX_OUTPUT_COUNT
    ensures Sized(p) && EmitVault(p, pk, blobs, count).Some?
    ensures Run(env, EmitVault(p, pk, blobs, count).value.code, Pushed(pushes, Nil)) == None
  {
    var pre := Prologue(|blobs|) + BindingOps(count).value;
    hide *;
    WellFormedSized(p);
    EmitVaultIs(p, pk, blobs, count);
    GenerationSucceeds(env, p, pk, blobs, pre);
    PrologueStops(env, pushes, |blobs|);
    var rest := EmitBody(p, pk, blobs, Begin([])).value.code;
    AbortStays(env, Prologue(|blobs|), pre, Pushed(pushes, Nil));
    AbortStays(env, pre, pre + rest, Pushed(pushes, Nil));
  }

  /** For the spend shape the script unrolls, the signed message is the host's binding digest. */
  lemma VaultBindsSpend(env: Env, p: Params, pk: PublicKey, blobs: seq<nat>, x: Bytes)
    requires p.WellFormed() && Fed(p, blobs, x) && Spending(env.tx) && 0 < |env.tx.outputs| <= MAX_OUTPUT_COUNT
    ensures Sized(p) && |x| == ELEM * Sum(blobs)
    ensures var v := TheView(env.tx);
            var e := EmitVault(p, pk, blobs, |v.outputs|);
            && e.Some?
            && match Preimage(v)
               case None => Run(env, e.value.code, Pushed(WitnessBlobs(blobs, x), Nil)).None?
               case Some(b) => Answers(env, e.value.code, Pushed(WitnessBlobs(blobs, x), Nil),
                                       Verifies(env.hash, p, pk, FromBytes(p, x).value, env.hash(b)),
                                       PeakStackEstimate(blobs, e.value.peak))
  {
    var v := TheView(env.tx);
    VaultScriptCorrect(env, p, pk, blobs, x, |v.outputs|);
    hide *;
    WholeSpend(v);
  }

  /**
   * End to end: a spend of a shape the serializer accepts, signed over its binding digest by the key the script pins,
   * always unlocks, within the stack estimate, for every hash function, randomizer and blob plan.
   */
  lemma SignedSpendUnlocks(env: Env, p: DigitParams, sd: Seeds, r: Bytes, blobs: seq<nat>)
    requires p.d > 0 && p.WellFormed() && |r| == N
    requires Positive(blobs) && Sum(blobs) == p.SigElements()
    requires Spending(env.tx) && Accepted(TheView(env.tx))
    ensures var v := TheView(env.tx);
            var pk := KeyGen(env.hash, p, sd);
            var x := ToBytes(SignWith(env.hash, p, sd, pk, r, env.hash(Preimage(v).value)));
            && Sized(p) && |x| == ELEM * Sum(blobs)
            && var e := EmitVault(p, pk, blobs, |v.outputs|);
            e.Some? && Answers(env, e.value.code, Pushed(WitnessBlobs(blobs, x), Nil), true,
                               PeakStackEstimate(blobs, e.value.peak))
  {
    var v := TheView(env.tx);
    var message := env.hash(Preimage(v).value);
    assert 0 < |v.outputs| <= MAX_OUTPUT_COUNT && v.outputs == env.tx.outputs;
    hide *;
    var pk := KeyGen(env.hash, p, sd);
    var sig := SignWith(env.hash, p, sd, pk, r, message);
    SignaturesVerify(env.hash, p, sd, r, message);
    FedIf(p, blobs, ToBytes(sig));
    VaultBindsSpend(env, p, pk, blobs, ToBytes(sig));
    AcceptedPreimage(v);
  }

  lemma FedIf(p: Params, blobs: seq<nat>, x: Bytes)
    requires p.lgw > 0 && p.WellFormed() && Positive(blobs) && Sum(blobs) == p.SigElements() && |x| == p.SigLen()
    ensures Fed(p, blobs, x)
  {
  }

  lemma AcceptedPreimage(v: SpendView)
    requires Accepted(v)
    ensures Preimage(v).Some?
  {
  }
}
