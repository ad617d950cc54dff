/** When generation succeeds: exactly when every FORS window ends inside the digest. */
module Generation {
  import opened Bytes
  import opened Lists
  import opened Machine
  import opened Frames
  import opened Params
  import opened Emission
  import opened Witness
  import opened Reference
  import opened SlhProgram
  import opened SlhVerify
  import opened Binding
  import opened Vault

  // ---- a refused check stops generation ------------------------------------

  /** Nothing is emitted past a failed check. */
  lemma {:induction false} RefuseStops(blobs: seq<nat>, ms: seq<Macro>, e: Em)
    requires Refuse in ms
    ensures EmitAll(blobs, ms, e) == None
  {
    if ms[0] != Refuse && EmitOne(blobs, ms[0], e).Some? {
      RefuseStops(blobs, ms[1..], EmitOne(blobs, ms[0], e).value);
    }
  }

  /** The check of FORS index i is among the calls of every number of trees past it. */
  lemma {:induction false} RefusedInTrees(p: Params, i: nat, n: nat)
    requires Sized(p) && i < n && p.ForsByte(i) + p.ForsFieldBytes(i) > p.m
    ensures Refuse in ForsTrees(p, n)
  {
    hide ForsTree, Sized;
    if i < n - 1 {
      RefusedInTrees(p, i, n - 1);
    } else {
      RefusedInTree(p, i);
    }
    assert ForsTrees(p, n) == ForsTrees(p, n - 1) + ForsTree(p, n - 1);
  }

  lemma RefusedInTree(p: Params, i: nat)
    requires Sized(p) && p.ForsByte(i) + p.ForsFieldBytes(i) > p.m
    ensures Refuse in ForsTree(p, i)
  {
    assert ForsIndex(p, i) == [Refuse];
    assert ForsOpen(p, i) == ForsIndex(p, i) + (ForsPosition(p, i) + ForsLeaf(p.ForsIndexWidth()));
    assert ForsOpen(p, i)[0] == Refuse;
    assert ForsTree(p, i)[0] == Refuse;
  }

  /** One window past the digest refuses the whole body. */
  lemma RefusedInBody(p: Params, pk: PublicKey, i: nat)
    requires Sized(p) && i < p.k && p.ForsByte(i) + p.ForsFieldBytes(i) > p.m
    ensures Refuse in BodyPhases(p, pk)
  {
    RefusedInTrees(p, i, p.k);
    hide ForsTrees, ForsContexts, ForsEnd, HMsgPhase, IndicesPhase, LayerPhases, Discard, Sized;
    assert Refuse in ForsPhase(p, pk);
    hide ForsPhase;
  }

  /** A set with a window past the digest gets no script, whatever the key, the plan and the code before it. */
  lemma WindowPastDigest(p: Params, pk: PublicKey, blobs: seq<nat>, e: Em)
    requires Sized(p) && !p.WindowsInside()
    ensures EmitBody(p, pk, blobs, e) == None
  {
    var i: nat :| i < p.k && p.ForsByte(i) + p.ForsFieldBytes(i) > p.m;
    RefusedInBody(p, pk, i);
    RefuseStops(blobs, BodyPhases(p, pk), e);
  }

  lemma {:induction false} NoRefusal(s: Slot, start: nat, len: nat)
    ensures Refuse !in BeIntSteps(s, start, len)
  {
    if len > 0 {
      NoRefusal(s, start, len - 1);
    }
  }

  /** A big-endian field is refused unless it has one to seven bytes. */
  lemma FieldRefused(s: Slot, start: nat, len: nat)
    ensures Refuse in BeInt(s, start, len) <==> len == 0 || len > 7
  {
    NoRefusal(s, start, len);
  }

  /** Fixed-width bytes are refused unless there are one to eight of them. */
  lemma WidthRefused(blobs: seq<nat>, width: nat, e: Em)
    requires width == 0 || width > 8
    ensures EmitAll(blobs, BeBytes(width), e) == None
  {
    assert BeBytes(width)[0] == Num2Bin(width);
  }

  // ---- which plans pass the closing checks ---------------------------------

  /** A plan has a blob that ends with element n - 1. */
  ghost predicate EndsAt(blobs: seq<nat>, n: nat)
  {
    exists b: nat :: b <= |blobs| && Sum(blobs[..b]) == n
  }

  /** The counters of the generator agree with the plan. */
  predicate Counted(blobs: seq<nat>, e: Em)
  {
    e.next <= Sum(blobs) && e.pending == Pending(blobs, e.next)
  }

  lemma {:induction false} LocateWithin(blobs: seq<nat>, index: nat)
    requires Locate(blobs, index).Some?
    ensures index < Sum(blobs) && Locate(blobs, index).value.0 < |blobs|
  {
    if index >= blobs[0] {
      LocateWithin(blobs[1..], index - blobs[0]);
    }
  }

  lemma {:induction false} PendingWithin(blobs: seq<nat>, el: nat)
    requires el <= Sum(blobs) && Pending(blobs, el) > 0
    ensures el < Sum(blobs)
  {
    if el >= blobs[0] {
      PendingWithin(blobs[1..], el - blobs[0]);
    }
  }

  lemma FetchCounted(blobs: seq<nat>, s: Slot, e: Em)
    requires Positive(blobs) && Counted(blobs, e) && EmitFetch(blobs, s, e).Some?
    ensures Counted(blobs, EmitFetch(blobs, s, e).value)
  {
    hide Sum, Pending, Locate, SliceOps, QueueAlt, CutElems;
    var pushes: seq<Bytes> := seq(|blobs|, _ => []);
    if e.pending > 0 {
      PendingWithin(blobs, e.next);
      QueuePending(blobs, pushes, e.next);
    } else {
      LocateWithin(blobs, e.next);
      var b, rest := QueueRefill(blobs, pushes, e.next);
    }
  }

  lemma {:induction false} AllCounted(blobs: seq<nat>, ms: seq<Macro>, e: Em)
    requires Positive(blobs) && Counted(blobs, e) && EmitAll(blobs, ms, e).Some?
    ensures Counted(blobs, EmitAll(blobs, ms, e).value)
  {
    hide EmitFetch, PlainOne, PlainAll, Positive, Sum, Pending;
    if |ms| > 0 {
      if ms[0].Fetch? {
        FetchCounted(blobs, ms[0].slot, e);
      }
      AllCounted(blobs, ms[1..], EmitOne(blobs, ms[0], e).value);
    }
  }

  /** Nothing pending after n elements: a blob ends there. */
  lemma EndReached(blobs: seq<nat>, n: nat)
    requires Positive(blobs) && n <= Sum(blobs) && Pending(blobs, n) == 0
    ensures EndsAt(blobs, n)
  {
    if n == Sum(blobs) {
      assert blobs[..|blobs|] == blobs;
    } else {
      var b, rest := QueueRefill(blobs, seq(|blobs|, _ => []), n);
    }
  }

  lemma {:induction false} LocatePrefix(blobs: seq<nat>, b: nat, index: nat)
    requires b <= |blobs| && Locate(blobs[..b], index).Some?
    ensures Locate(blobs, index) == Locate(blobs[..b], index)
  {
    if index >= blobs[..b][0] {
      assert blobs[..b][1..] == blobs[1..][..b - 1];
      LocatePrefix(blobs[1..], b - 1, index - blobs[0]);
    }
  }

  /** Blobs behind the last one used do not change what is emitted. */
  lemma {:induction false} PrefixPlan(blobs: seq<nat>, b: nat, ms: seq<Macro>, e: Em)
    requires b <= |blobs| && EmitAll(blobs[..b], ms, e).Some?
    ensures EmitAll(blobs, ms, e) == EmitAll(blobs[..b], ms, e)
  {
    if |ms| > 0 {
      FetchPrefix(blobs, b, ms[0], e);
      hide EmitOne;
      PrefixPlan(blobs, b, ms[1..], EmitOne(blobs[..b], ms[0], e).value);
    }
  }

  lemma FetchPrefix(blobs: seq<nat>, b: nat, m: Macro, e: Em)
    requires b <= |blobs| && EmitOne(blobs[..b], m, e).Some?
    ensures EmitOne(blobs, m, e) == EmitOne(blobs[..b], m, e)
  {
    hide Locate, SliceOps, PlainOne, PlainAll;
    if m.Fetch? && e.pending == 0 {
      LocatePrefix(blobs, b, e.next);
      LocateWithin(blobs[..b], e.next);
    }
  }

  // ---- exactly when a script is generated ----------------------------------

  /**
   * For a consistent set the verifier is generated exactly when every window is inside the digest and a blob ends with the
   * signature's last element.
   */
  lemma VerifyGenerated(p: Params, pk: PublicKey, blobs: seq<nat>)
    requires p.Consistent() && Positive(blobs) && p.lgw > 0
    ensures Sized(p) && (EmitVerify(p, pk, blobs).Some? <==> p.WindowsInside() && EndsAt(blobs, p.SigElements()))
  {
    hide *;
    ConsistentSized(p);
    EmitVerifyIs(p, pk, blobs);
    BodyGenerated(p, pk, blobs, Prologue(|blobs|));
  }

  /** The vault additionally needs an output count it can unroll. */
  lemma VaultGenerated(p: Params, pk: PublicKey, blobs: seq<nat>, count: nat)
    requires p.Consistent() && Positive(blobs) && p.lgw > 0
    ensures Sized(p)
    ensures EmitVault(p, pk, blobs, count).Some?
            <==> p.WindowsInside() && EndsAt(blobs, p.SigElements()) && 0 < count <= 127
  {
    ConsistentSized(p);
    hide EmitBody, HeaderOps, OutputsOps, Params.Consistent, Params.WindowsInside, Params.SigElements, Prologue, Sized, EndsAt;
    if 0 < count <= MAX_OUTPUT_COUNT {
      BodyGenerated(p, pk, blobs, Prologue(|blobs|) + BindingOps(count).value);
    }
  }

  lemma BodyGenerated(p: Params, pk: PublicKey, blobs: seq<nat>, pre: seq<Op>)
    requires p.Consistent() && Sized(p) && Positive(blobs) && p.lgw > 0
    ensures EmitBody(p, pk, blobs, Begin(pre)).Some? <==> p.WindowsInside() && EndsAt(blobs, p.SigElements())
  {
    var n := p.SigElements();
    hide Sum, Params.SigElements, Params.Consistent, Params.WindowsInside, Sized, BodyPhases, EmitChecked, Positive;
    if !p.WindowsInside() {
      WindowPastDigest(p, pk, blobs, Begin(pre));
    } else if EndsAt(blobs, n) {
      var b: nat :| b <= |blobs| && Sum(blobs[..b]) == n;
      Planable(p, blobs, b);
      GenerationSucceeds(Env(_ => Zeros(32), Tx(0, [], 0, [])), p, pk, blobs[..b], pre);
      SameChecked(blobs, b, BodyPhases(p, pk), n, pk.root, Begin(pre));
    } else if EmitBody(p, pk, blobs, Begin(pre)).Some? {
      CheckedEnds(blobs, BodyPhases(p, pk), n, pk.root, pre);
    }
  }

  lemma Planable(p: Params, blobs: seq<nat>, b: nat)
    requires p.Consistent() && p.WindowsInside() && p.lgw > 0 && Positive(blobs) && b <= |blobs|
    requires Sum(blobs[..b]) == p.SigElements()
    ensures p.WellFormed() && Planned(p, blobs[..b])
  {
    hide Params.Consistent, Params.WindowsInside, Params.SigElements, Sum;
  }

  lemma SameChecked(blobs: seq<nat>, b: nat, body: seq<Macro>, n: nat, want: Bytes, e: Em)
    requires b <= |blobs| && EmitChecked(blobs[..b], body, n, want, e).Some?
    ensures EmitChecked(blobs, body, n, want, e).Some?
  {
    hide EmitAll;
    PrefixPlan(blobs, b, body, e);
    PrefixPlan(blobs, b, [Data(want), Equal], EmitAll(blobs[..b], body, e).value);
  }

  lemma CheckedEnds(blobs: seq<nat>, body: seq<Macro>, n: nat, want: Bytes, pre: seq<Op>)
    requires Positive(blobs) && EmitChecked(blobs, body, n, want, Begin(pre)).Some?
    ensures EndsAt(blobs, n)
  {
    hide EmitAll, Sum, Positive, EndsAt;
    StartCounted(blobs, pre);
    AllCounted(blobs, body, Begin(pre));
    EndReached(blobs, n);
  }

  lemma StartCounted(blobs: seq<nat>, pre: seq<Op>)
    ensures Counted(blobs, Begin(pre))
  {
  }
}
