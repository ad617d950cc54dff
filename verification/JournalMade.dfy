/** When every record the journal hands back is one the signing closure made: exactly when no append is torn. */
module JournalMade {
  import opened Lists
  import opened JournalText
  import opened Journal
  import opened JournalRuns
  import opened JournalBound

  // ---- authenticity --------------------------------------------------------

  /** The record a step's closure makes, if the step calls it and it succeeds. */
  function MadeBy(s: State, e: Event): seq<SpendRecord>
  {
    if e.SignOnce? && s.entries.Some? && e.leaf !in s.entries.value && e.signed.Some?
    then [SpendRecord(e.leaf, e.digest, e.signed.value)]
    else []
  }

  /** Every record a closure made, durable or not. */
  function Made(events: seq<Event>): seq<SpendRecord>
  {
    if |events| == 0 then []
    else
      var before := events[..|events| - 1];
      Made(before) + MadeBy(Run(before).0, events[|events| - 1])
  }

  predicate AllMade(told: seq<Outcome>, made: seq<SpendRecord>) { forall o :: o in told ==> o.record in made }

  /** Nothing is handed back that no closure made: leaf, digest and signature. */
  predicate Authentic(events: seq<Event>) { AllMade(Run(events).1, Made(events)) }

  // ---- without torn appends ------------------------------------------------

  predicate Values(m: Entries, made: seq<SpendRecord>) { forall leaf :: leaf in m ==> m[leaf] in made }

  /** Complete lines of made records, and a process that knows made records only. */
  predicate MadeOk(d: Disk, s: State, told: seq<Outcome>, made: seq<SpendRecord>)
  {
    && AllMade(told, made) && (s.entries.Some? ==> Values(s.entries.value, made))
    && (d.Live? ==> d.tail.Clean? && forall r :: r in d.recs ==> r in made)
  }

  lemma {:induction false} MapMade(m: Entries, recs: seq<SpendRecord>, made: seq<SpendRecord>)
    requires Values(m, made) && forall r :: r in recs ==> r in made
    ensures Values(AddAll(m, recs), made)
    decreases |recs|
  {
    if |recs| > 0 {
      assert recs[0] in recs && forall r :: r in recs[1..] ==> r in recs;
      MapMade(m[recs[0].leaf := recs[0]], recs[1..], made);
    }
  }

  lemma StepMade(d: Disk, s: State, told: seq<Outcome>, made: seq<SpendRecord>, e: Event)
    requires Inv(d, s, told) && MadeOk(d, s, told, made) && TypedEvent(e) && Next(s, e).0.tears == 0
    ensures MadeOk(NextDisk(d, s, e), Next(s, e).0, told + Told(Next(s, e).1), made + MadeBy(s, e))
  {
    hide Inv, OpenText, Typed, FormatLine, Piece, Tears;
    match e {
      case Crash =>
      case Reopen => ReopenMade(d, s, told, made);
      case SignOnce(leaf, digest, signed, fate) =>
        if s.entries.Some? && leaf !in s.entries.value && signed.Some? {
          WholePiece(SpendRecord(leaf, digest, signed.value));
        }
    }
  }

  lemma ReopenMade(d: Disk, s: State, told: seq<Outcome>, made: seq<SpendRecord>)
    requires Inv(d, s, told) && MadeOk(d, s, told, made)
    ensures MadeOk(NextDisk(d, s, Reopen), Next(s, Reopen).0, told, made)
  {
    hide OpenText, Describes, Poisoned;
    if d.Dead? {
      DeadOnly(d, s.file);
      DeadRefuses(s.file);
    } else {
      OpenDescribed(d, s.file);
      MapMade(map[], d.recs, made);
    }
  }

  lemma {:induction false} RunMade(events: seq<Event>) returns (d: Disk)
    requires TypedRun(events) && TearsAtMost(events, 0)
    ensures Inv(d, Run(events).0, Run(events).1)
    ensures MadeOk(d, Run(events).0, Run(events).1, Made(events))
    decreases |events|
  {
    if |events| == 0 {
      d := Live([], Clean);
      assert Body([]) == "";
      assert Inv(d, Start, []);
    } else {
      hide Inv, MadeOk, Next, TypedEvent, NextDisk, MadeBy;
      var before, e := events[..|events| - 1], events[|events| - 1];
      UntornPrefix(events, |events| - 1);
      assert e in events && events[..|events|] == events;
      var was := RunMade(before);
      var (s, told) := Run(before);
      d := NextDisk(was, s, e);
      StepKeeps(was, s, told, e);
      StepMade(was, s, told, Made(before), e);
    }
  }

  lemma UntornPrefix(events: seq<Event>, n: nat)
    requires n <= |events| && TypedRun(events) && TearsAtMost(events, 0)
    ensures TypedRun(events[..n]) && TearsAtMost(events[..n], 0)
  {
    hide Run, TypedEvent;
    forall k | 0 <= k <= n
      ensures Run(events[..n][..k]).0.tears <= 0
    {
      assert events[..n][..k] == events[..k];
    }
  }

  // ---- with one ------------------------------------------------------------

  const Retried: SpendRecord := SpendRecord(SpentLeaf, Repeat(1, 32), [7, 8])

  /** One append torn after the first signature byte, a reopening, and a retry. */
  const CutShort: seq<Event> :=
    [Reopen] + [Attempt((Retried, |Head(SpentLeaf, Repeat(1, 32))| + 2))] + [Reopen]
    + [SignOnce(SpentLeaf, Repeat(1, 32), None, Durable)]

  /** A torn record can be handed to a retry with a signature no closure made. */
  lemma OneTearUnmade()
    ensures TypedRun(CutShort) && TearsAtMost(CutShort, 1) && !Authentic(CutShort)
  {
    CutShortTyped();
    hide Run, Head, OpenText, FormatRecord, FormatLine, Piece, Tears, Typed, TearsAtMost, Repeat;
    var r := Retried;
    var torn, again := Attempt((r, |Head(r.leaf, r.digest)| + 2)), SignOnce(r.leaf, r.digest, None, Durable);
    var cut := SpendRecord(r.leaf, r.digest, r.signature[..1]);
    TornThenRead(r, 1);
    OpenOnly();
    RunSnoc([Reopen], torn);
    RunOn([Reopen] + [torn] + [Reopen], again, 1);
    MadeSnoc([], Reopen);
    MadeSnoc([Reopen], torn);
    MadeSnoc([Reopen] + [torn], Reopen);
    MadeSnoc([Reopen] + [torn] + [Reopen], again);
    assert [] + [Reopen] == [Reopen];
    var o := Outcome(cut, false);
    var none: seq<Outcome> := [];
    assert none + [o] == [o] && o in [o];
    assert |cut.signature| == 1 && |r.signature| == 2;
  }

  lemma MadeSnoc(events: seq<Event>, e: Event)
    ensures Made(events + [e]) == Made(events) + MadeBy(Run(events).0, e)
  {
    hide Run, MadeBy;
    assert (events + [e])[..|events|] == events;
  }

  lemma CutShortTyped()
    ensures TypedRun(CutShort) && Typed(Retried)
  {
    hide Head, Run;
    assert |V| == 16;
  }

  /**
   * The exact bound: every record handed back, leaf, digest and signature, is one a signing closure made, over every run
   * in which no process leaves more than n torn appends, if and only if n is zero.
   */
  lemma AuthenticOnlyWithoutTears(n: nat)
    ensures (forall events: seq<Event> :: TypedRun(events) && TearsAtMost(events, n) ==> Authentic(events)) <==> n == 0
  {
    hide Run, Made, TypedRun;
    if n == 0 {
      forall events: seq<Event> | TypedRun(events) && TearsAtMost(events, n)
        ensures Authentic(events)
      {
        var d := RunMade(events);
      }
    } else {
      OneTearUnmade();
      assert TearsAtMost(CutShort, n);
    }
  }
}
