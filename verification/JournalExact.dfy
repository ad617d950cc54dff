/**
 * When every signature the journal returns is kept exactly, also the ones
 * handed to a retry: when no process tears an append onto a file whose last
 * line it found without its newline.
 */
module JournalExact {
  import opened Bytes
  import opened Lists
  import opened JournalText
  import opened Journal
  import opened JournalRuns
  import opened JournalBound

  // ---- exactness -----------------------------------------------------------

  predicate OneRecordEach(told: seq<Outcome>)
  {
    forall a, b :: a in told && b in told && a.record.leaf == b.record.leaf ==> a.record == b.record
  }

  /** The map holds every returned record itself. */
  predicate Holds(m: Entries, told: seq<Outcome>)
  {
    forall o :: o in told ==> o.record.leaf in m && m[o.record.leaf] == o.record
  }

  /** One record a leaf over everything returned; a running process and every reopening hold exactly those, or refuse. */
  predicate Exact(events: seq<Event>)
  {
    var (s, told) := Run(events);
    && OneRecordEach(told)
    && (s.entries.Some? ==> Holds(s.entries.value, told))
    && (OpenText(s.file).Some? ==> Holds(OpenText(s.file).value, told))
  }

  // ---- the condition -------------------------------------------------------

  /** The last line lacks its newline. */
  predicate Ragged(file: string) { |file| > 0 && file[|file| - 1] != '\n' }

  /** Whether the file was ragged when it was last opened. */
  predicate OpenedRagged(events: seq<Event>)
  {
    if |events| == 0 then false
    else
      var before := events[..|events| - 1];
      RaggedAfter(OpenedRagged(before), Run(before).0, events[|events| - 1])
  }

  predicate RaggedAfter(ragged: bool, s: State, e: Event) { if e.Reopen? then Ragged(s.file) else ragged }

  /** A process that opened a ragged file leaves no torn append. */
  predicate Careful(events: seq<Event>)
  {
    forall k :: 0 <= k <= |events| && OpenedRagged(events[..k]) ==> Run(events[..k]).0.tears == 0
  }

  // ---- one step ------------------------------------------------------------

  predicate Inside(m: Entries, v: Entries) { forall leaf :: leaf in m ==> leaf in v && v[leaf] == m[leaf] }

  /** What exactness adds to the invariant of `JournalRuns`. */
  predicate ExactOk(d: Disk, s: State, told: seq<Outcome>, ragged: bool)
  {
    && OneRecordEach(told) && (s.entries.Some? ==> Holds(s.entries.value, told))
    && (d.Live? ==>
          && Holds(View(d), told)
          && (s.entries.Some? ==> Inside(s.entries.value, View(d)))
          && (d.tail.Read? ==> d.tail.extra == "" && (s.entries.Some? ==> ragged))
          && (s.entries.Some? && ragged ==> d.tail.Read? && s.entries.value == View(d)))
  }

  /** Complete lines leave no ragged file. */
  lemma {:induction false} BodyNotRagged(recs: seq<SpendRecord>)
    ensures !Ragged(Body(recs))
  {
    hide FormatRecord;
    if |recs| > 0 {
      BodyNotRagged(recs[1..]);
      var line, rest := FormatLine(recs[0]), Body(recs[1..]);
      assert line[|line| - 1] == '\n';
      if |rest| > 0 {
        assert (line + rest)[|line + rest| - 1] == rest[|rest| - 1];
      }
    }
  }

  /** A file whose tail is not empty is ragged. */
  lemma TailRagged(d: Disk, file: string)
    requires d.Live? && Describes(d, file) && !d.tail.Clean?
    ensures Ragged(file)
  {
    hide ParseLine, AllTorn, TornText, Body;
    TailSolid(d.tail);
    var t := TailText(d.tail);
    assert file[|file| - 1] == t[|t| - 1];
  }

  lemma OpenExact(d: Disk, s: State, told: seq<Outcome>, ragged: bool)
    requires Inv(d, s, told) && ExactOk(d, s, told, ragged) && d.Live? && OpenText(s.file).Some?
    ensures ExactOk(Opened(d), State(s.file, OpenText(s.file), 0), told, Ragged(s.file))
  {
    hide ParseLine, OpenText, MapOf, Body, Solid, TornText, AllTorn, Good, AllHex, Ragged;
    OpenDescribed(d, s.file);
    match d.tail {
      case Clean =>
        BodyNotRagged(d.recs);
        assert s.file == Body(d.recs);
      case Torn(tears) =>
        ThreeTorn(tears);
        TailRagged(d, s.file);
      case Read(key, base, extra) =>
        assert base + extra == base;
        TailRagged(d, s.file);
    }
  }

  lemma PutExact(d: Disk, s: State, told: seq<Outcome>, ragged: bool, r: SpendRecord, fate: Fate)
    requires Inv(d, s, told) && ExactOk(d, s, told, ragged)
    requires Typed(r) && s.entries.Some? && r.leaf !in s.entries.value
    requires ragged ==> Put(s, r, fate).tears == 0
    ensures var n := if fate.Durable? then |FormatLine(r)| else fate.written;
            ExactOk(Appended(d, r, n), Put(s, r, fate), told + if fate.Durable? then [Outcome(r, true)] else [], ragged)
  {
    hide Describes, FormatLine, Typed, Piece, MapOf;
    WholePiece(r);
    UnknownUnsaid(s, told, r.leaf);
    assert told + [] == told;
    if d.Live? {
      MapOfSnoc(d.recs, r);
    }
  }

  lemma StepExact(d: Disk, s: State, told: seq<Outcome>, ragged: bool, e: Event)
    requires Inv(d, s, told) && ExactOk(d, s, told, ragged) && TypedEvent(e)
    requires RaggedAfter(ragged, s, e) ==> Next(s, e).0.tears == 0
    ensures ExactOk(NextDisk(d, s, e), Next(s, e).0, told + Told(Next(s, e).1), RaggedAfter(ragged, s, e))
  {
    hide Inv, OpenText, Put, Typed, Opened, FormatLine, Appended, Ragged;
    assert told + [] == told;
    match e {
      case Crash =>
      case Reopen =>
        if d.Dead? {
          DeadInv(d, s, told);
        } else if OpenText(s.file).Some? {
          OpenExact(d, s, told, ragged);
        }
      case SignOnce(leaf, digest, signed, fate) =>
        if s.entries.Some? && leaf !in s.entries.value && signed.Some? {
          var r := SpendRecord(leaf, digest, signed.value);
          TypedRecord(e, r);
          PutExact(d, s, told, ragged, r, fate);
        } else if s.entries.Some? && leaf in s.entries.value {
          KnownName(d, s, told, leaf);
        }
    }
  }

  lemma KnownName(d: Disk, s: State, told: seq<Outcome>, leaf: LeafId)
    requires Inv(d, s, told) && s.entries.Some? && leaf in s.entries.value
    ensures s.entries.value[leaf].leaf == leaf
  {
    hide Describes;
  }

  lemma DeadInv(d: Disk, s: State, told: seq<Outcome>)
    requires Inv(d, s, told) && d.Dead?
    ensures OpenText(s.file).None?
  {
    hide OpenText, Poisoned;
    DeadOnly(d, s.file);
    DeadRefuses(s.file);
  }

  // ---- whole runs ----------------------------------------------------------

  lemma {:induction false} RunExact(events: seq<Event>) returns (d: Disk)
    requires TypedRun(events) && TearsAtMost(events, 3) && Careful(events)
    ensures Inv(d, Run(events).0, Run(events).1)
    ensures ExactOk(d, Run(events).0, Run(events).1, OpenedRagged(events))
    decreases |events|
  {
    if |events| == 0 {
      d := RunKeeps(events);
      d := Live([], Clean);
      assert Body([]) == "";
    } else {
      hide Inv, ExactOk, Next, TypedEvent, NextDisk, RaggedAfter;
      var before, e := events[..|events| - 1], events[|events| - 1];
      PrefixOk(events, |events| - 1);
      assert e in events && events[..|events|] == events;
      var was := RunExact(before);
      var (s, told) := Run(before);
      d := NextDisk(was, s, e);
      StepKeeps(was, s, told, e);
      StepExact(was, s, told, OpenedRagged(before), e);
    }
  }

  lemma PrefixOk(events: seq<Event>, n: nat)
    requires n <= |events| && TypedRun(events) && TearsAtMost(events, 3) && Careful(events)
    ensures TypedRun(events[..n]) && TearsAtMost(events[..n], 3) && Careful(events[..n])
  {
    hide Run, OpenedRagged, TypedEvent;
    forall k | 0 <= k <= n
      ensures Run(events[..n][..k]).0.tears <= 3
      ensures OpenedRagged(events[..n][..k]) ==> Run(events[..n][..k]).0.tears == 0
    {
      assert events[..n][..k] == events[..k];
    }
  }

  /**
   * Every record ever returned is kept exactly, over every run in which no process leaves more than three torn appends
   * and none at all after opening a ragged file.
   */
  lemma CarefulRunsAreExact(events: seq<Event>)
    requires TypedRun(events) && TearsAtMost(events, 3) && Careful(events)
    ensures Exact(events)
  {
    hide OpenText, Describes, Poisoned, Next, Ragged;
    var d := RunExact(events);
    var (s, told) := Run(events);
    if d.Dead? {
      DeadInv(d, s, told);
    } else if OpenText(s.file).Some? {
      OpenExact(d, s, told, OpenedRagged(events));
      OpenDescribed(d, s.file);
      StillLive(d);
    }
  }

  // ---- the condition is needed ---------------------------------------------

  lemma {:induction false} HexPairsJoin(a: string, b: string)
    requires |a| % 2 == 0 && HexPairs(a).Some?
    ensures HexPairs(a + b) == match HexPairs(b) case Some(y) => Some(HexPairs(a).value + y) case None => None
    decreases |a|
  {
    if |a| == 0 {
      assert a + b == b;
      assert HexPairs(b).Some? ==> [] + HexPairs(b).value == HexPairs(b).value;
    } else {
      HexPairsJoin(a[2..], b);
      assert (a + b)[2..] == a[2..] + b;
      if HexPairs(b).Some? {
        var y := HexPairs(b).value;
        assert [HexPair(a[0], a[1]).value] + (HexPairs(a[2..]).value + y) == HexPairs(a).value + y;
      }
    }
  }

  /** A readable line with j more hex bytes behind it: the same leaf and digest, the signature longer by those bytes. */
  lemma LongerSignature(base: string, extra: Bytes)
    requires Solid(base) && ParseLine(base).Some?
    ensures var key := ParseLine(base).value;
            ParseLine(base + ToHex(extra)) == Some(key.(signature := key.signature + extra))
  {
    hide Split, HexPairs, ParseU32, Solid, ToHex, Trim;
    var more := ToHex(extra);
    HexSolid(more);
    SolidJoin(base, more);
    SolidTrim(base + more);
    ReadFields(base);
    LastField(more);
    SplitConcat(base, more, ':');
    var h := Split(base, ':')[3];
    HexLength(h);
    HexPairsJoin(h, more);
    HexRoundTrip(extra);
  }

  /** Behind a readable line an odd number of hex digits makes it unreadable, and not blank. */
  lemma OddDigits(base: string, extra: string)
    requires Solid(base) && ParseLine(base).Some? && AllHex(extra) && |extra| % 2 == 1
    ensures ParseLine(base + extra).None? && |Trim(base + extra)| > 0
  {
    hide Split, HexPairs, ParseU32, Solid, Trim;
    HexSolid(extra);
    SolidJoin(base, extra);
    SolidTrim(base + extra);
    ReadFields(base);
    LastField(extra);
    SplitConcat(base, extra, ':');
    HexLength(Split(base, ':')[3]);
  }

  /**
   * What a torn append does to a ragged file that was opened. The record of its last line keeps its leaf and digest and
   * gains one signature byte for every two of the first 32 characters; any other torn append makes the file refuse.
   */
  lemma TearOnRagged(recs: seq<SpendRecord>, base: string, q: SpendRecord, n: nat)
    requires Good(recs) && Solid(base) && ParseLine(base).Some? && Typed(q) && Tears(q, n)
    ensures var key := ParseLine(base).value;
            OpenText(Body(recs) + base + Piece(q, n))
            == if n <= 32 && n % 2 == 0
               then Some(MapOf(recs)[key.leaf := key.(signature := key.signature + q.leaf.vaultId[..n / 2])])
               else None
  {
    hide Body, ParseLine, MapOf, Poisoned, Tears, OpenText, Trim, Good, Split, Solid, Piece, ToHex;
    var piece := Piece(q, n);
    OntoRead(recs, base, "", q, n);
    assert base + "" == base && "" + piece == piece;
    if n > 32 {
      DeadRefuses(Body(recs) + base + piece);
    } else {
      LineLong(q, n);
      PieceSolid(q, n);
      SolidJoin(base, piece);
      SolidTrim(base + piece);
      assert Body(recs) + base + piece == Body(recs) + (base + piece);
      OpenTail(recs, base + piece);
      if n % 2 == 0 {
        VaultDigits(q, n);
        LongerSignature(base, q.leaf.vaultId[..n / 2]);
      } else {
        OddDigits(base, piece);
      }
    }
  }

  lemma VaultDigits(q: SpendRecord, n: nat)
    requires Typed(q) && Tears(q, n) && n <= 32 && n % 2 == 0
    ensures Piece(q, n) == ToHex(q.leaf.vaultId[..n / 2])
  {
    hide ToDecimal;
    HexUpTo(q.leaf.vaultId, n / 2);
  }

  /**
   * The condition cannot be dropped anywhere. Take any run that has met it and whose process has opened a ragged file;
   * let the last line's leaf be retried, and the next append, for a leaf not seen before, be torn after n characters.
   * Exactness is lost if and only if n is even and at most 32.
   */
  lemma CarelessTear(events: seq<Event>, q: SpendRecord, n: nat) returns (key: SpendRecord)
    requires TypedRun(events) && TearsAtMost(events, 3) && Careful(events)
    requires var s := Run(events).0;
             && s.entries.Some? && OpenedRagged(events) && OpenText(s.file).Some?
             && Typed(q) && q.leaf !in s.entries.value && Tears(q, n)
    ensures var known := Run(events).0.entries.value; key.leaf in known && known[key.leaf] == key
    ensures Exact(events + [SignOnce(key.leaf, key.digest, None, Durable)] + [Attempt((q, n))])
            <==> !(n <= 32 && n % 2 == 0)
  {
    hide *;
    var d := RunExact(events);
    var (s, told) := Run(events);
    key := RaggedKey(d, s, told);
    var retry, torn := SignOnce(key.leaf, key.digest, None, Durable), Attempt((q, n));
    RunSnoc(events, retry);
    RunSnoc(events + [retry], torn);
    RetryThenTear(s, key, q, n, told);
    RaggedTear(d, s, told, key, q, n);
    ExactIs(events + [retry] + [torn]);
  }

  lemma RaggedKey(d: Disk, s: State, told: seq<Outcome>) returns (key: SpendRecord)
    requires Inv(d, s, told) && ExactOk(d, s, told, true) && s.entries.Some? && OpenText(s.file).Some?
    ensures d.Live? && d.tail.Read? && d.tail.key == key && d.tail.extra == ""
    ensures key.leaf in s.entries.value && s.entries.value[key.leaf] == key
  {
    hide OpenText, Describes;
    if d.Dead? {
      DeadInv(d, s, told);
    }
    key := d.tail.key;
  }

  /** A retry returns the stored record; a torn append returns nothing and leaves the map alone. */
  lemma RetryThenTear(s: State, key: SpendRecord, q: SpendRecord, n: nat, told: seq<Outcome>)
    requires s.entries.Some? && key.leaf in s.entries.value && s.entries.value[key.leaf] == key && q.leaf !in s.entries.value
    ensures var (t, o) := Next(s, SignOnce(key.leaf, key.digest, None, Durable));
            var (u, none) := Next(t, Attempt((q, n)));
            && t == s && u.entries == s.entries && u.file == s.file + Piece(q, n)
            && told + Told(o) + Told(none) == told + [Outcome(key, false)]
  {
    hide Piece, Tears;
  }

  lemma RaggedTear(d: Disk, s: State, told: seq<Outcome>, key: SpendRecord, q: SpendRecord, n: nat)
    requires Inv(d, s, told) && ExactOk(d, s, told, true) && s.entries.Some?
    requires d.Live? && d.tail.Read? && d.tail.key == key && d.tail.extra == ""
    requires key.leaf in s.entries.value && s.entries.value[key.leaf] == key
    requires Typed(q) && Tears(q, n)
    ensures var after := told + [Outcome(key, false)];
            && OneRecordEach(after) && Holds(s.entries.value, after)
            && ((OpenText(s.file + Piece(q, n)).Some? ==> Holds(OpenText(s.file + Piece(q, n)).value, after))
                <==> !(n <= 32 && n % 2 == 0))
  {
    hide OpenText, ParseLine, Body, MapOf, Solid, Piece, Tears, Good;
    assert |q.leaf.vaultId| == 16 && n > 0 by { LineLong(q, n); }
    var base := d.tail.base;
    assert base + d.tail.extra == base;
    TearOnRagged(d.recs, base, q, n);
    var o := Outcome(key, false);
    var after := told + [o];
    assert o in after;
    if n <= 32 && n % 2 == 0 {
      assert |q.leaf.vaultId[..n / 2]| > 0;
      assert |key.signature + q.leaf.vaultId[..n / 2]| > |key.signature|;
    }
  }

  lemma ExactIs(events: seq<Event>)
    ensures var (s, told) := Run(events);
            Exact(events) <==>
            && OneRecordEach(told) && (s.entries.Some? ==> Holds(s.entries.value, told))
            && (OpenText(s.file).Some? ==> Holds(OpenText(s.file).value, told))
  {
    hide Run, OpenText;
  }

  // ---- the exact bound -----------------------------------------------------

  /** A run of one torn append, a retry after reopening, and one more torn append, none in a process that tore before. */
  const OneTear: seq<Event> := Regrow(SpentRecord, 1, TornA.0)

  lemma OneTearTyped()
    ensures TypedRun(OneTear) && Typed(SpentRecord) && Typed(TornA.0) && TornA.0.leaf != SpentRecord.leaf
  {
    hide Head;
    assert |V| == 16;
  }

  /** One torn append a process is enough to change a signature that was returned. */
  lemma OneTearInexact()
    ensures TypedRun(OneTear) && TearsAtMost(OneTear, 1) && !Exact(OneTear)
  {
    hide Run, OpenText, Head, Regrow, TypedRun, TearsAtMost, Typed, TornA, SpentRecord;
    OneTearTyped();
    var r, q := SpentRecord, TornA.0;
    assert |r.signature| == 1 by { SpentSignature(); }
    TornSignatureGrows(r, 1, q);
    var cut := SpendRecord(r.leaf, r.digest, r.signature[..1]);
    var o := Outcome(cut, false);
    assert o in [o];
    VaultWidth(q);
    assert |cut.signature + [q.leaf.vaultId[0]]| == 2 && |cut.signature| == 1;
  }

  lemma SpentSignature()
    ensures |SpentRecord.signature| == 1
  {
  }

  lemma VaultWidth(q: SpendRecord)
    requires Typed(q)
    ensures |q.leaf.vaultId| == 16
  {
  }

  lemma NoTearsIsCareful(events: seq<Event>)
    requires TearsAtMost(events, 0)
    ensures Careful(events) && TearsAtMost(events, 3)
  {
    hide Run, OpenedRagged;
  }

  /**
   * The exact bound for signatures: every record ever returned is kept exactly over every run in which no process leaves
   * more than n torn appends if and only if n is zero.
   */
  lemma ExactOnlyWithoutTears(n: nat)
    ensures (forall events: seq<Event> :: TypedRun(events) && TearsAtMost(events, n) ==> Exact(events)) <==> n == 0
  {
    hide Run, Exact, TypedRun, Careful;
    if n == 0 {
      forall events: seq<Event> | TypedRun(events) && TearsAtMost(events, n)
        ensures Exact(events)
      {
        NoTearsIsCareful(events);
        CarefulRunsAreExact(events);
      }
    } else {
      OneTearInexact();
      assert TearsAtMost(OneTear, n);
    }
  }
}
