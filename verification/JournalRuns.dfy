/**
 * Every run of the sign-once journal: signing, appends that fail part way,
 * crashes and reopens. A run whose processes each leave at most three torn
 * appends is safe; four are too many.
 */
module JournalRuns {
  import opened Bytes
  import opened Lists
  import opened JournalText
  import opened Journal

  // ---- the state machine ---------------------------------------------------

  /** How an append ends: durably, or with an error after some of its characters reached the file. */
  datatype Fate = Durable | Failed(written: nat)

  /** What the caller was told: the record, and whether it is this leaf's first. */
  datatype Outcome = Outcome(record: SpendRecord, first: bool)

  /** `signed` is what the signing closure returns, if it is called. */
  datatype Event =
    | SignOnce(leaf: LeafId, digest: Bytes, signed: Option<Bytes>, fate: Fate)
    | Crash
    | Reopen

  /** The file, the map of the process that has it open if there is one, and the appends that process tore. */
  datatype State = State(file: string, entries: Option<Entries>, tears: nat)

  const Start := State("", None, 0)

  /** `FileJournal::put`: the file, whether the map learns the record, and whether the append was torn. */
  function Put(s: State, r: SpendRecord, fate: Fate): State
    requires s.entries.Some?
  {
    match fate
    case Durable => State(s.file + FormatLine(r), Some(s.entries.value[r.leaf := r]), s.tears)
    case Failed(n) => State(s.file + Piece(r, n), s.entries, s.tears + if Tears(r, n) then 1 else 0)
  }

  function Next(s: State, e: Event): (State, Option<Outcome>)
  {
    match e
    case Crash => (s.(entries := None), None)
    case Reopen => (State(s.file, OpenText(s.file), 0), None)
    case SignOnce(leaf, digest, signed, fate) =>
      if s.entries.None? then (s, None)
      else if leaf in s.entries.value then
        var prior := s.entries.value[leaf];
        (s, if prior.digest == digest then Some(Outcome(prior, false)) else None)
      else
        match signed
        case None => (s, None)
        case Some(signature) =>
          var r := SpendRecord(leaf, digest, signature);
          (Put(s, r, fate), if fate.Durable? then Some(Outcome(r, true)) else None)
  }

  /** The fixed widths of the arguments. */
  predicate TypedEvent(e: Event)
  {
    e.SignOnce? ==> |e.leaf.vaultId| == 16 && e.leaf.leaf < 0x1_0000_0000 && |e.digest| == 32
  }

  function Told(o: Option<Outcome>): seq<Outcome> { if o.Some? then [o.value] else [] }

  /** The state after a run, and everything it returned. */
  function Run(events: seq<Event>): (State, seq<Outcome>)
  {
    if |events| == 0 then (Start, [])
    else
      var (s, told) := Run(events[..|events| - 1]);
      var (t, o) := Next(s, events[|events| - 1]);
      (t, told + Told(o))
  }

  /** No process leaves more than n torn appends behind. */
  predicate TearsAtMost(events: seq<Event>, n: nat)
  {
    forall k :: 0 <= k <= |events| ==> Run(events[..k]).0.tears <= n
  }

  predicate TypedRun(events: seq<Event>) { forall e :: e in events ==> TypedEvent(e) }

  // ---- safety --------------------------------------------------------------

  /** Every signature ever returned for one leaf is over one digest. */
  predicate OneDigest(told: seq<Outcome>)
  {
    forall a, b :: a in told && b in told && a.record.leaf == b.record.leaf ==> a.record.digest == b.record.digest
  }

  /** The map holds every returned leaf's digest, and the exact record of its first return. */
  predicate Keeps(m: Entries, told: seq<Outcome>)
  {
    forall o :: o in told ==>
      && o.record.leaf in m
      && m[o.record.leaf].digest == o.record.digest
      && (o.first ==> m[o.record.leaf] == o.record)
  }

  /** Once a leaf has been signed for a caller, every return for it is that same record. */
  predicate OneRecord(told: seq<Outcome>)
  {
    forall a, b :: a in told && b in told && a.record.leaf == b.record.leaf && a.first ==> b.record == a.record
  }

  /**
   * Sign-once safety at the end of a run: one digest a leaf, one record a signed
   * leaf, a running process that remembers, and a reopening that refuses or remembers.
   */
  predicate Safe(events: seq<Event>)
  {
    var (s, told) := Run(events);
    && OneDigest(told) && OneRecord(told)
    && (s.entries.Some? ==> Keeps(s.entries.value, told))
    && (OpenText(s.file).Some? ==> Keeps(OpenText(s.file).value, told))
  }

  // ---- what the file can look like -----------------------------------------

  datatype Tail =
    | Clean
    | Read(key: SpendRecord, base: string, extra: string)
    | Torn(tears: seq<Tear>)

  datatype Disk = Dead | Live(recs: seq<SpendRecord>, tail: Tail)

  function TailText(t: Tail): string
  {
    match t
    case Clean => ""
    case Read(_, base, extra) => base + extra
    case Torn(tears) => TornText(tears)
  }

  ghost predicate Describes(d: Disk, file: string)
  {
    match d
    case Dead => Poisoned(file)
    case Live(recs, t) =>
      && Good(recs)
      && file == Body(recs) + TailText(t)
      && (t.Read? ==> Solid(t.base) && ParseLine(t.base) == Some(t.key) && AllHex(t.extra))
      && (t.Torn? ==> AllTorn(t.tears) && |t.tears| >= 1)
  }

  /** The records the file stands for, leaving out a torn one. */
  function View(d: Disk): Entries
    requires d.Live?
  {
    if d.tail.Read? then MapOf(d.recs)[d.tail.key.leaf := d.tail.key] else MapOf(d.recs)
  }

  /** Every leaf of m is in v, over the same digest and under its own name. */
  predicate Within(m: Entries, v: Entries)
  {
    forall leaf :: leaf in m ==> m[leaf].leaf == leaf && leaf in v && v[leaf].digest == m[leaf].digest
  }

  predicate Named(m: Entries) { forall leaf :: leaf in m ==> m[leaf].leaf == leaf }

  predicate Fresh(leaf: LeafId, told: seq<Outcome>) { forall o :: o in told ==> o.first ==> o.record.leaf != leaf }

  predicate Unsaid(leaf: LeafId, told: seq<Outcome>) { forall o :: o in told ==> o.record.leaf != leaf }

  /** The process agrees with what was returned. */
  predicate MemoryOk(s: State, told: seq<Outcome>)
  {
    OneDigest(told) && OneRecord(told) && (s.entries.Some? ==> Named(s.entries.value) && Keeps(s.entries.value, told))
  }

  /** The file agrees with the process and with what was returned. */
  predicate DiskOk(d: Disk, s: State, told: seq<Outcome>)
  {
    d.Live? ==>
      && Named(View(d)) && Keeps(View(d), told)
      && (s.entries.Some? ==> Within(s.entries.value, View(d)))
      && (d.tail.Read? ==> Fresh(d.tail.key.leaf, told))
      && (d.tail.Torn? ==>
            && 1 <= |d.tail.tears| <= 3
            && Unsaid(d.tail.tears[0].0.leaf, told)
            && (s.entries.Some? ==> |d.tail.tears| <= s.tears && d.tail.tears[0].0.leaf !in s.entries.value))
  }

  // ---- the text of one append ----------------------------------------------

  /** What the file becomes when a record for leaf r.leaf is appended up to its n-th character. */
  ghost function Appended(d: Disk, r: SpendRecord, n: nat): Disk
  {
    if d.Dead? || n == 0 then d
    else if Tears(r, n) then
      match d.tail
      case Clean => Live(d.recs, Torn([(r, n)]))
      case Torn(tears) => Live(d.recs, Torn(tears + [(r, n)]))
      case Read(key, base, extra) =>
        if n <= 32 then Live(d.recs, Read(key, base, extra + Piece(r, n))) else Dead
    else if d.tail.Clean? && |r.signature| > 0 then Live(d.recs + [r], Clean)
    else Dead
  }

  /** Appending keeps the description of the file exact. */
  lemma AppendDescribed(d: Disk, file: string, r: SpendRecord, n: nat)
    requires Describes(d, file) && Typed(r)
    ensures Describes(Appended(d, r, n), file + Piece(r, n))
  {
    hide Poisoned, FormatLine, ParseLine, Body, Typed, Solid, TornText, AllTorn;
    if d.Dead? {
      PoisonedGrows(file, Piece(r, n));
    } else if n == 0 {
      NoPiece(r);
      assert file + "" == file;
    } else if Tears(r, n) {
      TearDescribed(d, file, r, n);
    } else {
      assert Piece(r, n) == FormatLine(r);
      LineDescribed(d, file, r);
    }
  }

  lemma NoPiece(r: SpendRecord)
    ensures Piece(r, 0) == ""
  {
  }

  lemma TearDescribed(d: Disk, file: string, r: SpendRecord, n: nat)
    requires d.Live? && Describes(d, file) && Typed(r) && Tears(r, n)
    ensures Describes(Appended(d, r, n), file + Piece(r, n))
  {
    hide Poisoned, FormatLine, ParseLine, Body, Typed, Solid, Tears, Piece;
    assert n > 0 by { assert Tears(r, n); LineLong(r, n); }
    match d.tail {
      case Clean =>
        TornSnoc([], (r, n));
        assert [] + [(r, n)] == [(r, n)];
        assert "" + Piece(r, n) == Piece(r, n);
        assert file == Body(d.recs);
      case Torn(tears) =>
        TornSnoc(tears, (r, n));
        assert Body(d.recs) + TornText(tears) + Piece(r, n) == Body(d.recs) + (TornText(tears) + Piece(r, n));
      case Read(key, base, extra) =>
        OntoRead(d.recs, base, extra, r, n);
        assert Body(d.recs) + (base + extra) + Piece(r, n) == Body(d.recs) + (base + (extra + Piece(r, n)));
    }
  }

  lemma LineLong(r: SpendRecord, n: nat)
    requires Tears(r, n)
    ensures n > 0
  {
  }

  lemma LineDescribed(d: Disk, file: string, r: SpendRecord)
    requires d.Live? && Describes(d, file) && Typed(r)
    ensures Describes(if d.tail.Clean? && |r.signature| > 0 then Live(d.recs + [r], Clean) else Dead, file + FormatLine(r))
  {
    hide Poisoned, FormatLine, ParseLine, Body, Typed, Solid, TornText, AllTorn;
    if d.tail.Clean? {
      if |r.signature| > 0 {
        BodyAppend(d.recs, [r]);
        OneLine(r);
        assert file == Body(d.recs);
        assert Body(d.recs) + FormatLine(r) + "" == Body(d.recs) + FormatLine(r);
      } else {
        NoSignature(d.recs, r);
        assert file == Body(d.recs);
      }
    } else {
      TailSolid(d.tail);
      OntoTail(d.recs, TailText(d.tail), r);
    }
  }

  lemma OneLine(r: SpendRecord)
    ensures Body([r]) == FormatLine(r)
  {
    assert [r][1..] == [] && Body([]) == "";
  }

  lemma TailSolid(t: Tail)
    requires !t.Clean?
    requires t.Read? ==> Solid(t.base) && ParseLine(t.base) == Some(t.key) && AllHex(t.extra)
    requires t.Torn? ==> AllTorn(t.tears) && |t.tears| >= 1
    ensures Solid(TailText(t)) && |TailText(t)| > 0
  {
    hide ParseLine, AllTorn, TornText, Solid;
    match t {
      case Torn(tears) => TornSolid(tears);
      case Read(key, base, extra) =>
        ReadColons(base);
        HexSolid(extra);
        SolidJoin(base, extra);
    }
  }

  /** A record without a signature is a line that can never be read again. */
  lemma NoSignature(recs: seq<SpendRecord>, r: SpendRecord)
    requires Good(recs) && Typed(r) && |r.signature| == 0
    ensures Poisoned(Body(recs) + FormatLine(r))
  {
    hide Poisoned, Body, ParseLine, Solid, Head, Trim;
    ParseHead(r.leaf, r.digest, "");
    assert ToHex(r.signature) == "";
    RecordSolid(r);
    SolidTrim(FormatRecord(r));
    HeadEnds(r.leaf, r.digest, "");
    BadLinePoisons(recs, FormatRecord(r));
  }

  // ---- reopening -----------------------------------------------------------

  /** What the file is seen as after it has been opened. */
  ghost function Opened(d: Disk): Disk
    requires d.Live?
  {
    var t := TailText(d.tail);
    if !d.tail.Clean? && ParseLine(t).Some? then Live(d.recs, Read(ParseLine(t).value, t, "")) else d
  }

  lemma OpenDescribed(d: Disk, file: string)
    requires d.Live? && Describes(d, file)
    ensures Describes(Opened(d), file)
    ensures if !d.tail.Clean? && ParseLine(TailText(d.tail)).None? then OpenText(file).None?
            else OpenText(file) == Some(View(Opened(d)))
  {
    hide ParseLine, OpenText, MapOf, Body, Solid, Trim, TornText, AllTorn, Good;
    if d.tail.Clean? {
      OpenBody(d.recs);
      assert Body(d.recs) + "" == Body(d.recs);
    } else {
      var t := TailText(d.tail);
      TailSolid(d.tail);
      SolidTrim(t);
      OpenTail(d.recs, t);
      assert t + "" == t;
    }
  }

  /** A reopening that succeeds remembers everything that was returned. */
  lemma OpenKeeps(d: Disk, s: State, told: seq<Outcome>)
    requires Describes(d, s.file) && DiskOk(d, s, told) && d.Live? && OpenText(s.file).Some?
    ensures OpenText(s.file).value == View(Opened(d))
    ensures DiskOk(Opened(d), State(s.file, OpenText(s.file), 0), told)
  {
    hide ParseLine, OpenText, MapOf, Body, Solid, TornText, AllTorn, Good, AllHex;
    OpenDescribed(d, s.file);
    match d.tail {
      case Clean =>
      case Torn(tears) => ThreeTorn(tears);
      case Read(key, base, extra) =>
        TailKey(base, extra);
        var again := ParseLine(base + extra).value;
        assert again.leaf == key.leaf && again.digest == key.digest;
        SameKey(MapOf(d.recs), key, again, told);
    }
  }

  /** A record of the same leaf and digest can stand in for one that was never returned as a first signature. */
  lemma SameKey(m: Entries, key: SpendRecord, again: SpendRecord, told: seq<Outcome>)
    requires again.leaf == key.leaf && again.digest == key.digest && Fresh(key.leaf, told)
    requires Named(m[key.leaf := key]) && Keeps(m[key.leaf := key], told)
    ensures Named(m[again.leaf := again]) && Keeps(m[again.leaf := again], told)
    ensures Within(m[again.leaf := again], m[again.leaf := again])
  {
    var a, b := m[key.leaf := key], m[again.leaf := again];
    assert forall leaf :: leaf in b ==> leaf in a && (leaf != key.leaf ==> b[leaf] == a[leaf]);
  }

  lemma DeadRefuses(file: string)
    requires Poisoned(file)
    ensures OpenText(file).None?
  {
    assert file + "" == file;
  }

  // ---- one step ------------------------------------------------------------

  ghost predicate Inv(d: Disk, s: State, told: seq<Outcome>)
  {
    Describes(d, s.file) && DiskOk(d, s, told) && MemoryOk(s, told)
  }

  /** A leaf the process does not know was never returned. */
  lemma UnknownUnsaid(s: State, told: seq<Outcome>, leaf: LeafId)
    requires MemoryOk(s, told) && s.entries.Some? && leaf !in s.entries.value
    ensures Unsaid(leaf, told)
  {
  }

  lemma PutDisk(d: Disk, s: State, told: seq<Outcome>, r: SpendRecord, fate: Fate)
    requires Inv(d, s, told) && Typed(r) && s.entries.Some? && r.leaf !in s.entries.value
    requires Put(s, r, fate).tears <= 3
    ensures var n := if fate.Durable? then |FormatLine(r)| else fate.written;
            && Describes(Appended(d, r, n), Put(s, r, fate).file)
            && DiskOk(Appended(d, r, n), Put(s, r, fate), told + if fate.Durable? then [Outcome(r, true)] else [])
  {
    hide Describes, FormatLine, Typed, Piece, MapOf;
    var n := if fate.Durable? then |FormatLine(r)| else fate.written;
    WholePiece(r);
    AppendDescribed(d, s.file, r, n);
    UnknownUnsaid(s, told, r.leaf);
    if d.Live? {
      MapOfSnoc(d.recs, r);
    }
  }

  lemma WholePiece(r: SpendRecord)
    ensures |FormatLine(r)| > 0 && Piece(r, |FormatLine(r)|) == FormatLine(r) && !Tears(r, |FormatLine(r)|)
  {
  }

  /** The file after a step. */
  ghost function NextDisk(d: Disk, s: State, e: Event): Disk
  {
    match e
    case Crash => d
    case Reopen => if d.Dead? || OpenText(s.file).None? then d else Opened(d)
    case SignOnce(leaf, digest, signed, fate) =>
      if s.entries.None? || leaf in s.entries.value || signed.None? then d
      else
        var r := SpendRecord(leaf, digest, signed.value);
        Appended(d, r, if fate.Durable? then |FormatLine(r)| else fate.written)
  }

  /** Every step keeps the file, the process and the returned records in agreement. */
  lemma StepKeeps(d: Disk, s: State, told: seq<Outcome>, e: Event)
    requires Inv(d, s, told) && TypedEvent(e) && Next(s, e).0.tears <= 3
    ensures Inv(NextDisk(d, s, e), Next(s, e).0, told + Told(Next(s, e).1))
  {
    hide Describes, OpenText, Put, Typed, Poisoned, Opened, FormatLine, Appended;
    assert told + [] == told;
    match e {
      case Crash =>
      case Reopen =>
        if d.Dead? {
          assert Poisoned(s.file) by { assert Describes(d, s.file); DeadOnly(d, s.file); }
          DeadRefuses(s.file);
        } else if OpenText(s.file).Some? {
          OpenKeeps(d, s, told);
          OpenDescribed(d, s.file);
          StillLive(d);
        }
      case SignOnce(leaf, digest, signed, fate) =>
        if s.entries.Some? && leaf !in s.entries.value && signed.Some? {
          var r := SpendRecord(leaf, digest, signed.value);
          assert Typed(r) by { TypedRecord(e, r); }
          PutDisk(d, s, told, r, fate);
          PutMemory(s, told, r, fate);
        }
    }
  }

  lemma DeadOnly(d: Disk, file: string)
    requires Describes(d, file) && d.Dead?
    ensures Poisoned(file)
  {
  }

  lemma StillLive(d: Disk)
    requires d.Live?
    ensures Opened(d).Live?
  {
  }

  lemma TypedRecord(e: Event, r: SpendRecord)
    requires e.SignOnce? && TypedEvent(e) && r.leaf == e.leaf && r.digest == e.digest
    ensures Typed(r)
  {
  }

  lemma PutMemory(s: State, told: seq<Outcome>, r: SpendRecord, fate: Fate)
    requires MemoryOk(s, told) && s.entries.Some? && r.leaf !in s.entries.value
    ensures MemoryOk(Put(s, r, fate), told + if fate.Durable? then [Outcome(r, true)] else [])
  {
    hide FormatLine, Piece;
    UnknownUnsaid(s, told, r.leaf);
    assert told + [] == told;
  }

  // ---- whole runs ----------------------------------------------------------

  lemma {:induction false} RunKeeps(events: seq<Event>) returns (d: Disk)
    requires TypedRun(events) && TearsAtMost(events, 3)
    ensures Inv(d, Run(events).0, Run(events).1)
    decreases |events|
  {
    if |events| == 0 {
      d := Live([], Clean);
      assert Body([]) == "";
      assert Inv(d, Start, []);
    } else {
      hide Inv, Next, TypedEvent;
      var before := events[..|events| - 1];
      forall k | 0 <= k <= |before|
        ensures Run(before[..k]).0.tears <= 3
      {
        assert before[..k] == events[..k];
      }
      assert events[|events| - 1] in events;
      assert events[..|events|] == events;
      var was := RunKeeps(before);
      d := NextDisk(was, Run(before).0, events[|events| - 1]);
      StepKeeps(was, Run(before).0, Run(before).1, events[|events| - 1]);
    }
  }

  /** Sign-once safety, over every run in which no process leaves more than three torn appends. */
  lemma RunsAreSafe(events: seq<Event>)
    requires TypedRun(events) && TearsAtMost(events, 3)
    ensures Safe(events)
  {
    hide OpenText, Describes, Poisoned, Next;
    var d := RunKeeps(events);
    var (s, told) := Run(events);
    if d.Dead? {
      DeadOnly(d, s.file);
      DeadRefuses(s.file);
    } else if OpenText(s.file).Some? {
      OpenKeeps(d, s, told);
      StillLive(d);
    }
  }

  // ---- answers -------------------------------------------------------------

  /** Every map the journal holds names its records by their own leaf. */
  lemma {:induction false} RunNamed(events: seq<Event>)
    ensures Run(events).0.entries.Some? ==> Named(Run(events).0.entries.value)
    decreases |events|
  {
    if |events| > 0 {
      RunNamed(events[..|events| - 1]);
      StepNamed(Run(events[..|events| - 1]).0, events[|events| - 1]);
    }
  }

  lemma StepNamed(s: State, e: Event)
    requires s.entries.Some? ==> Named(s.entries.value)
    ensures Next(s, e).0.entries.Some? ==> Named(Next(s, e).0.entries.value)
  {
    hide FormatLine, Piece, Tears, Lines;
    LoadNamed(Lines(s.file), map[]);
  }

  lemma {:induction false} LoadNamed(lines: seq<string>, m: Entries)
    requires Named(m)
    ensures Load(lines, m).Some? ==> Named(Load(lines, m).value)
  {
    hide ParseLine, Trim;
    if |lines| > 0 {
      match ParseLine(lines[0])
      case Some(r) => LoadNamed(lines[1..], m[r.leaf := r]);
      case None => LoadNamed(lines[1..], m);
    }
  }

  /**
   * After any run at all, torn as it may be: whatever a call is given back is a record of the leaf and the digest it asked
   * for, and a call for a leaf that holds another digest is refused and changes nothing.
   */
  lemma AnswersMatch(events: seq<Event>, leaf: LeafId, digest: Bytes, signed: Option<Bytes>, fate: Fate)
    ensures var s := Run(events).0;
            var (t, o) := Next(s, SignOnce(leaf, digest, signed, fate));
            && (o.Some? ==> o.value.record.leaf == leaf && o.value.record.digest == digest)
            && (s.entries.Some? && leaf in s.entries.value && s.entries.value[leaf].digest != digest ==> t == s && o.None?)
  {
    hide FormatLine, Piece, Tears, OpenText;
    RunNamed(events);
  }

  /**
   * A retry is answered: in every run with at most three torn appends a process, asking again for what was returned once
   * gives the stored record, over the same digest, without signing and without touching the file.
   */
  lemma RetriesAnswered(events: seq<Event>, o: Outcome, signed: Option<Bytes>, fate: Fate)
    requires TypedRun(events) && TearsAtMost(events, 3) && o in Run(events).1 && Run(events).0.entries.Some?
    ensures var s := Run(events).0;
            var r := o.record;
            && r.leaf in s.entries.value
            && Next(s, SignOnce(r.leaf, r.digest, signed, fate)) == (s, Some(Outcome(s.entries.value[r.leaf], false)))
            && (o.first ==> s.entries.value[r.leaf] == r)
  {
    hide FormatLine, Piece, Tears, OpenText, Run;
    RunsAreSafe(events);
  }
}
