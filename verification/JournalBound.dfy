/** Four torn appends in one process can read back as a record of a leaf already returned; fewer cannot. */
module JournalBound {
  import opened Bytes
  import opened Lists
  import opened JournalText
  import opened Journal
  import opened JournalRuns

  function Repeat(b: Byte, n: nat): Bytes { seq(n, _ => b) }

  function Noughts(n: nat): string { seq(n, _ => '0') }

  const V: Bytes := Repeat(0, 16)
  const W: Bytes := Repeat(0, 15) + [0x13]
  const SpentLeaf := LeafId(V, 13)
  const SpentRecord := SpendRecord(SpentLeaf, Repeat(1, 32), [7])
  const Misread := SpendRecord(SpentLeaf, Repeat(0, 32), [0x10])

  /** The records whose appends are torn, and how far each gets. */
  const TornA: Tear := (SpendRecord(LeafId(V, 0), Repeat(0, 32), [7]), 34)
  const TornB: Tear := (SpendRecord(LeafId(W, 0), Repeat(0, 32), [7]), 34)
  const TornC: Tear := (SpendRecord(LeafId(V, 0), Repeat(0, 32), [7]), 31)
  const TornD: Tear := (SpendRecord(LeafId(V, 10), Repeat(0, 32), [7]), 35)

  function Attempt(t: Tear): Event { SignOnce(t.0.leaf, t.0.digest, Some(t.0.signature), Failed(t.1)) }

  const Opening: seq<Event> := [Reopen, SignSpent]
  const TornRun: seq<Event> := Opening + [Attempt(TornA)] + [Attempt(TornB)] + [Attempt(TornC)] + [Attempt(TornD)]

  // ---- the joined line -----------------------------------------------------

  lemma {:induction false} HexNoughts(n: nat)
    ensures ToHex(Repeat(0, n)) == Noughts(2 * n)
  {
    if n > 0 {
      HexNoughts(n - 1);
      assert Repeat(0, n)[1..] == Repeat(0, n - 1);
      assert Noughts(2 * n) == ['0', '0'] + Noughts(2 * (n - 1));
    } else {
      assert Repeat(0, 0) == [] && Noughts(0) == [];
    }
  }

  lemma {:induction false} HexJoin(a: Bytes, b: Bytes)
    ensures ToHex(a + b) == ToHex(a) + ToHex(b)
  {
    if |a| == 0 {
      assert a + b == b;
    } else {
      assert (a + b)[1..] == a[1..] + b;
      HexJoin(a[1..], b);
    }
  }

  lemma HexW()
    ensures ToHex(W) == Noughts(30) + "13"
  {
    HexJoin(Repeat(0, 15), [0x13]);
    HexNoughts(15);
    HexThirteen();
    hide ToHex, Repeat, Noughts;
    assert W == Repeat(0, 15) + [0x13];
  }

  lemma HexThirteen()
    ensures ToHex([0x13]) == "13"
  {
    OneByteHex(0x13);
    OneAndThree();
    hide ToHex, HexChar;
    assert ToHex([0x13])[0] == '1' && ToHex([0x13])[1] == '3';
  }

  lemma OneAndThree()
    ensures HexChar(1) == '1' && HexChar(3) == '3'
  {
    var digits := "0123456789abcdef";
    assert digits[1] == '1';
    assert digits[3] == '3';
  }

  lemma OneByteHex(b: Byte)
    ensures ToHex([b]) == [HexChar(b / 16), HexChar(b % 16)]
  {
    assert [b][1..] == [] && ToHex([]) == "";
  }

  /** The vault, a colon, and t characters of the leaf number. */
  lemma PieceUpTo(r: SpendRecord, t: nat)
    requires |r.leaf.vaultId| == 16 && t <= |ToDecimal(r.leaf.leaf)|
    ensures Piece(r, 33 + t) == ToHex(r.leaf.vaultId) + ":" + ToDecimal(r.leaf.leaf)[..t]
    ensures Piece(r, 31) == ToHex(r.leaf.vaultId)[..31]
    ensures Tears(r, 33 + t) && Tears(r, 31)
  {
    hide ToHex, ToDecimal;
    var a, b, c := ToHex(r.leaf.vaultId), ToDecimal(r.leaf.leaf), ToHex(r.digest);
    assert FormatLine(r) == a + ":" + b + (":" + c + ":" + ToHex(r.signature) + "\n");
    assert (a + ":" + b)[..33 + t] == a + ":" + b[..t];
  }

  const Line: string := Noughts(32) + ":" + (("0" + (Noughts(30) + "13")) + ":" + (Noughts(64) + ":" + "10"))

  lemma Pieces()
    ensures Piece(TornA.0, TornA.1) == Noughts(32) + ":" + "0" && Tears(TornA.0, TornA.1)
    ensures Piece(TornB.0, TornB.1) == Noughts(30) + "13" + ":" + "0" && Tears(TornB.0, TornB.1)
    ensures Piece(TornC.0, TornC.1) == Noughts(31) && Tears(TornC.0, TornC.1)
    ensures Piece(TornD.0, TornD.1) == Noughts(32) + ":" + "10" && Tears(TornD.0, TornD.1)
  {
    HexNoughts(16);
    HexW();
    ShortLeaves();
    Vaults();
    hide Piece, ToHex, ToDecimal, Tears, V, W, Noughts;
    PieceUpTo(TornA.0, 1);
    PieceUpTo(TornB.0, 1);
    PieceUpTo(TornC.0, 0);
    PieceUpTo(TornD.0, 2);
    assert "0"[..1] == "0" && "10"[..2] == "10";
    assert Noughts(32)[..31] == Noughts(31) by { FewerNoughts(32, 31); }
  }

  lemma FewerNoughts(n: nat, k: nat)
    requires k <= n
    ensures Noughts(n)[..k] == Noughts(k)
  {
  }

  lemma ShortLeaves()
    ensures ToDecimal(0) == "0" && ToDecimal(10) == "10"
  {
    assert ToDecimal(1) == "1";
  }

  lemma Vaults()
    ensures |V| == 16 && |W| == 16 && V == Repeat(0, 16)
  {
  }

  lemma FourPieces()
    ensures Piece(TornA.0, TornA.1) + Piece(TornB.0, TornB.1) + Piece(TornC.0, TornC.1) + Piece(TornD.0, TornD.1) == Line
  {
    Pieces();
    hide Piece, Tears;
    assert Noughts(64) == "0" + (Noughts(31) + Noughts(32));
    ShuffleLine(Noughts(32), "0", Noughts(30) + "13", Noughts(31), "10");
  }

  lemma ShuffleLine(z: string, o: string, w: string, y: string, x: string)
    ensures (z + ":" + o) + (w + ":" + o) + y + (z + ":" + x)
            == z + ":" + ((o + w) + ":" + ((o + (y + z)) + ":" + x))
  {
  }

  lemma {:induction false} DigitsNoughts(n: nat)
    ensures Digits(Noughts(n)) == Some(0)
  {
    if n > 0 {
      DigitsNoughts(n - 1);
      assert Noughts(n)[..n - 1] == Noughts(n - 1);
    }
  }

  lemma LeafThirteen()
    ensures ParseU32("0" + (Noughts(30) + "13")) == Some(13)
  {
    DigitsNoughts(31);
    var s := "0" + (Noughts(30) + "13");
    assert s[..31] == Noughts(31);
    assert s[..32] == s[..31] + "1" && s[..32][..31] == s[..31];
    assert Digits(s[..32]) == Some(1);
    assert s[..33] == s && s[..33 - 1] == s[..32];
    assert s[32] == '3';
  }

  lemma NoughtsHex(n: nat)
    requires n > 0
    ensures FromHex(Noughts(2 * n)) == Some(Repeat(0, n)) && AllHex(Noughts(2 * n))
  {
    HexNoughts(n);
    HexRoundTrip(Repeat(0, n));
  }

  lemma LineFields()
    ensures Split(Line, ':') == [Noughts(32), "0" + (Noughts(30) + "13"), Noughts(64), "10"]
  {
    hide Split;
    var leaf := "0" + (Noughts(30) + "13");
    assert Free(Noughts(32), ':') && Free(leaf, ':') && Free(Noughts(64), ':');
    LastField("10");
    SplitFirst(Noughts(64), "10", ':');
    SplitFirst(leaf, Noughts(64) + ":" + "10", ':');
    SplitFirst(Noughts(32), leaf + ":" + (Noughts(64) + ":" + "10"), ':');
  }

  lemma TenHex()
    ensures FromHex("10") == Some([0x10])
  {
    var b: Bytes := [0x10];
    HexRoundTrip(b);
    assert b[1..] == [] && ToHex([]) == "";
    assert ToHex(b) == [HexChar(1), HexChar(0)] + "" == "10";
  }

  lemma LineSolid()
    ensures Solid(Line) && |Line| > 0
  {
  }

  /** The four torn pieces read as a record of the spent leaf over another digest. */
  lemma LineReads()
    ensures ParseLine(Line) == Some(Misread)
  {
    hide *;
    LineSolid();
    SolidTrim(Line);
    LineFields();
    FieldsRead();
    FourFields(Line);
  }

  lemma FieldsRead()
    ensures ParseFields([Noughts(32), "0" + (Noughts(30) + "13"), Noughts(64), "10"]) == Some(Misread)
  {
    NoughtsHex(16);
    NoughtsHex(32);
    TenHex();
    hide Noughts, Repeat, FromHex, ParseU32;
    LeafThirteen();
    MisreadParts();
  }

  lemma FourFields(s: string)
    requires Trim(s) == s && |Split(s, ':')| == 4
    ensures ParseLine(s) == ParseFields(Split(s, ':'))
  {
  }

  lemma MisreadParts()
    ensures |Repeat(0, 16)| == 16 && |Repeat(0, 32)| == 32
    ensures Misread == SpendRecord(LeafId(Repeat(0, 16), 13), Repeat(0, 32), [0x10])
  {
  }

  // ---- the run -------------------------------------------------------------

  lemma RunSnoc(events: seq<Event>, e: Event)
    ensures var (s, told) := Run(events); var (t, o) := Next(s, e);
            Run(events + [e]) == (t, told + Told(o))
  {
    assert (events + [e])[..|events|] == events;
  }

  lemma TearsSnoc(events: seq<Event>, e: Event, n: nat)
    requires TearsAtMost(events, n) && Run(events + [e]).0.tears <= n
    ensures TearsAtMost(events + [e], n)
  {
    hide Run;
    forall k | 0 <= k <= |events| + 1
      ensures Run((events + [e])[..k]).0.tears <= n
    {
      if k <= |events| {
        assert (events + [e])[..k] == events[..k];
      } else {
        assert (events + [e])[..k] == events + [e];
      }
    }
  }

  lemma TearsMore(events: seq<Event>, n: nat, m: nat)
    requires TearsAtMost(events, n) && n <= m
    ensures TearsAtMost(events, m)
  {
    hide Run;
  }

  /** One torn append, in a process that knows only the spent leaf. */
  lemma TearRun(events: seq<Event>, file: string, k: nat, t: Tear)
    requires Run(events) == (State(file, Some(map[SpentLeaf := SpentRecord]), k), [Outcome(SpentRecord, true)])
    requires TearsAtMost(events, 4) && k < 4 && t.0.leaf != SpentLeaf && Tears(t.0, t.1)
    ensures Run(events + [Attempt(t)])
            == (State(file + Piece(t.0, t.1), Some(map[SpentLeaf := SpentRecord]), k + 1), [Outcome(SpentRecord, true)])
    ensures TearsAtMost(events + [Attempt(t)], 4)
  {
    hide Run, Piece, Tears;
    RunSnoc(events, Attempt(t));
    assert SpendRecord(t.0.leaf, t.0.digest, t.0.signature) == t.0;
    assert [Outcome(SpentRecord, true)] + [] == [Outcome(SpentRecord, true)];
    TearsSnoc(events, Attempt(t), 4);
  }

  const SignSpent: Event := SignOnce(SpentLeaf, SpentRecord.digest, Some(SpentRecord.signature), Durable)

  lemma OpeningRun()
    ensures Run(Opening) == (State(Body([SpentRecord]), Some(map[SpentLeaf := SpentRecord]), 0), [Outcome(SpentRecord, true)])
    ensures TearsAtMost(Opening, 4)
  {
    var none: seq<Outcome> := [];
    assert none + Told(Some(Outcome(SpentRecord, true))) == [Outcome(SpentRecord, true)];
    assert Opening == [Reopen] + [SignSpent];
    hide *;
    OpenOnly();
    TearsMore([Reopen], 0, 4);
    OneLine(SpentRecord);
    SpentSigned();
    RunSnoc([Reopen], SignSpent);
    TearsSnoc([Reopen], SignSpent, 4);
  }

  lemma SpentSigned()
    ensures Next(State("", Some(map[]), 0), SignSpent)
            == (State(FormatLine(SpentRecord), Some(map[SpentLeaf := SpentRecord]), 0), Some(Outcome(SpentRecord, true)))
  {
    hide FormatLine;
    assert "" + FormatLine(SpentRecord) == FormatLine(SpentRecord);
  }

  lemma OpenOnly()
    ensures Run([Reopen]) == (State("", Some(map[]), 0), []) && TearsAtMost([Reopen], 0)
  {
    assert Run([]) == (Start, []);
    OpenNothing();
    hide Run, OpenText;
    assert TearsAtMost([], 0);
    RunSnoc([], Reopen);
    assert [] + [Reopen] == [Reopen];
    var none: seq<Outcome> := [];
    assert none + Told(None) == none;
    assert Next(Start, Reopen) == (State("", Some(map[]), 0), None);
    TearsSnoc([], Reopen, 0);
  }

  lemma OpenNothing()
    ensures OpenText("") == Some(map[])
  {
    assert Lines("") == [];
  }

  lemma TornRunState()
    ensures Run(TornRun)
            == (State(Body([SpentRecord]) + Line, Some(map[SpentLeaf := SpentRecord]), 4), [Outcome(SpentRecord, true)])
    ensures TearsAtMost(TornRun, 4)
  {
    hide Run, Piece, Tears, Attempt, Body, TornText, TearsAtMost, Noughts, Line;
    OpeningRun();
    Pieces();
    LeavesDiffer();
    var body := Body([SpentRecord]);
    var a, b, c, d := Piece(TornA.0, TornA.1), Piece(TornB.0, TornB.1), Piece(TornC.0, TornC.1), Piece(TornD.0, TornD.1);
    TearRun(Opening, body, 0, TornA);
    TearRun(Opening + [Attempt(TornA)], body + a, 1, TornB);
    TearRun(Opening + [Attempt(TornA)] + [Attempt(TornB)], body + a + b, 2, TornC);
    TearRun(Opening + [Attempt(TornA)] + [Attempt(TornB)] + [Attempt(TornC)], body + a + b + c, 3, TornD);
    FourPieces();
    assert body + a + b + c + d == body + (a + b + c + d);
  }

  lemma LeavesDiffer()
    ensures forall t :: t in {TornA, TornB, TornC, TornD} ==> t.0.leaf != SpentLeaf
  {
  }

  /** Four torn appends in one process: the reopened journal holds another digest for a leaf that was returned. */
  lemma FourTearsMisread()
    ensures TypedRun(TornRun) && TearsAtMost(TornRun, 4) && !Safe(TornRun)
  {
    hide Run, Body, Line, ParseLine, TearsAtMost, OpenText, MapOf, Solid;
    TornRunState();
    TornRunTyped();
    LineSolid();
    LineReads();
    SolidTrim(Line);
    OpenTail([SpentRecord], Line);
    assert MapOf([] + [SpentRecord]) == MapOf([])[SpentLeaf := SpentRecord] by { MapOfSnoc([], SpentRecord); }
    var o := Outcome(SpentRecord, true);
    assert Misread.digest[0] != SpentRecord.digest[0];
    assert !Keeps(OpenText(Body([SpentRecord]) + Line).value, [o]) by { assert o in [o]; }
  }

  lemma TornRunTyped()
    ensures TypedRun(TornRun)
  {
    hide Run;
    assert |V| == 16 && |W| == 16;
  }

  /**
   * The exact bound: sign-once safety holds of every run in which no process
   * leaves more than n torn appends if and only if n is at most three.
   */
  lemma SafeExactlyUpToThree(n: nat)
    ensures (forall events: seq<Event> :: TypedRun(events) && TearsAtMost(events, n) ==> Safe(events)) <==> n <= 3
  {
    hide Run, Safe, TypedRun;
    if n <= 3 {
      forall events: seq<Event> | TypedRun(events) && TearsAtMost(events, n)
        ensures Safe(events)
      {
        RunsAreSafe(events);
      }
    } else {
      FourTearsMisread();
      assert TearsAtMost(TornRun, n);
    }
  }

  // ---- a signature that grows ----------------------------------------------

  /** A crash k signature bytes into a first append, a retry after it, and one more crash two characters into another append. */
  function Regrow(r: SpendRecord, k: nat, q: SpendRecord): seq<Event>
  {
    [Reopen] + [Attempt((r, |Head(r.leaf, r.digest)| + 2 * k))] + [Reopen]
    + [SignOnce(r.leaf, r.digest, None, Durable)] + [Attempt((q, 2))] + [Crash]
  }

  lemma {:induction false} HexUpTo(b: Bytes, k: nat)
    requires k <= |b|
    ensures ToHex(b)[..2 * k] == ToHex(b[..k])
  {
    if k > 0 {
      HexUpTo(b[1..], k - 1);
      assert b[..k][1..] == b[1..][..k - 1] && b[..k][0] == b[0];
      assert ToHex(b)[..2 * k] == ToHex(b)[..2] + ToHex(b[1..])[..2 * (k - 1)];
    } else {
      assert b[..0] == [];
    }
  }

  /** The text a torn record leaves, and what it reads as. */
  lemma CutRecord(r: SpendRecord, k: nat)
    requires Typed(r) && 0 < k <= |r.signature|
    ensures var cut := SpendRecord(r.leaf, r.digest, r.signature[..k]);
            var n := |Head(r.leaf, r.digest)| + 2 * k;
            && Tears(r, n) && Piece(r, n) == FormatRecord(cut)
            && OpenText(FormatRecord(cut)) == Some(map[r.leaf := cut])
  {
    hide Head, ParseLine;
    var cut := SpendRecord(r.leaf, r.digest, r.signature[..k]);
    HexUpTo(r.signature, k);
    assert FormatLine(r)[..|Head(r.leaf, r.digest)| + 2 * k] == FormatRecord(cut);
    ReadAlone(cut);
  }

  lemma ReadAlone(r: SpendRecord)
    requires Typed(r) && |r.signature| > 0
    ensures OpenText(FormatRecord(r)) == Some(map[r.leaf := r])
  {
    ParseFormatted(r);
    RecordSolid(r);
    SolidTrim(FormatRecord(r));
    assert |FormatRecord(r)| > 0;
    hide FormatRecord, ParseLine, Solid;
    OpenTail([], FormatRecord(r));
    assert Body([]) + FormatRecord(r) == FormatRecord(r);
    assert MapOf([]) == map[];
  }

  /** Two more hex characters behind a record are one more byte of its signature. */
  lemma OneMoreByte(cut: SpendRecord, q: SpendRecord)
    requires Typed(cut) && Typed(q) && |cut.signature| > 0
    ensures Tears(q, 2)
    ensures FormatRecord(cut) + Piece(q, 2) == FormatRecord(cut.(signature := cut.signature + [q.leaf.vaultId[0]]))
  {
    hide Head;
    var v := q.leaf.vaultId;
    HexUpTo(v, 1);
    assert v[..1] == [v[0]];
    HexJoin(cut.signature, [v[0]]);
    HeadStarts(q);
  }

  lemma HeadStarts(q: SpendRecord)
    requires Typed(q)
    ensures Tears(q, 2) && Piece(q, 2) == ToHex(q.leaf.vaultId)[..2]
  {
    hide ToHex, ToDecimal;
  }

  /**
   * Why only a leaf's first return is kept exactly: a torn record that still
   * reads is returned to a retry, and a later torn append lengthens its
   * signature in the file. Leaf and digest stay.
   */
  lemma TornSignatureGrows(r: SpendRecord, k: nat, q: SpendRecord)
    requires Typed(r) && 0 < k <= |r.signature| && Typed(q) && q.leaf != r.leaf
    ensures var cut := SpendRecord(r.leaf, r.digest, r.signature[..k]);
            var (s, told) := Run(Regrow(r, k, q));
            && TearsAtMost(Regrow(r, k, q), 1)
            && told == [Outcome(cut, false)]
            && OpenText(s.file) == Some(map[r.leaf := cut.(signature := cut.signature + [q.leaf.vaultId[0]])])
  {
    hide *;
    var cut := SpendRecord(r.leaf, r.digest, r.signature[..k]);
    SameWidths(r, cut);
    TornThenRead(r, k);
    OneMoreByte(cut, q);
    GrownReads(cut, q);
    var run3 := [Reopen] + [Attempt((r, |Head(r.leaf, r.digest)| + 2 * k))] + [Reopen];
    var again := SignOnce(r.leaf, r.digest, None, Durable);
    RegrowIs(r, k, q);
    LastThree(cut, q, FormatRecord(cut));
    RunOn(run3, again, 1);
    RunOn(run3 + [again], Attempt((q, 2)), 1);
    RunOn(run3 + [again] + [Attempt((q, 2))], Crash, 1);
  }

  lemma RegrowIs(r: SpendRecord, k: nat, q: SpendRecord)
    ensures Regrow(r, k, q)
            == [Reopen] + [Attempt((r, |Head(r.leaf, r.digest)| + 2 * k))] + [Reopen]
               + [SignOnce(r.leaf, r.digest, None, Durable)] + [Attempt((q, 2))] + [Crash]
  {
    hide Head, Attempt;
  }

  /** The retry, the torn append and the crash, in a process that knows one record. */
  lemma LastThree(cut: SpendRecord, q: SpendRecord, file: string)
    requires Tears(q, 2) && q.leaf != cut.leaf
    ensures var m := Some(map[cut.leaf := cut]);
            && Next(State(file, m, 0), SignOnce(cut.leaf, cut.digest, None, Durable))
               == (State(file, m, 0), Some(Outcome(cut, false)))
            && Next(State(file, m, 0), Attempt((q, 2))) == (State(file + Piece(q, 2), m, 1), None)
            && Next(State(file + Piece(q, 2), m, 1), Crash) == (State(file + Piece(q, 2), None, 1), None)
            && [] + Told(Some(Outcome(cut, false))) == [Outcome(cut, false)]
            && [Outcome(cut, false)] + Told(None) == [Outcome(cut, false)]
  {
    hide Piece, Tears;
    var none: seq<Outcome> := [];
    assert none + [Outcome(cut, false)] == [Outcome(cut, false)];
    assert [Outcome(cut, false)] + none == [Outcome(cut, false)];
  }

  /** One more event, the torn appends still bounded. */
  lemma RunOn(events: seq<Event>, e: Event, n: nat)
    requires TearsAtMost(events, n) && Next(Run(events).0, e).0.tears <= n
    ensures var (s, told) := Run(events); var (t, o) := Next(s, e);
            Run(events + [e]) == (t, told + Told(o)) && TearsAtMost(events + [e], n)
  {
    hide Run, Next, TearsAtMost;
    RunSnoc(events, e);
    TearsSnoc(events, e, n);
  }

  /** An append torn k bytes into the signature, and the reopening that reads it. */
  lemma TornThenRead(r: SpendRecord, k: nat)
    requires Typed(r) && 0 < k <= |r.signature|
    ensures var cut := SpendRecord(r.leaf, r.digest, r.signature[..k]);
            var run3 := [Reopen] + [Attempt((r, |Head(r.leaf, r.digest)| + 2 * k))] + [Reopen];
            && Run(run3) == (State(FormatRecord(cut), Some(map[r.leaf := cut]), 0), [])
            && TearsAtMost(run3, 1)
  {
    hide Head, FormatRecord, FormatLine, Piece, Tears, OpenText, Typed, Run, TearsAtMost;
    var n := |Head(r.leaf, r.digest)| + 2 * k;
    CutRecord(r, k);
    OpenOnly();
    TearsMore([Reopen], 0, 1);
    assert "" + Piece(r, n) == Piece(r, n);
    var none: seq<Outcome> := [];
    assert none + none == none;
    RunOn([Reopen], Attempt((r, n)), 1);
    RunOn([Reopen] + [Attempt((r, n))], Reopen, 1);
  }

  lemma SameWidths(r: SpendRecord, cut: SpendRecord)
    requires Typed(r) && cut.leaf == r.leaf && cut.digest == r.digest
    ensures Typed(cut)
  {
  }

  lemma GrownReads(cut: SpendRecord, q: SpendRecord)
    requires Typed(cut) && Typed(q) && |cut.signature| > 0
    ensures var grown := cut.(signature := cut.signature + [q.leaf.vaultId[0]]);
            OpenText(FormatRecord(grown)) == Some(map[cut.leaf := grown])
  {
    hide OpenText, FormatRecord;
    ReadAlone(cut.(signature := cut.signature + [q.leaf.vaultId[0]]));
  }
}
