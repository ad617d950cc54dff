/** The sign-once journal: an append-only file that appends can tear, and the safety of every run over it. */
module Journal {
  import opened Lists
  import opened JournalText

  type Entries = map<LeafId, SpendRecord>

  // ---- opening -------------------------------------------------------------

  /** The loop of `open`: the last record of a leaf wins, a blank line is skipped, anything else unreadable refuses. */
  function Load(lines: seq<string>, m: Entries): Option<Entries>
  {
    if |lines| == 0 then Some(m)
    else
      match ParseLine(lines[0])
      case Some(r) => Load(lines[1..], m[r.leaf := r])
      case None => if |Trim(lines[0])| == 0 then Load(lines[1..], m) else None
  }

  function OpenText(text: string): Option<Entries> { Load(Lines(text), map[]) }

  /** Complete lines, in order. */
  function Body(recs: seq<SpendRecord>): string
  {
    if |recs| == 0 then "" else FormatLine(recs[0]) + Body(recs[1..])
  }

  function AddAll(m: Entries, recs: seq<SpendRecord>): Entries
    decreases |recs|
  {
    if |recs| == 0 then m else AddAll(m[recs[0].leaf := recs[0]], recs[1..])
  }

  function MapOf(recs: seq<SpendRecord>): Entries { AddAll(map[], recs) }

  predicate Good(recs: seq<SpendRecord>)
  {
    forall r :: r in recs ==> Typed(r) && |r.signature| > 0
  }

  lemma {:induction false} BodyAppend(a: seq<SpendRecord>, b: seq<SpendRecord>)
    ensures Body(a + b) == Body(a) + Body(b)
  {
    hide FormatLine;
    if |a| == 0 {
      assert a + b == b;
    } else {
      assert (a + b)[1..] == a[1..] + b;
      BodyAppend(a[1..], b);
    }
  }

  lemma {:induction false} AddAllAppend(m: Entries, a: seq<SpendRecord>, b: seq<SpendRecord>)
    ensures AddAll(m, a + b) == AddAll(AddAll(m, a), b)
    decreases |a|
  {
    if |a| == 0 {
      assert a + b == b;
    } else {
      assert (a + b)[1..] == a[1..] + b;
      AddAllAppend(m[a[0].leaf := a[0]], a[1..], b);
    }
  }

  lemma MapOfSnoc(recs: seq<SpendRecord>, r: SpendRecord)
    ensures MapOf(recs + [r]) == MapOf(recs)[r.leaf := r]
  {
    AddAllAppend(map[], recs, [r]);
    assert [r][1..] == [];
  }

  /** Complete lines load to their records, and loading goes on with whatever follows them. */
  lemma {:induction false} LoadBody(recs: seq<SpendRecord>, rest: string, m: Entries)
    requires Good(recs)
    ensures Load(Lines(Body(recs) + rest), m) == Load(Lines(rest), AddAll(m, recs))
  {
    hide ParseLine, FormatRecord, Lines, Trim;
    if |recs| == 0 {
      assert Body(recs) + rest == rest;
    } else {
      var r := recs[0];
      assert r in recs;
      assert forall s :: s in recs[1..] ==> s in recs;
      var after := Body(recs[1..]) + rest;
      LineFree(r);
      LinesFirst(FormatRecord(r), after);
      assert Body(recs) + rest == FormatRecord(r) + "\n" + after;
      ParseFormatted(r);
      assert ([FormatRecord(r)] + Lines(after))[1..] == Lines(after);
      LoadBody(recs[1..], rest, m[r.leaf := r]);
    }
  }

  lemma LineFree(r: SpendRecord)
    ensures Free(FormatRecord(r), '\n')
  {
    RecordFree(r.leaf, r.digest, ToHex(r.signature));
  }

  /** Round trip: reopening a file of successful puts yields the in-memory map. */
  lemma OpenBody(recs: seq<SpendRecord>)
    requires Good(recs)
    ensures OpenText(Body(recs)) == Some(MapOf(recs))
  {
    LoadBody(recs, "", map[]);
    assert Body(recs) + "" == Body(recs);
    assert Lines("") == [];
  }

  /** Complete lines followed by one unterminated piece. */
  lemma OpenTail(recs: seq<SpendRecord>, tail: string)
    requires Good(recs) && Free(tail, '\n') && |tail| > 0
    ensures OpenText(Body(recs) + tail)
            == match ParseLine(tail)
               case Some(r) => Some(MapOf(recs)[r.leaf := r])
               case None => if |Trim(tail)| == 0 then Some(MapOf(recs)) else None
  {
    hide ParseLine, Trim;
    LoadBody(recs, tail, map[]);
    assert Lines(tail) == [tail] && [tail][1..] == [];
    assert forall m :: Load([], m) == Some(m);
  }

  // ---- files that can never be opened again --------------------------------

  /** However the file grows, opening it refuses. */
  ghost predicate Poisoned(file: string)
  {
    forall more: string :: OpenText(file + more).None?
  }

  lemma PoisonedGrows(file: string, more: string)
    requires Poisoned(file)
    ensures Poisoned(file + more)
  {
    forall extra: string
      ensures OpenText(file + more + extra).None?
    {
      assert file + more + extra == file + (more + extra);
    }
  }

  /** A started line with more than three colons cannot be completed to a record. */
  lemma ColonsPoison(recs: seq<SpendRecord>, line: string)
    requires Good(recs) && Free(line, '\n') && Count(line, ':') > 3
    ensures Poisoned(Body(recs) + line)
  {
    assert |line| > 0;
    hide ParseLine, Trim, Count, Free;
    forall more: string
      ensures OpenText(Body(recs) + line + more).None?
    {
      assert Body(recs) + line + more == Body(recs) + (line + more);
      LoadBody(recs, line + more, map[]);
      FirstLineExtends(line, more);
      var first := Lines(line + more)[0];
      CountAppend(line, first[|line|..], ':');
      assert first == line + first[|line|..];
      TooManyColons(first);
    }
  }

  /** The first line of an extended text extends an unterminated start. */
  lemma FirstLineExtends(line: string, more: string)
    requires Free(line, '\n') && |line| > 0
    ensures |Lines(line + more)| > 0
    ensures var first := Lines(line + more)[0];
            |line| <= |first| && first[..|line|] == line
  {
    var s := line + more;
    match Cut(s, '\n') {
      case None =>
      case Some((a, b)) =>
        assert s[|a|] == '\n';
        assert forall i :: 0 <= i < |line| ==> s[i] == line[i] && s[i] != '\n';
        assert s[..|line|] == line && s[..|a|] == a;
        assert a[..|line|] == s[..|line|];
    }
  }

  /** A finished line that is neither a record nor blank. */
  lemma BadLinePoisons(recs: seq<SpendRecord>, line: string)
    requires Good(recs) && Free(line, '\n') && ParseLine(line).None? && |Trim(line)| > 0
    ensures Poisoned(Body(recs) + (line + "\n"))
  {
    hide ParseLine, Trim;
    forall more: string
      ensures OpenText(Body(recs) + (line + "\n") + more).None?
    {
      assert Body(recs) + (line + "\n") + more == Body(recs) + (line + "\n" + more);
      LoadBody(recs, line + "\n" + more, map[]);
      LinesFirst(line, more);
    }
  }

  // ---- what appends can leave behind ---------------------------------------

  /** The first n characters of a record's line; all of it when n is large. */
  function Piece(r: SpendRecord, n: nat): string
  {
    if n < |FormatLine(r)| then FormatLine(r)[..n] else FormatLine(r)
  }

  /** A cut that stops short of the newline. */
  predicate Tears(r: SpendRecord, n: nat) { 0 < n < |FormatLine(r)| }

  /** No character that ends a line or that trimming drops. */
  predicate Solid(s: string) { forall i :: 0 <= i < |s| ==> !IsSpace(s[i]) }

  lemma SolidJoin(a: string, b: string)
    requires Solid(a) && Solid(b)
    ensures Solid(a + b)
  {
  }

  lemma HexSolid(s: string)
    requires AllHex(s)
    ensures Solid(s)
  {
  }

  lemma SolidTrim(s: string)
    requires Solid(s)
    ensures Trim(s) == s && Free(s, '\n')
  {
  }

  lemma RecordSolid(r: SpendRecord)
    ensures Solid(FormatRecord(r))
  {
    hide ToHex, ToDecimal;
    HexSolid(ToHex(r.leaf.vaultId));
    HexSolid(ToHex(r.digest));
    HexSolid(ToHex(r.signature));
    assert Solid(ToDecimal(r.leaf.leaf));
  }

  lemma PieceSolid(r: SpendRecord, n: nat)
    requires Tears(r, n)
    ensures Piece(r, n) == FormatRecord(r)[..n] && |Piece(r, n)| == n && Solid(Piece(r, n))
  {
    hide FormatRecord;
    RecordSolid(r);
  }

  // ---- fields --------------------------------------------------------------

  /** Joining two texts joins the last field of one to the first of the other. */
  lemma {:induction false} SplitConcat(a: string, b: string, c: char)
    ensures var f := Split(a, c); var g := Split(b, c);
            Split(a + b, c) == f[..|f| - 1] + [f[|f| - 1] + g[0]] + g[1..]
    decreases |a|
  {
    hide Split;
    match Cut(a, c) {
      case Some((x, y)) =>
        SplitConcat(y, b, c);
        assert a + b == x + [c] + (y + b);
        SplitFirst(x, y + b, c);
        SplitFirst(x, y, c);
        var f, h := Split(a, c), Split(y, c);
        assert f[..|f| - 1] == [x] + h[..|h| - 1];
      case None =>
        SplitFree(a, c);
        match Cut(b, c) {
          case Some((x, y)) =>
            FreeJoin(a, x, c);
            assert a + b == (a + x) + [c] + y;
            SplitFirst(a + x, y, c);
            SplitFirst(x, y, c);
          case None =>
            FreeJoin(a, b, c);
            SplitFree(b, c);
            SplitFree(a + b, c);
        }
    }
  }

  lemma FreeJoin(a: string, b: string, c: char)
    requires Free(a, c) && Free(b, c)
    ensures Free(a + b, c)
  {
  }

  lemma SplitFree(s: string, c: char)
    requires Free(s, c)
    ensures Split(s, c) == [s]
  {
  }

  /** Fields an unfinished line starts with: whole ones, then the beginning of one. */
  lemma SplitPrefix(s: string, n: nat, c: char)
    requires n <= |s|
    ensures var f := Split(s[..n], c); var full := Split(s, c);
            && |f| <= |full| && |f[|f| - 1]| <= |full[|f| - 1]|
            && forall i :: 0 <= i < |f| - 1 ==> f[i] == full[i]
  {
    hide Split;
    assert s == s[..n] + s[n..];
    SplitConcat(s[..n], s[n..], c);
  }

  /** What the field lengths of a torn line allow: a vault in full before the first colon, a short leaf number after it. */
  predicate Shape(f: seq<string>)
  {
    && 1 <= |f| <= 4
    && (|f| == 1 ==> |f[0]| <= 32)
    && (|f| >= 2 ==> |f[0]| == 32 && |f[1]| <= 10)
  }

  function TenTo(k: nat): nat { if k == 0 then 1 else 10 * TenTo(k - 1) }

  lemma {:induction false} DecimalShort(n: nat, k: nat)
    requires k >= 1 && n < TenTo(k)
    ensures |ToDecimal(n)| <= k
  {
    if n >= 10 {
      assert TenTo(1) == 10 * TenTo(0);
      DecimalShort(n / 10, k - 1);
    }
  }

  lemma LeafShort(n: nat)
    requires n < 0x1_0000_0000
    ensures |ToDecimal(n)| <= 10
  {
    assert TenTo(5) == 100000;
    assert TenTo(10) == 100000 * TenTo(5);
    DecimalShort(n, 10);
  }

  lemma RecordFields(r: SpendRecord)
    requires Typed(r)
    ensures Split(FormatRecord(r), ':')
            == [ToHex(r.leaf.vaultId), ToDecimal(r.leaf.leaf), ToHex(r.digest), ToHex(r.signature)]
    ensures Shape(Split(FormatRecord(r), ':'))
  {
    hide Split, ToHex, ToDecimal, Head;
    HeadFields(r.leaf, r.digest, ToHex(r.signature));
    LeafShort(r.leaf.leaf);
  }

  lemma PieceFields(r: SpendRecord, n: nat)
    requires Typed(r) && Tears(r, n)
    ensures var f := Split(Piece(r, n), ':');
            && Shape(f)
            && (|f| >= 3 ==> f[0] == ToHex(r.leaf.vaultId) && f[1] == ToDecimal(r.leaf.leaf))
  {
    hide Split, ToHex, ToDecimal, FormatRecord;
    PieceSolid(r, n);
    RecordFields(r);
    SplitPrefix(FormatRecord(r), n, ':');
  }

  lemma {:induction false} HexLength(s: string)
    ensures HexPairs(s).Some? ==> |s| == 2 * |HexPairs(s).value|
  {
    if |s| > 1 {
      HexLength(s[2..]);
    }
  }

  /** A readable line without blanks: four fields, of which the vault and the digest have their lengths. */
  lemma ReadFields(s: string)
    requires Solid(s) && ParseLine(s).Some?
    ensures var f := Split(s, ':');
            && |f| == 4 && |f[0]| == 32 && |f[2]| == 64
            && ParseFields(f) == ParseLine(s)
  {
    hide Split, HexPairs, ParseU32;
    SolidTrim(s);
    HexLength(Split(s, ':')[0]);
    HexLength(Split(s, ':')[2]);
  }

  // ---- torn lines ----------------------------------------------------------

  type Tear = (SpendRecord, nat)

  /** The unterminated line left by appends that stopped early, one after another. */
  function TornText(tears: seq<Tear>): string
  {
    if |tears| == 0 then "" else Piece(tears[0].0, tears[0].1) + TornText(tears[1..])
  }

  predicate AllTorn(tears: seq<Tear>)
  {
    forall t :: t in tears ==> Typed(t.0) && Tears(t.0, t.1)
  }

  lemma {:induction false} TornSnoc(tears: seq<Tear>, t: Tear)
    ensures TornText(tears + [t]) == TornText(tears) + Piece(t.0, t.1)
  {
    hide Piece;
    if |tears| == 0 {
      assert [t][1..] == [] && tears + [t] == [t];
      assert TornText([t]) == Piece(t.0, t.1) + TornText([]);
    } else {
      assert (tears + [t])[1..] == tears[1..] + [t];
      TornSnoc(tears[1..], t);
    }
  }

  lemma {:induction false} TornSolid(tears: seq<Tear>)
    requires AllTorn(tears)
    ensures Solid(TornText(tears)) && |TornText(tears)| >= |tears|
  {
    hide Piece, Solid;
    if |tears| == 0 {
      NothingSolid();
    } else {
      PieceSolid(tears[0].0, tears[0].1);
      assert forall t :: t in tears[1..] ==> t in tears;
      TornSolid(tears[1..]);
      SolidJoin(Piece(tears[0].0, tears[0].1), TornText(tears[1..]));
    }
  }

  lemma NothingSolid()
    ensures Solid("") && Split("", ':') == [""]
  {
  }

  /** Field lengths after one more torn append, or none. */
  lemma TornShape(tears: seq<Tear>)
    requires AllTorn(tears) && |tears| <= 1
    ensures Shape(Split(TornText(tears), ':'))
  {
    hide Split, Piece;
    NothingSolid();
    if |tears| == 1 {
      PieceFields(tears[0].0, tears[0].1);
      assert TornText(tears[1..]) == "";
      assert TornText(tears) == Piece(tears[0].0, tears[0].1);
    }
  }

  /** Two torn appends never hold a 64-character field between two colons, nor a full vault they begin in the middle of. */
  lemma TwoTorn(tears: seq<Tear>)
    requires AllTorn(tears) && |tears| <= 2
    ensures var g := Split(TornText(tears), ':');
            && (|g| == 3 ==> |g[1]| < 64)
            && (|g| == 4 ==> |g[0]| >= 32)
  {
    hide Split, Piece;
    assert forall t :: t in tears[..] ==> t in tears;
    if |tears| < 2 {
      TornShape(tears);
    } else {
      TornShape(tears[1..]);
      PieceFields(tears[0].0, tears[0].1);
      SplitConcat(Piece(tears[0].0, tears[0].1), TornText(tears[1..]), ':');
    }
  }

  /** After at most three torn appends the line names the leaf of the first, if it can be read at all. */
  lemma ThreeTorn(tears: seq<Tear>)
    requires AllTorn(tears) && 1 <= |tears| <= 3
    ensures var read := ParseLine(TornText(tears));
            read.Some? ==> read.value.leaf == tears[0].0.leaf
  {
    hide Split, Piece, ParseLine, ToHex, ToDecimal, Shape;
    var first, rest := Piece(tears[0].0, tears[0].1), TornText(tears[1..]);
    TornSolid(tears);
    if ParseLine(TornText(tears)).Some? {
      ReadFields(TornText(tears));
      assert forall t :: t in tears[1..] ==> t in tears;
      TwoTorn(tears[1..]);
      SplitConcat(first, rest, ':');
      FirstTorn(tears[0].0, tears[0].1, Split(rest, ':'), Split(TornText(tears), ':'));
    }
  }

  lemma FirstTorn(r: SpendRecord, n: nat, g: seq<string>, full: seq<string>)
    requires Typed(r) && Tears(r, n)
    requires |g| >= 1 && (|g| == 3 ==> |g[1]| < 64) && (|g| == 4 ==> |g[0]| >= 32)
    requires var f := Split(Piece(r, n), ':'); full == f[..|f| - 1] + [f[|f| - 1] + g[0]] + g[1..]
    requires |full| == 4 && |full[0]| == 32 && |full[2]| == 64 && ParseFields(full).Some?
    ensures ParseFields(full).value.leaf == r.leaf
  {
    hide Split, ToHex, ToDecimal, HexPairs, ParseU32, Piece, FormatLine;
    var f := Split(Piece(r, n), ':');
    PieceFields(r, n);
    PieceSolid(r, n);
    LoneField(Piece(r, n));
    assert full[0] == f[0] && full[1] == f[1];
    HexRoundTrip(r.leaf.vaultId);
    ParseDecimal(r.leaf.leaf);
  }

  /** A text of one field is that field. */
  lemma LoneField(s: string)
    ensures |Split(s, ':')| == 1 ==> Split(s, ':')[0] == s
  {
  }

  /** A full line behind an unfinished one is unreadable, so the file is lost for good. */
  lemma OntoTail(recs: seq<SpendRecord>, tail: string, r: SpendRecord)
    requires Good(recs) && Solid(tail) && |tail| > 0 && Typed(r)
    ensures Poisoned(Body(recs) + tail + FormatLine(r))
  {
    hide Split, FormatRecord, Trim, ParseLine, Poisoned, Solid, Body, Good, Shape;
    var line := tail + FormatRecord(r);
    RecordSolid(r);
    SolidJoin(tail, FormatRecord(r));
    SolidTrim(line);
    assert Body(recs) + tail + FormatLine(r) == Body(recs) + (line + "\n");
    if ParseLine(line).Some? {
      ReadFields(line);
      RecordFields(r);
      SplitConcat(tail, FormatRecord(r), ':');
      LoneField(tail);
    }
    BadLinePoisons(recs, line);
  }

  /** Hex digits behind a readable line change neither its leaf nor its digest. */
  lemma TailKey(base: string, extra: string)
    requires Solid(base) && AllHex(extra) && ParseLine(base).Some? && ParseLine(base + extra).Some?
    ensures ParseLine(base + extra).value.leaf == ParseLine(base).value.leaf
    ensures ParseLine(base + extra).value.digest == ParseLine(base).value.digest
  {
    hide Split, ParseLine, HexPairs, ParseU32;
    HexSolid(extra);
    SolidJoin(base, extra);
    ReadFields(base);
    ReadFields(base + extra);
    LastField(extra);
    SplitConcat(base, extra, ':');
  }

  /** A readable line has exactly three colons, so it is not blank. */
  lemma ReadColons(s: string)
    requires Solid(s) && ParseLine(s).Some?
    ensures Count(s, ':') == 3
  {
    hide ParseLine, Split;
    ReadFields(s);
    SplitCount(s, ':');
  }

  /** Behind a readable line, a torn append either adds hex digits or spoils the file for good. */
  lemma OntoRead(recs: seq<SpendRecord>, base: string, extra: string, r: SpendRecord, n: nat)
    requires Good(recs) && Solid(base) && ParseLine(base).Some? && AllHex(extra) && Typed(r) && Tears(r, n)
    ensures n <= 32 ==> AllHex(extra + Piece(r, n))
    ensures n > 32 ==> Poisoned(Body(recs) + (base + extra) + Piece(r, n))
  {
    PieceColons(r, n);
    if n > 32 {
      hide *;
      PieceSolid(r, n);
      var line := base + extra + Piece(r, n);
      HexSolid(extra);
      SolidJoin(base, extra);
      SolidJoin(base + extra, Piece(r, n));
      SolidTrim(line);
      ReadColons(base);
      CountAppend(base, extra, ':');
      CountAppend(base + extra, Piece(r, n), ':');
      ColonsPoison(recs, line);
      assert Body(recs) + (base + extra) + Piece(r, n) == Body(recs) + line;
    }
  }

  lemma PieceColons(r: SpendRecord, n: nat)
    requires Typed(r) && Tears(r, n)
    ensures n <= 32 ==> AllHex(Piece(r, n))
    ensures n > 32 ==> Count(Piece(r, n), ':') > 0
  {
    hide Count;
    var hex := ToHex(r.leaf.vaultId);
    var rec := FormatRecord(r);
    assert |hex| == 32 && rec[..32] == hex && rec[32] == ':' by { hide ToHex, ToDecimal; }
    PieceSolid(r, n);
    if n <= 32 {
      assert Piece(r, n) == hex[..n];
    } else {
      CountFree(Piece(r, n), ':');
      assert Piece(r, n)[32] == ':';
    }
  }
}
