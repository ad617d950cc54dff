/** The journal's text: one record a line, hex and decimal fields between colons, and the reader for it. */
module JournalText {
  import opened Bytes
  import opened Lists

  /** Which vault, which leaf. */
  datatype LeafId = LeafId(vaultId: Bytes, leaf: nat)

  /** Proof that a leaf has signed, and what it signed. */
  datatype SpendRecord = SpendRecord(leaf: LeafId, digest: Bytes, signature: Bytes)

  /** The fixed widths of a record's fields. */
  predicate Typed(r: SpendRecord)
  {
    |r.leaf.vaultId| == 16 && r.leaf.leaf < 0x1_0000_0000 && |r.digest| == 32
  }

  // ---- characters ----------------------------------------------------------

  predicate IsSpace(c: char) { c in {' ', '\t', '\n', '\r', 11 as char, 12 as char} }

  function HexChar(n: nat): char
    requires n < 16
  {
    "0123456789abcdef"[n]
  }

  /** The value of a hex digit, upper or lower case. */
  function HexValue(c: char): Option<nat>
  {
    if '0' <= c <= '9' then Some((c - '0') as nat)
    else if 'a' <= c <= 'f' then Some((c - 'a') as nat + 10)
    else if 'A' <= c <= 'F' then Some((c - 'A') as nat + 10)
    else None
  }

  predicate IsHex(c: char) { '0' <= c <= '9' || 'a' <= c <= 'f' }

  predicate IsDigit(c: char) { '0' <= c <= '9' }

  predicate AllHex(s: string) { forall i :: 0 <= i < |s| ==> IsHex(s[i]) }

  predicate AllDigits(s: string) { forall i :: 0 <= i < |s| ==> IsDigit(s[i]) }

  // ---- hex -----------------------------------------------------------------

  function ToHex(b: Bytes): (s: string)
    ensures |s| == 2 * |b| && AllHex(s)
  {
    if |b| == 0 then [] else [HexChar(b[0] / 16), HexChar(b[0] % 16)] + ToHex(b[1..])
  }

  /** Two characters in radix 16; a leading plus sign is accepted. */
  function HexPair(a: char, b: char): Option<Byte>
  {
    match HexValue(b)
    case None => None
    case Some(low) =>
      if a == '+' then Some(low)
      else
        match HexValue(a)
        case None => None
        case Some(high) => Some(16 * high + low)
  }

  function HexPairs(s: string): Option<Bytes>
  {
    if |s| == 0 then Some([])
    else if |s| == 1 then None
    else
      match (HexPair(s[0], s[1]), HexPairs(s[2..]))
      case (Some(b), Some(rest)) => Some([b] + rest)
      case _ => None
  }

  /** `from_hex`: even and not empty. */
  function FromHex(s: string): Option<Bytes>
  {
    if |s| % 2 != 0 || |s| == 0 then None else HexPairs(s)
  }

  lemma HexCharValue(n: nat)
    requires n < 16
    ensures HexValue(HexChar(n)) == Some(n) && HexChar(n) != '+'
  {
  }

  lemma HexPairValue(n: Byte)
    ensures HexPair(HexChar(n / 16), HexChar(n % 16)) == Some(n)
  {
    hide HexValue, HexChar;
    HexCharValue(n / 16);
    HexCharValue(n % 16);
  }

  lemma {:induction false} HexRoundTrip(b: Bytes)
    ensures HexPairs(ToHex(b)) == Some(b)
  {
    hide HexPair, HexChar;
    if |b| > 0 {
      HexPairValue(b[0]);
      HexRoundTrip(b[1..]);
      assert ToHex(b)[2..] == ToHex(b[1..]);
      assert [b[0]] + b[1..] == b;
    }
  }

  // ---- decimal -------------------------------------------------------------

  function ToDecimal(n: nat): (s: string)
    ensures |s| > 0 && AllDigits(s)
  {
    if n < 10 then [HexChar(n)] else ToDecimal(n / 10) + [HexChar(n % 10)]
  }

  function Digits(s: string): Option<nat>
  {
    if |s| == 0 then Some(0)
    else
      var c := s[|s| - 1];
      if !IsDigit(c) then None
      else
        match Digits(s[..|s| - 1])
        case None => None
        case Some(n) => Some(10 * n + (c - '0') as nat)
  }

  /** `parse::<u32>`: an optional plus sign, digits, and no overflow. */
  function ParseU32(s: string): Option<nat>
  {
    var body := if |s| > 0 && s[0] == '+' then s[1..] else s;
    if |body| == 0 then None
    else
      match Digits(body)
      case Some(n) => if n < 0x1_0000_0000 then Some(n) else None
      case None => None
  }

  lemma {:induction false} DecimalRoundTrip(n: nat)
    ensures Digits(ToDecimal(n)) == Some(n)
  {
    if n < 10 {
      assert [HexChar(n)][..0] == [];
    } else {
      DecimalRoundTrip(n / 10);
      var s := ToDecimal(n);
      assert s[..|s| - 1] == ToDecimal(n / 10);
    }
  }

  lemma ParseDecimal(n: nat)
    requires n < 0x1_0000_0000
    ensures ParseU32(ToDecimal(n)) == Some(n)
  {
    DecimalRoundTrip(n);
    assert IsDigit(ToDecimal(n)[0]);
  }

  // ---- splitting -----------------------------------------------------------

  predicate Free(s: string, c: char) { forall i :: 0 <= i < |s| ==> s[i] != c }

  /** Up to the first c, and the rest; None when there is no c. */
  function Cut(s: string, c: char): (r: Option<(string, string)>)
    ensures r.Some? ==> s == r.value.0 + [c] + r.value.1 && Free(r.value.0, c)
    ensures r.None? <==> Free(s, c)
  {
    if |s| == 0 then None
    else if s[0] == c then
      assert [] + [c] + s[1..] == s;
      Some(([], s[1..]))
    else
      match Cut(s[1..], c)
      case None =>
        assert forall i :: 0 < i < |s| ==> s[i] == s[1..][i - 1];
        None
      case Some((a, b)) =>
        assert [s[0]] + a + [c] + b == s;
        Some(([s[0]] + a, b))
  }

  lemma CutAt(a: string, b: string, c: char)
    requires Free(a, c)
    ensures Cut(a + [c] + b, c) == Some((a, b))
  {
    var s := a + [c] + b;
    if |a| == 0 {
      assert s[1..] == b;
    } else {
      assert s[1..] == a[1..] + [c] + b;
      assert Free(a[1..], c);
      CutAt(a[1..], b, c);
      assert [s[0]] + a[1..] == a;
    }
  }

  /** `split(c)`: always at least one part. */
  function Split(s: string, c: char): (r: seq<string>)
    ensures |r| >= 1
    decreases |s|
  {
    match Cut(s, c)
    case None => [s]
    case Some((a, b)) => [a] + Split(b, c)
  }

  lemma SplitFirst(a: string, b: string, c: char)
    requires Free(a, c)
    ensures Split(a + [c] + b, c) == [a] + Split(b, c)
  {
    CutAt(a, b, c);
  }

  function Count(s: string, c: char): nat
  {
    if |s| == 0 then 0 else (if s[0] == c then 1 else 0) + Count(s[1..], c)
  }

  lemma {:induction false} CountAppend(a: string, b: string, c: char)
    ensures Count(a + b, c) == Count(a, c) + Count(b, c)
  {
    if |a| == 0 {
      assert a + b == b;
    } else {
      assert (a + b)[1..] == a[1..] + b;
      CountAppend(a[1..], b, c);
    }
  }

  lemma {:induction false} CountFree(s: string, c: char)
    ensures Free(s, c) <==> Count(s, c) == 0
  {
    if |s| > 0 {
      CountFree(s[1..], c);
      if Free(s, c) {
        assert forall i :: 0 <= i < |s[1..]| ==> s[1..][i] == s[i + 1];
      } else if s[0] != c {
        var i :| 0 <= i < |s| && s[i] == c;
        assert s[1..][i - 1] == c;
      }
    }
  }

  /** One part more than there are separators. */
  lemma {:induction false} SplitCount(s: string, c: char)
    ensures |Split(s, c)| == Count(s, c) + 1
    decreases |s|
  {
    CountFree(s, c);
    match Cut(s, c) {
      case None =>
      case Some((a, b)) =>
        SplitCount(b, c);
        CountFree(a, c);
        CountAppend(a + [c], b, c);
        CountAppend(a, [c], c);
        assert [c][1..] == [];
    }
  }

  // ---- trimming ------------------------------------------------------------

  function TrimStart(s: string): string
  {
    if |s| > 0 && IsSpace(s[0]) then TrimStart(s[1..]) else s
  }

  function TrimEnd(s: string): string
  {
    if |s| > 0 && IsSpace(s[|s| - 1]) then TrimEnd(s[..|s| - 1]) else s
  }

  function Trim(s: string): string { TrimEnd(TrimStart(s)) }

  /** Nothing to trim. */
  lemma TrimNothing(s: string)
    requires |s| > 0 && !IsSpace(s[0]) && !IsSpace(s[|s| - 1])
    ensures Trim(s) == s
  {
  }

  lemma {:induction false} TrimStartCount(s: string, c: char)
    requires !IsSpace(c)
    ensures Count(TrimStart(s), c) == Count(s, c)
  {
    if |s| > 0 && IsSpace(s[0]) {
      TrimStartCount(s[1..], c);
    }
  }

  lemma {:induction false} TrimEndCount(s: string, c: char)
    requires !IsSpace(c)
    ensures Count(TrimEnd(s), c) == Count(s, c)
  {
    if |s| > 0 && IsSpace(s[|s| - 1]) {
      TrimEndCount(s[..|s| - 1], c);
      assert s == s[..|s| - 1] + [s[|s| - 1]];
      CountAppend(s[..|s| - 1], [s[|s| - 1]], c);
      assert [s[|s| - 1]][1..] == [];
    }
  }

  /** Trimming removes no separator. */
  lemma TrimCount(s: string, c: char)
    requires !IsSpace(c)
    ensures Count(Trim(s), c) == Count(s, c)
  {
    TrimStartCount(s, c);
    TrimEndCount(TrimStart(s), c);
  }

  // ---- lines ---------------------------------------------------------------

  /** `lines()`; a carriage return it would drop is dropped by trimming anyway. */
  function Lines(s: string): seq<string>
    decreases |s|
  {
    match Cut(s, '\n')
    case None => if |s| == 0 then [] else [s]
    case Some((a, b)) => [a] + Lines(b)
  }

  lemma LinesFirst(a: string, b: string)
    requires Free(a, '\n')
    ensures Lines(a + "\n" + b) == [a] + Lines(b)
  {
    CutAt(a, b, '\n');
    assert a + "\n" + b == a + ['\n'] + b;
  }

  // ---- records -------------------------------------------------------------

  /** Vault, leaf and digest, each closed by its colon. */
  function Head(leaf: LeafId, digest: Bytes): string
  {
    ToHex(leaf.vaultId) + ":" + ToDecimal(leaf.leaf) + ":" + ToHex(digest) + ":"
  }

  /** The line without its newline. */
  function FormatRecord(r: SpendRecord): string { Head(r.leaf, r.digest) + ToHex(r.signature) }

  function FormatLine(r: SpendRecord): string { FormatRecord(r) + "\n" }

  /** Four fields into a record. */
  function ParseFields(f: seq<string>): Option<SpendRecord>
    requires |f| == 4
  {
    match (FromHex(f[0]), ParseU32(f[1]), FromHex(f[2]), FromHex(f[3]))
    case (Some(vault), Some(leaf), Some(digest), Some(signature)) =>
      if |vault| == 16 && |digest| == 32 then Some(SpendRecord(LeafId(vault, leaf), digest, signature)) else None
    case _ => None
  }

  /** `parse_line`. */
  function ParseLine(line: string): Option<SpendRecord>
  {
    var parts := Split(Trim(line), ':');
    if |parts| != 4 then None else ParseFields(parts)
  }

  lemma HexFree(s: string, c: char)
    requires AllHex(s) && !IsHex(c)
    ensures Free(s, c)
  {
  }

  lemma DigitsFree(s: string, c: char)
    requires AllDigits(s) && !IsDigit(c)
    ensures Free(s, c)
  {
  }

  /** A head followed by hex digits splits into its four fields. */
  lemma HeadFields(leaf: LeafId, digest: Bytes, h: string)
    requires AllHex(h)
    ensures Split(Head(leaf, digest) + h, ':') == [ToHex(leaf.vaultId), ToDecimal(leaf.leaf), ToHex(digest), h]
  {
    hide Split, ToHex, ToDecimal;
    var a, b, c := ToHex(leaf.vaultId), ToDecimal(leaf.leaf), ToHex(digest);
    HexFree(a, ':');
    DigitsFree(b, ':');
    HexFree(c, ':');
    SplitFirst(c, h, ':');
    SplitFirst(b, c + [':'] + h, ':');
    SplitFirst(a, b + [':'] + (c + [':'] + h), ':');
    LastField(h);
    assert Head(leaf, digest) + h == a + [':'] + (b + [':'] + (c + [':'] + h));
    assert [a] + ([b] + ([c] + [h])) == [a, b, c, h];
  }

  lemma LastField(h: string)
    requires AllHex(h)
    ensures Split(h, ':') == [h]
  {
    HexFree(h, ':');
  }

  lemma HeadEnds(leaf: LeafId, digest: Bytes, h: string)
    requires |leaf.vaultId| > 0 && AllHex(h)
    ensures var s := Head(leaf, digest) + h;
            |s| > 0 && !IsSpace(s[0]) && !IsSpace(s[|s| - 1])
  {
    var s := Head(leaf, digest) + h;
    assert IsHex(ToHex(leaf.vaultId)[0]) && s[0] == ToHex(leaf.vaultId)[0];
    if |h| > 0 {
      assert s[|s| - 1] == h[|h| - 1] && IsHex(h[|h| - 1]);
    } else {
      assert s[|s| - 1] == ':';
    }
  }

  /** Reading a head and a run of hex digits: the record it names if the run is even and not empty, nothing otherwise. */
  lemma ParseHead(leaf: LeafId, digest: Bytes, h: string)
    requires |leaf.vaultId| == 16 && leaf.leaf < 0x1_0000_0000 && |digest| == 32 && AllHex(h)
    ensures ParseLine(Head(leaf, digest) + h)
            == match FromHex(h) case Some(sig) => Some(SpendRecord(leaf, digest, sig)) case None => None
  {
    hide Split, Trim, ToHex, ToDecimal, HexPairs, ParseU32;
    HeadEnds(leaf, digest, h);
    TrimNothing(Head(leaf, digest) + h);
    HeadFields(leaf, digest, h);
    HexRoundTrip(leaf.vaultId);
    HexRoundTrip(digest);
    ParseDecimal(leaf.leaf);
  }

  /** Every record with a signature survives its line. */
  lemma ParseFormatted(r: SpendRecord)
    requires Typed(r) && |r.signature| > 0
    ensures ParseLine(FormatRecord(r)) == Some(r)
  {
    hide Head, ParseLine, HexPairs;
    ParseHead(r.leaf, r.digest, ToHex(r.signature));
    HexRoundTrip(r.signature);
  }

  lemma RecordFree(leaf: LeafId, digest: Bytes, h: string)
    requires AllHex(h)
    ensures Free(Head(leaf, digest) + h, '\n')
  {
    hide ToHex, ToDecimal;
  }

  /** A line with more than three colons is unreadable and not blank. */
  lemma TooManyColons(line: string)
    requires Count(line, ':') != 3
    ensures ParseLine(line).None?
    ensures Count(line, ':') > 0 ==> |Trim(line)| > 0
  {
    TrimCount(line, ':');
    SplitCount(Trim(line), ':');
  }
}
