/** The journal's file by its characters: where each field of a line sits, and what the reader takes besides. */
module JournalForm {
  import opened Bytes
  import opened Lists
  import opened JournalText

  /** Byte i is characters 2i and 2i + 1, high digit first, in lower case. */
  lemma {:induction false} HexCharsAt(b: Bytes, i: nat)
    requires i < |b|
    ensures ToHex(b)[2 * i] == "0123456789abcdef"[b[i] / 16] && ToHex(b)[2 * i + 1] == "0123456789abcdef"[b[i] % 16]
  {
    if i > 0 {
      HexCharsAt(b[1..], i - 1);
      var head := [HexChar(b[0] / 16), HexChar(b[0] % 16)];
      assert ToHex(b) == head + ToHex(b[1..]);
    }
  }

  /** A number's decimal digits: the last is n mod 10, the rest are n / 10's, and no zero leads. */
  lemma {:induction false} DecimalDigits(n: nat)
    ensures var s := ToDecimal(n);
            && s[|s| - 1] == "0123456789"[n % 10] && (n < 10 ==> |s| == 1)
            && (n >= 10 ==> s[..|s| - 1] == ToDecimal(n / 10) && s[0] != '0')
  {
    if n >= 10 {
      DecimalDigits(n / 10);
      var s := ToDecimal(n / 10);
      assert n / 10 < 10 ==> s[0] == "0123456789"[n / 10 % 10];
      assert ToDecimal(n) == s + [HexChar(n % 10)];
    }
  }

  /**
   * A line: 32 hex characters of vault id, a colon, the leaf in decimal, a colon, 64 of digest, a colon, two for every
   * byte of signature, a newline.
   */
  lemma LineForm(r: SpendRecord)
    requires Typed(r)
    ensures var d, s := ToDecimal(r.leaf.leaf), FormatLine(r);
            && |s| == 100 + |d| + 2 * |r.signature|
            && s[..32] == ToHex(r.leaf.vaultId) && s[32] == ':' && s[33..33 + |d|] == d && s[33 + |d|] == ':'
            && s[34 + |d|..98 + |d|] == ToHex(r.digest) && s[98 + |d|] == ':'
            && s[99 + |d|..99 + |d| + 2 * |r.signature|] == ToHex(r.signature) && s[|s| - 1] == '\n'
  {
    hide ToHex, ToDecimal;
    var a, d, b, c := ToHex(r.leaf.vaultId), ToDecimal(r.leaf.leaf), ToHex(r.digest), ToHex(r.signature);
    assert FormatLine(r) == a + ":" + d + ":" + b + ":" + c + "\n";
  }

  /** Upper-case digits and a plus sign in front of the second digit of a pair read; nothing else does. */
  lemma PairEdges()
    ensures HexPair('a', 'f') == Some(0xaf) && HexPair('A', 'F') == Some(0xaf) && HexPair('+', 'f') == Some(15)
    ensures HexPair('f', '+') == None && HexPair('g', '0') == None && HexPair('-', '1') == None
  {
  }

  /** Odd or empty hex is refused. */
  lemma HexEdges(s: string)
    ensures FromHex("") == None && (|s| % 2 == 1 ==> FromHex(s) == None)
    ensures FromHex("0a") == Some([10]) && FromHex("0g") == None
  {
    assert "0a"[2..] == "" && "0g"[2..] == "";
    var ten: Bytes := [10];
    assert HexPairs("") == Some([]) && HexPair('0', 'a') == Some(10) && ten + [] == ten;
    assert HexPairs("0a") == Some([10] + []);
  }

  /** Decimal fields: a plus sign and leading zeros read, an overflow and an empty field do not. */
  lemma DecimalEdges()
    ensures ParseU32("") == None && ParseU32("+") == None && ParseU32("7") == Some(7) && ParseU32("+7") == Some(7)
    ensures ParseU32("07") == Some(7) && ParseU32("-7") == None
    ensures ParseU32(ToDecimal(0xFFFF_FFFF)) == Some(0xFFFF_FFFF) && ParseU32(ToDecimal(0x1_0000_0000)) == None
  {
    ShortDecimals();
    hide ToDecimal, ParseU32;
    TooLarge();
    ParseDecimal(0xFFFF_FFFF);
  }

  lemma ShortDecimals()
    ensures ParseU32("") == None && ParseU32("+") == None && ParseU32("7") == Some(7) && ParseU32("+7") == Some(7)
    ensures ParseU32("07") == Some(7) && ParseU32("-7") == None
  {
    OneDigit();
    assert "+7"[1..] == "7" && "+"[1..] == "";
    hide Digits;
  }

  lemma TooLarge()
    ensures ParseU32(ToDecimal(0x1_0000_0000)) == None
  {
    hide ToDecimal, Digits;
    DecimalRoundTrip(0x1_0000_0000);
    assert IsDigit(ToDecimal(0x1_0000_0000)[0]);
  }

  lemma OneDigit()
    ensures Digits("") == Some(0) && Digits("0") == Some(0) && Digits("7") == Some(7) && Digits("07") == Some(7)
    ensures Digits("-7") == None
  {
    assert "-7"[..1] == "-" && Digits("-") == None;
    assert "0"[..0] == "" && "7"[..0] == "" && "07"[..1] == "0";
  }

  /** What is trimmed: tab, newline, vertical tab, form feed, carriage return and space. */
  lemma BlankChars(c: char)
    ensures IsSpace(c) <==> 9 <= c as int <= 13 || c as int == 32
  {
  }

  /** Whatever reads has a 16-byte vault id, a 32-bit leaf, a 32-byte digest and a signature. */
  lemma ReadTyped(line: string)
    ensures ParseLine(line).Some? ==> Typed(ParseLine(line).value) && |ParseLine(line).value.signature| > 0
  {
    hide Split, Trim, HexPairs, ParseU32;
    var parts := Split(Trim(line), ':');
    if |parts| == 4 {
      HexNonEmpty(parts[3]);
      SmallLeaf(parts[1]);
    }
  }

  lemma HexNonEmpty(s: string)
    ensures FromHex(s).Some? ==> |FromHex(s).value| > 0
  {
  }

  lemma SmallLeaf(s: string)
    ensures ParseU32(s).Some? ==> ParseU32(s).value < 0x1_0000_0000
  {
  }
}
