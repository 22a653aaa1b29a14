/** The text form of a UUID (section 4 of RFC 9562): 32 hexadecimal digits in five groups. */
module UuidText {
  import opened Model

  function HexDigit(n: int): char
    requires 0 <= n < 16
  {
    if n < 10 then (48 + n) as char else (87 + n) as char
  }

  /** Digits are written in lower case and read in either case. */
  function HexValue(c: char): Option<int> {
    if '0' <= c <= '9' then Some(c as int - 48)
    else if 'a' <= c <= 'f' then Some(c as int - 87)
    else if 'A' <= c <= 'F' then Some(c as int - 55)
    else None
  }

  function Hex(bytes: seq<byte>): (text: string)
    ensures |text| == 2 * |bytes|
  {
    if |bytes| == 0 then ""
    else [HexDigit(bytes[0] as int / 16), HexDigit(bytes[0] as int % 16)] + Hex(bytes[1..])
  }

  function ParseHex(text: string): (r: Option<seq<byte>>)
    ensures r.Some? ==> 2 * |r.value| == |text|
  {
    if |text| == 0 then Some([])
    else if |text| == 1 then None
    else
      match (HexValue(text[0]), HexValue(text[1]), ParseHex(text[2..]))
      case (Some(hi), Some(lo), Some(rest)) => Some([(16 * hi + lo) as byte] + rest)
      case _ => None
  }

  lemma DigitValue(n: int)
    requires 0 <= n < 16
    ensures HexValue(HexDigit(n)) == Some(n)
  {}

  const LOWER := "0123456789abcdef"
  const UPPER := "0123456789ABCDEF"

  /** The digits as section 8 of RFC 4648 lists them, which are read in either case. */
  lemma DigitTable(c: char, n: int)
    ensures 0 <= n < 16 ==> HexDigit(n) == LOWER[n]
    ensures HexValue(c) == Some(n) <==> 0 <= n < 16 && (c == LOWER[n] || c == UPPER[n])
  {
    if 0 <= n < 16 {
      assert LOWER[n] == if n < 10 then (48 + n) as char else (87 + n) as char;
      assert UPPER[n] == if n < 10 then (48 + n) as char else (55 + n) as char;
    }
  }

  /** Each byte is written as its two digits, the higher one first. */
  lemma {:induction false} HexAt(bytes: seq<byte>, i: nat)
    requires i < |bytes|
    ensures Hex(bytes)[2 * i] == LOWER[bytes[i] as int / 16] && Hex(bytes)[2 * i + 1] == LOWER[bytes[i] as int % 16]
    decreases |bytes|
  {
    if i == 0 {
      DigitTable('0', bytes[0] as int / 16);
      DigitTable('0', bytes[0] as int % 16);
    } else {
      HexAt(bytes[1..], i - 1);
    }
  }

  lemma {:induction false} HexRoundTrip(bytes: seq<byte>)
    ensures ParseHex(Hex(bytes)) == Some(bytes)
  {
    if |bytes| > 0 {
      var n := bytes[0] as int;
      assert Hex(bytes)[2..] == Hex(bytes[1..]);
      assert 16 * (n / 16) + n % 16 == n;
      DigitValue(n / 16);
      DigitValue(n % 16);
      HexRoundTrip(bytes[1..]);
      assert [bytes[0]] + bytes[1..] == bytes;
    }
  }

  function Text(u: Uuid): (text: string)
    ensures |text| == 36
  {
    Hex(u.bytes[0..4]) + "-" + Hex(u.bytes[4..6]) + "-" + Hex(u.bytes[6..8]) + "-" + Hex(u.bytes[8..10]) + "-"
      + Hex(u.bytes[10..16])
  }

  /** The digits of a UUID text, its hyphens dropped. */
  function Digits(text: string): string
    requires |text| == 36
  {
    text[0..8] + text[9..13] + text[14..18] + text[19..23] + text[24..36]
  }

  function ParseGroups(text: string): Option<Uuid>
    requires |text| == 36
  {
    if text[8] != '-' || text[13] != '-' || text[18] != '-' || text[23] != '-' then None else ParseDigits(Digits(text))
  }

  function ParseDigits(digits: string): Option<Uuid>
    requires |digits| == 32
  {
    match ParseHex(digits)
    case Some(bytes) => Some(RawUuid(bytes))
    case None => None
  }

  predicate IsUrnPrefix(s: string) {
    var lower, upper := "urn:uuid:", "URN:UUID:";
    |s| == 9 && forall i | 0 <= i < 9 :: s[i] == lower[i] || s[i] == upper[i]
  }

  /** Besides the usual form, the library reads a UUID with a URN prefix, between two characters that
      it takes for braces, and as its digits only. */
  function Parse(text: string): (r: Option<Uuid>) {
    if |text| == 36 then ParseGroups(text)
    else if |text| == 45 then if IsUrnPrefix(text[..9]) then ParseGroups(text[9..]) else None
    else if |text| == 38 then ParseGroups(text[1..37])
    else if |text| == 32 then ParseDigits(text)
    else None
  }

  lemma HexAppend(a: seq<byte>, b: seq<byte>)
    ensures Hex(a + b) == Hex(a) + Hex(b)
  {
    if |a| == 0 {
      assert a + b == b;
    } else {
      assert (a + b)[1..] == a[1..] + b;
      HexAppend(a[1..], b);
    }
  }

  lemma TextDigits(u: Uuid)
    ensures Digits(Text(u)) == Hex(u.bytes)
  {
    var b := u.bytes;
    var t := Text(u);
    assert t[0..8] == Hex(b[0..4]) && t[9..13] == Hex(b[4..6]) && t[14..18] == Hex(b[6..8]);
    assert t[19..23] == Hex(b[8..10]) && t[24..36] == Hex(b[10..16]);
    HexAppend(b[0..4], b[4..6]);
    HexAppend(b[0..4] + b[4..6], b[6..8]);
    HexAppend(b[0..4] + b[4..6] + b[6..8], b[8..10]);
    HexAppend(b[0..4] + b[4..6] + b[6..8] + b[8..10], b[10..16]);
    assert b[0..4] + b[4..6] + b[6..8] + b[8..10] + b[10..16] == b;
  }

  /** Where byte `i` of a UUID is written: after 4, 6, 8 and 10 bytes there is a hyphen. */
  function Offset(i: nat): nat {
    2 * i + if i < 4 then 0 else if i < 6 then 1 else if i < 8 then 2 else if i < 10 then 3 else 4
  }

  lemma OffsetDigit(text: string, i: nat)
    requires |text| == 36 && i < 16
    ensures |Digits(text)| == 32 && Offset(i) + 1 < 36
    ensures Digits(text)[2 * i] == text[Offset(i)] && Digits(text)[2 * i + 1] == text[Offset(i) + 1]
  {}

  /** The text of a UUID, character by character. */
  lemma TextLayout(u: Uuid)
    ensures Text(u)[8] == Text(u)[13] == Text(u)[18] == Text(u)[23] == '-'
    ensures forall i | 0 <= i < 16 ::
      && Offset(i) + 1 < 36 && Text(u)[Offset(i)] == LOWER[u.bytes[i] as int / 16]
      && Text(u)[Offset(i) + 1] == LOWER[u.bytes[i] as int % 16]
  {
    TextDigits(u);
    forall i | 0 <= i < 16
      ensures Offset(i) + 1 < 36
      ensures Text(u)[Offset(i)] == LOWER[u.bytes[i] as int / 16]
      ensures Text(u)[Offset(i) + 1] == LOWER[u.bytes[i] as int % 16]
    {
      OffsetDigit(Text(u), i);
      HexAt(u.bytes, i);
    }
  }

  /** The text of a UUID reads back as that UUID. */
  lemma RoundTrip(u: Uuid)
    ensures Parse(Text(u)) == Some(u)
  {
    TextDigits(u);
    HexRoundTrip(u.bytes);
  }

  /** So do its other forms. */
  lemma OtherForms(u: Uuid, open: char, close: char)
    ensures Parse("urn:uuid:" + Text(u)) == Parse([open] + Text(u) + [close]) == Parse(Hex(u.bytes)) == Some(u)
  {
    RoundTrip(u);
    HexRoundTrip(u.bytes);
    var urn, braced := "urn:uuid:" + Text(u), [open] + Text(u) + [close];
    assert urn[..9] == "urn:uuid:" && urn[9..] == Text(u) && braced[1..37] == Text(u);
  }

  // ----- what is read -----------------------------------------------------------------------------

  /** The same digits, in either case. */
  predicate AnyCase(text: string, digits: string) {
    && |text| == |digits|
    && forall i | 0 <= i < |text| :: HexValue(text[i]).Some? && HexValue(text[i]) == HexValue(digits[i])
  }

  lemma {:induction false} ParseHexIff(text: string, bytes: seq<byte>)
    ensures ParseHex(text) == Some(bytes) <==> AnyCase(text, Hex(bytes))
  {
    if |text| < 2 || |bytes| == 0 {
    } else {
      ParseHexIff(text[2..], bytes[1..]);
      FirstByte(text, bytes);
      var h := Hex(bytes);
      assert h[2..] == Hex(bytes[1..]);
      if AnyCase(text, h) {
        forall i | 0 <= i < |text| - 2
          ensures HexValue(text[2..][i]).Some? && HexValue(text[2..][i]) == HexValue(h[2..][i])
        {
          assert text[2..][i] == text[i + 2] && h[2..][i] == h[i + 2];
        }
        assert [bytes[0]] + bytes[1..] == bytes;
      }
      if ParseHex(text) == Some(bytes) {
        forall i | 0 <= i < |text|
          ensures HexValue(text[i]).Some? && HexValue(text[i]) == HexValue(h[i])
        {
          if i >= 2 {
            assert text[i] == text[2..][i - 2] && h[i] == h[2..][i - 2];
          }
        }
      }
    }
  }

  lemma FirstByte(text: string, bytes: seq<byte>)
    requires |text| >= 2 && |bytes| > 0
    ensures HexValue(Hex(bytes)[0]) == Some(bytes[0] as int / 16)
    ensures HexValue(Hex(bytes)[1]) == Some(bytes[0] as int % 16)
    ensures ParseHex(text).Some? ==>
      && HexValue(text[0]).Some? && HexValue(text[1]).Some? && ParseHex(text[2..]).Some?
      && ParseHex(text).value[0] as int == 16 * HexValue(text[0]).value + HexValue(text[1]).value
      && ParseHex(text).value[1..] == ParseHex(text[2..]).value
  {
    DigitValue(bytes[0] as int / 16);
    DigitValue(bytes[0] as int % 16);
  }

  /** Exactly which texts are read as which UUID: its 32 digits in either case, in groups with hyphens
      between them or not, the groups alone, behind a URN prefix, or between any two characters. */
  lemma ParseIff(text: string, u: Uuid)
    ensures Parse(text) == Some(u) <==>
      || (|text| == 32 && AnyCase(text, Hex(u.bytes)))
      || (|text| == 36 && Grouped(text, u))
      || (|text| == 38 && Grouped(text[1..37], u))
      || (|text| == 45 && IsUrnPrefix(text[..9]) && Grouped(text[9..], u))
  {
    if |text| == 32 {
      ParseHexIff(text, u.bytes);
    } else if |text| == 36 {
      ParseHexIff(Digits(text), u.bytes);
    } else if |text| == 38 {
      ParseHexIff(Digits(text[1..37]), u.bytes);
    } else if |text| == 45 {
      ParseHexIff(Digits(text[9..]), u.bytes);
    }
  }

  predicate Grouped(text: string, u: Uuid)
    requires |text| == 36
  {
    text[8] == text[13] == text[18] == text[23] == '-' && AnyCase(Digits(text), Hex(u.bytes))
  }

  lemma TextInjective(u: Uuid, v: Uuid)
    requires Text(u) == Text(v)
    ensures u == v
  {
    RoundTrip(u);
    RoundTrip(v);
  }

  predicate HexOrHyphen(c: char) {
    '0' <= c <= '9' || 'a' <= c <= 'f' || c == '-'
  }

  lemma {:induction false} HexIsPlain(bytes: seq<byte>)
    ensures forall i | 0 <= i < |Hex(bytes)| :: HexOrHyphen(Hex(bytes)[i])
  {
    if |bytes| > 0 {
      HexIsPlain(bytes[1..]);
    }
  }

  /** A UUID text has no character that separates the parts of a key, a token or a JSON text. */
  lemma TextIsPlain(u: Uuid)
    ensures forall i | 0 <= i < |Text(u)| :: HexOrHyphen(Text(u)[i])
  {
    HexIsPlain(u.bytes[0..4]);
    HexIsPlain(u.bytes[4..6]);
    HexIsPlain(u.bytes[6..8]);
    HexIsPlain(u.bytes[8..10]);
    HexIsPlain(u.bytes[10..16]);
  }
}
