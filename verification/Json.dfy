/** JSON texts (RFC 8259) as the standard library writes and reads them. */
module Json {
  import opened Model
  import UuidText
  import Utf8

  /** A number with a fraction or an exponent is kept as it is written. */
  datatype Value =
    | Null
    | Bool(value: bool)
    | Str(text: string)
    | Num(number: int)
    | Real(literal: string)
    | Arr(items: seq<Value>)
    | Obj(fields: seq<Field>)
  datatype Field = Field(name: string, value: Value)

  // ----- writing ----------------------------------------------------------------------------------

  function Decimal(n: nat): (text: string)
    ensures |text| > 0
  {
    (if n < 10 then "" else Decimal(n / 10)) + [(48 + n % 10) as char]
  }

  /** Characters that are written as they are. The last three excluded ones could be, but are escaped. */
  predicate Plain(c: char) {
    ' ' <= c && c as int < 0x80 && c != '"' && c != '\\' && c != '<' && c != '>' && c != '&'
  }

  function EscapedAscii(c: char): string
    requires c as int < 0x80
  {
    match c
    case '"' => "\\\""
    case '\\' => "\\\\"
    case '\n' => "\\n"
    case '\r' => "\\r"
    case '\t' => "\\t"
    case _ => if Plain(c) then [c] else "\\u00" + [UuidText.HexDigit(c as int / 16), UuidText.HexDigit(c as int % 16)]
  }

  /** The code points U+2028 and U+2029 are escaped; bytes that are not UTF-8 are replaced. */
  function EscapedRune(r: string): string {
    if Utf8.Size(r) == 0 then "\\ufffd"
    else if r == Utf8.Encode(0x2028) then "\\u2028"
    else if r == Utf8.Encode(0x2029) then "\\u2029"
    else r
  }

  /** The first byte, or all bytes of the code point that it begins. */
  function First(s: string): (r: string)
    requires |s| > 0
    ensures |r| > 0 && r <= s
  {
    s[..if Utf8.Size(s) == 0 then 1 else Utf8.Size(s)]
  }

  function Escaped(text: string): string {
    if |text| == 0 then "" else EscapedFirst(text) + Escaped(text[|First(text)|..])
  }

  function EscapedFirst(text: string): string
    requires |text| > 0
  {
    if text[0] as int < 0x80 then EscapedAscii(text[0]) else EscapedRune(First(text))
  }

  function Quoted(text: string): string { "\"" + Escaped(text) + "\"" }

  function Print(v: Value): string {
    match v
    case Null => "null"
    case Bool(value) => if value then "true" else "false"
    case Str(text) => Quoted(text)
    case Num(n) => if n < 0 then "-" + Decimal(-n) else Decimal(n)
    case Real(literal) => literal
    case Arr(items) => "[" + PrintItems(items) + "]"
    case Obj(fields) => "{" + PrintFields(fields) + "}"
  }

  function PrintItems(items: seq<Value>): string {
    if |items| == 0 then ""
    else Print(items[0]) + if |items| == 1 then "" else "," + PrintItems(items[1..])
  }

  function PrintFields(fields: seq<Field>): string {
    if |fields| == 0 then ""
    else PrintField(fields[0]) + if |fields| == 1 then "" else "," + PrintFields(fields[1..])
  }

  function PrintField(f: Field): string { Quoted(f.name) + ":" + Print(f.value) }

  // ----- reading ----------------------------------------------------------------------------------

  predicate Space(c: char) { c == ' ' || c == '\t' || c == '\n' || c == '\r' }

  function Skip(s: string): (rest: string)
    ensures |rest| <= |s|
    ensures |s| > 0 && !Space(s[0]) ==> rest == s
  {
    if |s| > 0 && Space(s[0]) then Skip(s[1..]) else s
  }

  predicate Starts(s: string, c: char) { |s| > 0 && s[0] == c }

  predicate IsDigit(c: char) { '0' <= c <= '9' }

  /** The four digits after `\u`. */
  function ParseUnit(s: string): Option<int> {
    if |s| < 4 then None
    else
      match (UuidText.HexValue(s[0]), UuidText.HexValue(s[1]), UuidText.HexValue(s[2]), UuidText.HexValue(s[3]))
      case (Some(a), Some(b), Some(c), Some(d)) => Some(0x1000 * a + 0x100 * b + 0x10 * c + d)
      case _ => None
  }

  /** What follows `\u`: two surrogates that belong together make one code point, others are replaced. */
  function ParseUnicode(s: string): (r: Option<(string, string)>)
    ensures r.Some? ==> |r.value.1| < |s|
  {
    match ParseUnit(s)
    case None => None
    case Some(a) =>
      var rest := s[4..];
      if Utf8.IsRune(a) then Some((Utf8.Encode(a), rest))
      else if |rest| > 2 && rest[..2] == "\\u" && a < 0xDC00 then
        (match ParseUnit(rest[2..])
         case Some(b) =>
           if 0xDC00 <= b < 0xE000 then Some((Utf8.Encode(0x10000 + 0x400 * (a - 0xD800) + (b - 0xDC00)), rest[6..]))
           else Some((Utf8.REPLACEMENT, rest))
         case None => Some((Utf8.REPLACEMENT, rest)))
      else Some((Utf8.REPLACEMENT, rest))
  }

  /** What follows a backslash. */
  function ParseEscape(s: string): (r: Option<(string, string)>)
    ensures r.Some? ==> |r.value.1| < |s|
  {
    if |s| == 0 then None
    else
      match s[0]
      case '"' => Some(("\"", s[1..]))
      case '\\' => Some(("\\", s[1..]))
      case '/' => Some(("/", s[1..]))
      case 'b' => Some((Utf8.Encode(8), s[1..]))
      case 'f' => Some((Utf8.Encode(12), s[1..]))
      case 'n' => Some(("\n", s[1..]))
      case 'r' => Some(("\r", s[1..]))
      case 't' => Some(("\t", s[1..]))
      case 'u' => ParseUnicode(s[1..])
      case _ => None
  }

  /** One character of a string, or one escape. */
  function ParseChar(s: string): (r: Option<(string, string)>)
    ensures r.Some? ==> |r.value.1| < |s|
  {
    if |s| == 0 || s[0] < ' ' then None
    else if s[0] == '\\' then ParseEscape(s[1..])
    else if Utf8.Size(s) == 0 then Some((Utf8.REPLACEMENT, s[1..]))
    else Some((s[..Utf8.Size(s)], s[Utf8.Size(s)..]))
  }

  /** The rest of a string, after its opening quotation mark. */
  function ParseString(s: string): (r: Option<(string, string)>)
    ensures r.Some? ==> |r.value.1| < |s|
  {
    if Starts(s, '"') then Some(("", s[1..]))
    else
      match ParseChar(s)
      case None => None
      case Some((c, after)) =>
        match ParseString(after)
        case Some((text, rest)) => Some((c + text, rest))
        case None => None
  }

  /** Digits that continue the number `n`. */
  function ParseDigits(s: string, n: int): (r: (int, string))
    ensures |r.1| <= |s|
  {
    if |s| > 0 && IsDigit(s[0]) then ParseDigits(s[1..], 10 * n + (s[0] as int - 48)) else (n, s)
  }

  function ParseNat(s: string): (r: Option<(int, string)>)
    ensures r.Some? ==> |r.value.1| < |s|
  {
    if |s| == 0 || !IsDigit(s[0]) then None
    else if s[0] == '0' && |s| > 1 && IsDigit(s[1]) then None  // no leading zeros
    else Some(ParseDigits(s[1..], s[0] as int - 48))
  }

  /** At least one digit. */
  function SkipDigits(s: string): (r: Option<string>)
    ensures r.Some? ==> |r.value| < |s|
  {
    if |s| == 0 || !IsDigit(s[0]) then None else Some(ParseDigits(s, 0).1)
  }

  function SkipFraction(s: string): (r: Option<string>)
    ensures r.Some? ==> |r.value| <= |s|
  {
    if Starts(s, '.') then SkipDigits(s[1..]) else Some(s)
  }

  function SkipExponent(s: string): (r: Option<string>)
    ensures r.Some? ==> |r.value| <= |s|
  {
    if !Starts(s, 'e') && !Starts(s, 'E') then Some(s)
    else SkipDigits(if Starts(s[1..], '+') || Starts(s[1..], '-') then s[2..] else s[1..])
  }

  function ParseNumber(s: string): (r: Option<(Value, string)>)
    ensures r.Some? ==> |r.value.1| < |s|
  {
    match ParseNat(if Starts(s, '-') then s[1..] else s)
    case None => None
    case Some((n, after)) =>
      match SkipFraction(after)
      case None => None
      case Some(fraction) =>
        match SkipExponent(fraction)
        case None => None
        case Some(rest) =>
          Some((if |rest| < |after| then Real(s[..|s| - |rest|]) else Num(if Starts(s, '-') then -n else n), rest))
  }

  function ParseWord(s: string, word: string, v: Value): (r: Option<(Value, string)>)
    requires |word| > 0
    ensures r.Some? ==> |r.value.1| < |s|
  {
    if word <= s then Some((v, s[|word|..])) else None
  }

  function ParseValue(s: string): (r: Option<(Value, string)>)
    ensures r.Some? ==> |r.value.1| < |s|
    decreases |s|, 0
  {
    var t := Skip(s);
    if |t| == 0 then None
    else if t[0] == '"' then
      match ParseString(t[1..])
      case Some((text, rest)) => Some((Str(text), rest))
      case None => None
    else if t[0] == '[' then
      if Starts(Skip(t[1..]), ']') then Some((Arr([]), Skip(t[1..])[1..]))
      else
        match ParseItems(t[1..])
        case Some((items, rest)) => Some((Arr(items), rest))
        case None => None
    else if t[0] == '{' then
      if Starts(Skip(t[1..]), '}') then Some((Obj([]), Skip(t[1..])[1..]))
      else
        match ParseFields(t[1..])
        case Some((fields, rest)) => Some((Obj(fields), rest))
        case None => None
    else if t[0] == 'n' then ParseWord(t, "null", Null)
    else if t[0] == 't' then ParseWord(t, "true", Bool(true))
    else if t[0] == 'f' then ParseWord(t, "false", Bool(false))
    else ParseNumber(t)
  }

  /** One or more values and the closing bracket. */
  function ParseItems(s: string): (r: Option<(seq<Value>, string)>)
    ensures r.Some? ==> |r.value.1| < |s|
    decreases |s|, 1
  {
    match ParseValue(s)
    case None => None
    case Some((v, after)) =>
      var t := Skip(after);
      if Starts(t, ']') then Some(([v], t[1..]))
      else if !Starts(t, ',') then None
      else
        match ParseItems(t[1..])
        case Some((items, rest)) => Some(([v] + items, rest))
        case None => None
  }

  function ParseField(s: string): (r: Option<(Field, string)>)
    ensures r.Some? ==> |r.value.1| < |s|
    decreases |s|, 1
  {
    if !Starts(Skip(s), '"') then None
    else
      match ParseString(Skip(s)[1..])
      case None => None
      case Some((name, after)) =>
        if !Starts(Skip(after), ':') then None
        else
          match ParseValue(Skip(after)[1..])
          case Some((v, rest)) => Some((Field(name, v), rest))
          case None => None
  }

  /** One or more fields and the closing brace. */
  function ParseFields(s: string): (r: Option<(seq<Field>, string)>)
    ensures r.Some? ==> |r.value.1| < |s|
    decreases |s|, 2
  {
    match ParseField(s)
    case None => None
    case Some((f, after)) =>
      var t := Skip(after);
      if Starts(t, '}') then Some(([f], t[1..]))
      else if !Starts(t, ',') then None
      else
        match ParseFields(t[1..])
        case Some((fields, rest)) => Some(([f] + fields, rest))
        case None => None
  }

  function Parse(s: string): Option<Value> {
    match ParseValue(s)
    case Some((v, rest)) => if Skip(rest) == "" then Some(v) else None
    case None => None
  }

  // ----- reading what was written -----------------------------------------------------------------

  /** The strings of the value are UTF-8 texts, and its numbers whole. */
  predicate Writable(v: Value) {
    match v
    case Str(text) => Utf8.Valid(text)
    case Real(_) => false
    case Arr(items) => forall i | 0 <= i < |items| :: Writable(items[i])
    case Obj(fields) => forall i | 0 <= i < |fields| :: Utf8.Valid(fields[i].name) && Writable(fields[i].value)
    case _ => true
  }

  /** What may follow a value in a text. */
  predicate Ends(rest: string) {
    |rest| > 0 ==> !IsDigit(rest[0]) && rest[0] != '.' && rest[0] != 'e' && rest[0] != 'E'
  }

  lemma UnitRoundTrip(a: int, b: int, tail: string)
    requires 0 <= a < 16 && 0 <= b < 16
    ensures ParseUnit("00" + [UuidText.HexDigit(a), UuidText.HexDigit(b)] + tail) == Some(16 * a + b)
  {
    UuidText.DigitValue(a);
    UuidText.DigitValue(b);
  }

  lemma AsciiRoundTrip(c: char, tail: string)
    requires c as int < 0x80
    ensures ParseChar(EscapedAscii(c) + tail) == Some(([c], tail)) && EscapedAscii(c)[0] != '"'
  {
    var s := EscapedAscii(c) + tail;
    if Plain(c) {
      assert Utf8.Size(s) == 1 && s[1..] == tail;
    } else if |EscapedAscii(c)| == 2 {
      assert s[1..][1..] == tail;
    } else {
      var a, b := c as int / 16, c as int % 16;
      var digits := "00" + [UuidText.HexDigit(a), UuidText.HexDigit(b)] + tail;
      assert s[1..][1..] == digits && digits[4..] == tail;
      UnitRoundTrip(a, b, tail);
    }
  }

  lemma LineEndRoundTrip(r: string, tail: string)
    requires r == Utf8.Encode(0x2028) || r == Utf8.Encode(0x2029)
    ensures ParseChar(EscapedRune(r) + tail) == Some((r, tail)) && EscapedRune(r)[0] != '"'
  {
    var s := EscapedRune(r) + tail;
    assert s[1..][1..][4..] == tail;
    assert ParseUnit(s[1..][1..]) == Some(if r == Utf8.Encode(0x2028) then 0x2028 else 0x2029);
  }

  lemma RuneRoundTrip(text: string, tail: string)
    requires Utf8.Size(text) > 0 && text[0] as int >= 0x80
    ensures ParseChar(EscapedRune(First(text)) + tail) == Some((First(text), tail))
    ensures EscapedRune(First(text))[0] != '"'
  {
    var r := First(text);
    Utf8.SizeOfFirst(text, "");
    Utf8.SizeOfFirst(text, tail);
    assert r + "" == r;
    if r == Utf8.Encode(0x2028) || r == Utf8.Encode(0x2029) {
      LineEndRoundTrip(r, tail);
    } else {
      assert (r + tail)[..|r|] == r && (r + tail)[|r|..] == tail;
    }
  }

  lemma FirstRoundTrip(text: string, tail: string)
    requires Utf8.Size(text) > 0
    ensures
      var s := EscapedFirst(text) + tail;
      |s| > 0 && s[0] != '"' && ParseChar(s) == Some((First(text), tail))
  {
    if text[0] as int < 0x80 {
      AsciiRoundTrip(text[0], tail);
      assert First(text) == [text[0]];
    } else {
      RuneRoundTrip(text, tail);
    }
  }

  lemma CharRead(s: string, c: string, after: string, text: string, rest: string)
    requires |s| > 0 && s[0] != '"' && ParseChar(s) == Some((c, after)) && ParseString(after) == Some((text, rest))
    ensures ParseString(s) == Some((c + text, rest))
  {}

  lemma EndRead(rest: string)
    ensures ParseString("" + ("\"" + rest)) == Some(("", rest))
  {
    assert "" + ("\"" + rest) == "\"" + rest && ("\"" + rest)[1..] == rest;
  }

  lemma Regroup(a: string, b: string, c: string)
    ensures a + b + c == a + (b + c)
  {}

  lemma PrefixAndRest(r: string, s: string)
    requires r <= s
    ensures s == r + s[|r|..]
  {}

  lemma ValidCons(text: string)
    requires |text| > 0 && Utf8.Valid(text)
    ensures Utf8.Size(text) > 0 && Utf8.Valid(text[|First(text)|..]) && text == First(text) + text[|First(text)|..]
  {
    var n := Utf8.Size(text);
    assert n > 0 && Utf8.Valid(text[n..]);
    assert |First(text)| == n;
    PrefixAndRest(First(text), text);
  }

  lemma OneMoreChar(text: string, tail: string, more: string, rest: string)
    requires Utf8.Size(text) > 0 && text == First(text) + more && ParseString(tail) == Some((more, rest))
    ensures ParseString(EscapedFirst(text) + tail) == Some((text, rest))
  {
    FirstRoundTrip(text, tail);
    CharRead(EscapedFirst(text) + tail, First(text), tail, more, rest);
  }

  lemma EscapedCons(text: string, end: string)
    requires |text| > 0
    ensures Escaped(text) + end == EscapedFirst(text) + (Escaped(text[|First(text)|..]) + end)
  {
    Regroup(EscapedFirst(text), Escaped(text[|First(text)|..]), end);
  }

  /** However its characters are written, a text reads back. */
  lemma {:induction false} StringRoundTrip(text: string, rest: string)
    requires Utf8.Valid(text)
    ensures ParseString(Escaped(text) + ("\"" + rest)) == Some((text, rest))
    decreases |text|
  {
    if |text| == 0 {
      EndRead(rest);
    } else {
      var more := text[|First(text)|..];
      ValidCons(text);
      StringRoundTrip(more, rest);
      OneMoreChar(text, Escaped(more) + ("\"" + rest), more, rest);
      EscapedCons(text, "\"" + rest);
    }
  }

  /** The escapes as section 7 of RFC 8259 lists them. */
  lemma EscapeTable(rest: string)
    ensures ParseEscape("\"" + rest) == Some(([0x22 as char], rest))
    ensures ParseEscape("\\" + rest) == Some(([0x5C as char], rest))
    ensures ParseEscape("/" + rest) == Some(([0x2F as char], rest))
    ensures ParseEscape("b" + rest) == Some(([0x08 as char], rest))
    ensures ParseEscape("f" + rest) == Some(([0x0C as char], rest))
    ensures ParseEscape("n" + rest) == Some(([0x0A as char], rest))
    ensures ParseEscape("r" + rest) == Some(([0x0D as char], rest))
    ensures ParseEscape("t" + rest) == Some(([0x09 as char], rest))
  {
    assert ("\"" + rest)[1..] == rest && ("\\" + rest)[1..] == rest && ("/" + rest)[1..] == rest;
    assert ("b" + rest)[1..] == rest && ("f" + rest)[1..] == rest && ("n" + rest)[1..] == rest;
    assert ("r" + rest)[1..] == rest && ("t" + rest)[1..] == rest;
  }

  /** Which characters of ASCII the encoder escapes, and how; it writes all others as they are. */
  lemma WriterTable(c: char)
    requires c as int < 0x80
    ensures EscapedAscii(c) ==
      match c as int
      case 0x22 => "\\\""
      case 0x5C => "\\\\"
      case 0x0A => "\\n"
      case 0x0D => "\\r"
      case 0x09 => "\\t"
      case 0x3C => "\\u003c"
      case 0x3E => "\\u003e"
      case 0x26 => "\\u0026"
      case n =>
        if n < 0x20 then "\\u00" + [if n < 0x10 then '0' else '1', UuidText.LOWER[n % 16]]
        else [c]
  {
    UuidText.DigitTable(c, c as int % 16);
    UuidText.DigitTable(c, c as int / 16);
  }

  // ----- texts that are written as they are -------------------------------------------------------

  predicate AllPlain(s: string) { forall i | 0 <= i < |s| :: Plain(s[i]) }

  lemma {:induction false} PlainIsWritable(s: string)
    requires AllPlain(s)
    ensures Utf8.Valid(s) && Escaped(s) == s
  {
    if |s| > 0 {
      PlainIsWritable(s[1..]);
      assert [s[0]] + s[1..] == s;
    }
  }

  // ----- numbers and the rest ---------------------------------------------------------------------

  predicate AllDigits(s: string) { forall i | 0 <= i < |s| :: IsDigit(s[i]) }

  /** The number `n` continued by digits. */
  function Read(digits: string, n: int): int {
    if |digits| == 0 then n else Read(digits[1..], 10 * n + (digits[0] as int - 48))
  }

  lemma {:induction false} ReadSnoc(digits: string, d: char, n: int)
    ensures Read(digits + [d], n) == 10 * Read(digits, n) + (d as int - 48)
  {
    if |digits| == 0 {
      assert digits + [d] == [d];
      assert Read([d], n) == Read([d][1..], 10 * n + (d as int - 48));
    } else {
      assert (digits + [d])[1..] == digits[1..] + [d];
      ReadSnoc(digits[1..], d, 10 * n + (digits[0] as int - 48));
    }
  }

  /** Numbers are written in decimal digits, the last one being their remainder by ten. */
  lemma DecimalDigits(n: nat)
    ensures n < 10 ==> Decimal(n) == ["0123456789"[n]]
    ensures n >= 10 ==> Decimal(n) == Decimal(n / 10) + ["0123456789"[n % 10]]
  {
    assert "0123456789"[n % 10] == (48 + n % 10) as char;
  }

  lemma {:induction false} DecimalReads(n: nat)
    ensures AllDigits(Decimal(n)) && Read(Decimal(n), 0) == n && (Decimal(n)[0] == '0' ==> n == 0)
  {
    var d := (48 + n % 10) as char;
    if n < 10 {
      assert Decimal(n) == "" + [d];
      ReadSnoc("", d, 0);
    } else {
      DecimalReads(n / 10);
      ReadSnoc(Decimal(n / 10), d, 0);
    }
  }

  lemma {:induction false} DigitsRoundTrip(digits: string, n: int, rest: string)
    requires AllDigits(digits) && Ends(rest)
    ensures ParseDigits(digits + rest, n) == (Read(digits, n), rest)
  {
    if |digits| == 0 {
      assert digits + rest == rest;
    } else {
      assert (digits + rest)[1..] == digits[1..] + rest;
      DigitsRoundTrip(digits[1..], 10 * n + (digits[0] as int - 48), rest);
    }
  }

  lemma NatRoundTrip(n: nat, rest: string)
    requires Ends(rest)
    ensures ParseNat(Decimal(n) + rest) == Some((n, rest)) && IsDigit(Decimal(n)[0])
  {
    DecimalReads(n);
    var s := Decimal(n) + rest;
    DigitsRoundTrip(Decimal(n), 0, rest);
    assert ParseDigits(s, 0) == ParseDigits(s[1..], s[0] as int - 48);
    if s[0] == '0' {
      assert Decimal(n) == "" + [(48 + n % 10) as char];
    }
  }

  lemma NumRead(s: string, n: int, rest: string)
    requires Ends(rest) && ParseNat(if Starts(s, '-') then s[1..] else s) == Some((n, rest))
    ensures ParseNumber(s) == Some((Num(if Starts(s, '-') then -n else n), rest))
  {}

  lemma NumRoundTrip(n: int, rest: string)
    requires Ends(rest)
    ensures ParseNumber(Print(Num(n)) + rest) == Some((Num(n), rest))
  {
    var s := Print(Num(n)) + rest;
    if n < 0 {
      NatRoundTrip(-n, rest);
      assert s == "-" + (Decimal(-n) + rest) && s[1..] == Decimal(-n) + rest;
      NumRead(s, -n, rest);
    } else {
      NatRoundTrip(n, rest);
      assert s[0] == Decimal(n)[0];
      NumRead(s, n, rest);
    }
  }

  lemma NumBegins(n: int)
    ensures Print(Num(n))[0] == '-' || IsDigit(Print(Num(n))[0])
  {
    if n >= 0 {
      DecimalReads(n);
    }
  }

  lemma NumValueRoundTrip(n: int, rest: string)
    requires Ends(rest)
    ensures ParseValue(Print(Num(n)) + rest) == Some((Num(n), rest))
  {
    NumBegins(n);
    NumRoundTrip(n, rest);
    assert (Print(Num(n)) + rest)[0] == Print(Num(n))[0];
  }

  lemma WordRoundTrip(v: Value, rest: string)
    requires v.Null? || v.Bool?
    ensures ParseValue(Print(v) + rest) == Some((v, rest))
  {
    var word := Print(v);
    assert word <= word + rest && (word + rest)[|word|..] == rest;
    assert (word + rest)[0] == word[0];
  }

  lemma StrRoundTrip(text: string, rest: string)
    requires Utf8.Valid(text)
    ensures ParseValue(Quoted(text) + rest) == Some((Str(text), rest))
  {
    var s := Quoted(text) + rest;
    assert s[1..] == Escaped(text) + ("\"" + rest);
    StringRoundTrip(text, rest);
  }

  /** What a value is written as begins with a character of its own. */
  lemma PrintBegins(v: Value)
    requires !v.Real?
    ensures |Print(v)| > 0 && !Space(Print(v)[0]) && Print(v)[0] != ']'
  {
    if v.Num? {
      NumBegins(v.number);
    }
  }

  lemma {:induction false} ValueRoundTrip(v: Value, rest: string)
    requires Writable(v) && Ends(rest)
    ensures ParseValue(Print(v) + rest) == Some((v, rest))
    decreases v, 1
  {
    match v
    case Str(text) => StrRoundTrip(text, rest);
    case Num(n) => NumValueRoundTrip(n, rest);
    case Arr(items) => ArrRoundTrip(v, rest);
    case Obj(fields) => ObjRoundTrip(v, rest);
    case _ => WordRoundTrip(v, rest);
  }

  lemma ArrRead(inner: string, items: seq<Value>, rest: string)
    requires |inner| > 0 && !Space(inner[0]) && inner[0] != ']' && ParseItems(inner) == Some((items, rest))
    ensures ParseValue("[" + inner) == Some((Arr(items), rest))
  {
    assert ("[" + inner)[1..] == inner;
  }

  lemma EmptyArrRead(rest: string)
    ensures ParseValue("[" + ("]" + rest)) == Some((Arr([]), rest))
  {
    assert ("[" + ("]" + rest))[1..] == "]" + rest;
    assert ("]" + rest)[1..] == rest;
  }

  lemma ItemsBegin(items: seq<Value>)
    requires |items| > 0 && !items[0].Real?
    ensures |PrintItems(items)| > 0 && !Space(PrintItems(items)[0]) && PrintItems(items)[0] != ']'
  {
    PrintBegins(items[0]);
    assert PrintItems(items)[0] == Print(items[0])[0];
  }

  lemma {:induction false} ArrRoundTrip(v: Value, rest: string)
    requires v.Arr? && Writable(v)
    ensures ParseValue(Print(v) + rest) == Some((v, rest))
    decreases v, 0
  {
    var items := v.items;
    var inner := PrintItems(items) + ("]" + rest);
    assert Print(v) + rest == "[" + inner;
    if |items| == 0 {
      assert inner == "]" + rest;
      EmptyArrRead(rest);
    } else {
      ItemsBegin(items);
      ItemsRoundTrip(items, rest);
      ArrRead(inner, items, rest);
    }
  }

  lemma {:induction false} ItemsRoundTrip(items: seq<Value>, rest: string)
    requires |items| > 0 && forall i | 0 <= i < |items| :: Writable(items[i])
    ensures ParseItems(PrintItems(items) + ("]" + rest)) == Some((items, rest))
    decreases items
  {
    var s := PrintItems(items) + ("]" + rest);
    if |items| == 1 {
      assert s == Print(items[0]) + ("]" + rest);
      ValueRoundTrip(items[0], "]" + rest);
      assert ("]" + rest)[1..] == rest && items == [items[0]];
    } else {
      var after := "," + (PrintItems(items[1..]) + ("]" + rest));
      assert s == Print(items[0]) + after;
      ValueRoundTrip(items[0], after);
      assert after[1..] == PrintItems(items[1..]) + ("]" + rest);
      ItemsRoundTrip(items[1..], rest);
      assert [items[0]] + items[1..] == items;
    }
  }

  lemma ObjRead(inner: string, fields: seq<Field>, rest: string)
    requires Starts(inner, '"') && ParseFields(inner) == Some((fields, rest))
    ensures ParseValue("{" + inner) == Some((Obj(fields), rest))
  {
    assert ("{" + inner)[1..] == inner;
  }

  lemma EmptyObjRead(rest: string)
    ensures ParseValue("{" + ("}" + rest)) == Some((Obj([]), rest))
  {
    assert ("{" + ("}" + rest))[1..] == "}" + rest;
    assert ("}" + rest)[1..] == rest;
  }

  lemma {:induction false} ObjRoundTrip(v: Value, rest: string)
    requires v.Obj? && Writable(v)
    ensures ParseValue(Print(v) + rest) == Some((v, rest))
    decreases v, 0
  {
    var fields := v.fields;
    var inner := PrintFields(fields) + ("}" + rest);
    assert Print(v) + rest == "{" + inner;
    if |fields| == 0 {
      assert inner == "}" + rest;
      EmptyObjRead(rest);
    } else {
      FieldsBegin(fields);
      FieldsRoundTrip(fields, rest);
      ObjRead(inner, fields, rest);
    }
  }

  lemma FieldsBegin(fields: seq<Field>)
    requires |fields| > 0
    ensures Starts(PrintFields(fields), '"')
  {
    assert PrintField(fields[0])[0] == '"';
  }

  lemma FieldRead(inner: string, name: string, tail: string, v: Value, rest: string)
    requires ParseString(inner) == Some((name, ":" + tail)) && ParseValue(tail) == Some((v, rest))
    ensures ParseField("\"" + inner) == Some((Field(name, v), rest))
  {
    assert ("\"" + inner)[1..] == inner && (":" + tail)[1..] == tail;
  }

  lemma FieldText(name: string, v: string, rest: string)
    ensures "\"" + name + "\"" + ":" + v + rest == "\"" + (name + ("\"" + (":" + (v + rest))))
  {}

  lemma {:induction false} FieldRoundTrip(f: Field, rest: string)
    requires Utf8.Valid(f.name) && ParseValue(Print(f.value) + rest) == Some((f.value, rest))
    ensures ParseField(PrintField(f) + rest) == Some((f, rest))
  {
    var tail := Print(f.value) + rest;
    var inner := Escaped(f.name) + ("\"" + (":" + tail));
    FieldText(Escaped(f.name), Print(f.value), rest);
    StringRoundTrip(f.name, ":" + tail);
    FieldRead(inner, f.name, tail, f.value, rest);
  }

  lemma {:induction false} FieldsRoundTrip(fields: seq<Field>, rest: string)
    requires |fields| > 0 && forall i | 0 <= i < |fields| :: Utf8.Valid(fields[i].name) && Writable(fields[i].value)
    ensures ParseFields(PrintFields(fields) + ("}" + rest)) == Some((fields, rest))
    decreases fields, 1
  {
    if |fields| == 1 {
      LastFieldRoundTrip(fields, rest);
      assert PrintFields(fields) == PrintField(fields[0]) + "" == PrintField(fields[0]);
    } else {
      FieldsRoundTrip(fields[1..], rest);
      MoreFieldsRoundTrip(fields, PrintFields(fields[1..]) + ("}" + rest), rest);
      FieldsText(PrintField(fields[0]), PrintFields(fields[1..]), "}" + rest);
      assert PrintFields(fields) == PrintField(fields[0]) + ("," + PrintFields(fields[1..]));
    }
  }

  lemma {:induction false} LastFieldRoundTrip(fields: seq<Field>, rest: string)
    requires |fields| == 1 && Utf8.Valid(fields[0].name) && Writable(fields[0].value)
    ensures ParseFields(PrintField(fields[0]) + ("}" + rest)) == Some((fields, rest))
    decreases fields, 0
  {
    var f := fields[0];
    ValueRoundTrip(f.value, "}" + rest);
    FieldRoundTrip(f, "}" + rest);
    LastField(PrintField(f) + ("}" + rest), f, rest);
    assert fields == [f];
  }

  lemma {:induction false} MoreFieldsRoundTrip(fields: seq<Field>, more: string, rest: string)
    requires |fields| > 1 && Utf8.Valid(fields[0].name) && Writable(fields[0].value)
    requires ParseFields(more) == Some((fields[1..], rest))
    ensures ParseFields(PrintField(fields[0]) + ("," + more)) == Some((fields, rest))
    decreases fields, 0
  {
    var f := fields[0];
    ValueRoundTrip(f.value, "," + more);
    FieldRoundTrip(f, "," + more);
    MoreFields(PrintField(f) + ("," + more), f, more, fields[1..], rest);
    assert [f] + fields[1..] == fields;
  }

  lemma LastField(s: string, f: Field, rest: string)
    requires ParseField(s) == Some((f, "}" + rest))
    ensures ParseFields(s) == Some(([f], rest))
  {
    assert ("}" + rest)[1..] == rest;
  }

  lemma MoreFields(s: string, f: Field, more: string, fields: seq<Field>, rest: string)
    requires ParseField(s) == Some((f, "," + more)) && ParseFields(more) == Some((fields, rest))
    ensures ParseFields(s) == Some(([f] + fields, rest))
  {
    assert ("," + more)[1..] == more;
  }

  lemma FieldsText(head: string, tail: string, end: string)
    ensures head + ("," + tail) + end == head + ("," + (tail + end))
  {}

  /** Every writable value reads back from its text as it was. */
  lemma RoundTrip(v: Value)
    requires Writable(v)
    ensures Parse(Print(v)) == Some(v)
  {
    ValueRoundTrip(v, "");
    assert Print(v) + "" == Print(v);
  }
}
