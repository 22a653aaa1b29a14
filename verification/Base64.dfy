/** Base64url without padding (section 5 of RFC 4648). */
module Base64 {
  import opened Model

  type sextet = x: int | 0 <= x < 64

  function Digit(n: sextet): char {
    if n < 26 then (65 + n) as char
    else if n < 52 then (71 + n) as char
    else if n < 62 then (n - 4) as char
    else if n == 62 then '-' else '_'
  }

  predicate InAlphabet(c: char) {
    'A' <= c <= 'Z' || 'a' <= c <= 'z' || '0' <= c <= '9' || c == '-' || c == '_'
  }

  function Value(c: char): Option<sextet> {
    if 'A' <= c <= 'Z' then Some(c as int - 65)
    else if 'a' <= c <= 'z' then Some(c as int - 71)
    else if '0' <= c <= '9' then Some(c as int + 4)
    else if c == '-' then Some(62)
    else if c == '_' then Some(63)
    else None
  }

  /** Three bytes make four groups of six bits; one or two bytes at the end make two or three. */
  function Split(b: seq<byte>): seq<sextet> {
    if |b| == 0 then []
    else
      var x := b[0] as int;
      if |b| == 1 then [x / 4, x % 4 * 16]
      else
        var y := b[1] as int;
        if |b| == 2 then [x / 4, x % 4 * 16 + y / 16, y % 16 * 4]
        else
          var z := b[2] as int;
          [x / 4, x % 4 * 16 + y / 16, y % 16 * 4 + z / 64, z % 64] + Split(b[3..])
  }

  function First(p: sextet, q: sextet): byte { (p * 4 + q / 16) as byte }
  function Second(q: sextet, r: sextet): byte { (q % 16 * 16 + r / 4) as byte }
  function Third(r: sextet, u: sextet): byte { (r % 4 * 64 + u) as byte }

  /** Bits that the last group has left over are dropped without being looked at. */
  function Join(s: seq<sextet>): Option<seq<byte>> {
    if |s| == 0 then Some([])
    else if |s| == 1 then None
    else if |s| == 2 then Some([First(s[0], s[1])])
    else if |s| == 3 then Some([First(s[0], s[1]), Second(s[1], s[2])])
    else
      match Join(s[4..])
      case Some(rest) => Some([First(s[0], s[1]), Second(s[1], s[2]), Third(s[2], s[3])] + rest)
      case None => None
  }

  function Digits(s: seq<sextet>): (text: string)
    ensures |text| == |s|
  {
    if |s| == 0 then "" else [Digit(s[0])] + Digits(s[1..])
  }

  /** The decoder skips line breaks and refuses every other character outside the alphabet. */
  function Values(text: string): Option<seq<sextet>> {
    if |text| == 0 then Some([])
    else if text[0] == '\r' || text[0] == '\n' then Values(text[1..])
    else
      match (Value(text[0]), Values(text[1..]))
      case (Some(n), Some(rest)) => Some([n] + rest)
      case _ => None
  }

  function Encode(b: seq<byte>): string { Digits(Split(b)) }

  function Decode(text: string): Option<seq<byte>> {
    match Values(text)
    case Some(s) => Join(s)
    case None => None
  }

  /** The digits as table 2 of section 5 of RFC 4648 lists them. */
  lemma DigitTable(n: sextet)
    ensures n < 26 ==> Digit(n) == "ABCDEFGHIJKLMNOPQRSTUVWXYZ"[n]
    ensures 26 <= n < 52 ==> Digit(n) == "abcdefghijklmnopqrstuvwxyz"[n - 26]
    ensures 52 <= n ==> Digit(n) == "0123456789-_"[n - 52]
  {}

  /** Three bytes are the four groups of six bits that they make when they are written one after the
      other; at the end, zero bits fill the last group. */
  lemma SplitBits(b: seq<byte>)
    requires |b| > 0
    ensures
      var g := Split(b);
      if |b| == 1 then |g| == 2 && g[0] as int * 64 + g[1] as int == b[0] as int * 16
      else if |b| == 2 then
        |g| == 3 && g[0] as int * 4096 + g[1] as int * 64 + g[2] as int == (b[0] as int * 256 + b[1] as int) * 4
      else
        && |g| >= 4 && g[4..] == Split(b[3..])
        && g[0] as int * 262_144 + g[1] as int * 4096 + g[2] as int * 64 + g[3] as int
             == b[0] as int * 65_536 + b[1] as int * 256 + b[2] as int
  {}

  lemma ValueTable(c: char, n: sextet)
    ensures Value(c) == Some(n) <==> c == Digit(n)
  {}

  lemma DigitValue(n: sextet)
    ensures Value(Digit(n)) == Some(n) && InAlphabet(Digit(n))
  {}

  lemma {:induction false} ValuesOfDigits(s: seq<sextet>)
    ensures Values(Digits(s)) == Some(s)
  {
    if |s| > 0 {
      DigitValue(s[0]);
      ValuesOfDigits(s[1..]);
      assert Digits(s)[1..] == Digits(s[1..]);
      assert [s[0]] + s[1..] == s;
    }
  }

  lemma {:induction false} DigitsArePlain(s: seq<sextet>)
    ensures forall i | 0 <= i < |Digits(s)| :: InAlphabet(Digits(s)[i])
  {
    if |s| > 0 {
      DigitValue(s[0]);
      DigitsArePlain(s[1..]);
    }
  }

  // ----- what is read -----------------------------------------------------------------------------

  function WithoutBreaks(text: string): string {
    if |text| == 0 then ""
    else (if text[0] == '\r' || text[0] == '\n' then "" else [text[0]]) + WithoutBreaks(text[1..])
  }

  lemma {:induction false} ValuesIff(text: string, s: seq<sextet>)
    ensures Values(text) == Some(s) <==> WithoutBreaks(text) == Digits(s)
    decreases |text|
  {
    if |text| > 0 {
      if text[0] == '\r' || text[0] == '\n' {
        ValuesIff(text[1..], s);
        assert WithoutBreaks(text) == WithoutBreaks(text[1..]);
      } else if |s| > 0 {
        ValuesIff(text[1..], s[1..]);
        ValueTable(text[0], s[0]);
        assert s == [s[0]] + s[1..];
        assert WithoutBreaks(text)[1..] == WithoutBreaks(text[1..]) && Digits(s)[1..] == Digits(s[1..]);
      }
    }
  }

  /** How many values the bits left over in the last group can have, after `n` bytes. */
  function Leftover(n: nat): int {
    if n % 3 == 1 then 16 else if n % 3 == 2 then 4 else 1
  }

  /** The same groups, except that the last ones agree only up to bits that make `k` values. */
  predicate Agree(s: seq<sextet>, g: seq<sextet>, k: int)
    requires k > 0
  {
    && |s| == |g|
    && (forall i | 0 <= i < |g| - 1 :: s[i] == g[i])
    && (|g| > 0 ==> s[|g| - 1] as int / k == g[|g| - 1] as int / k)
  }

  /** The groups are those of the bytes, up to the bits that the last one has left over. */
  predicate Fits(s: seq<sextet>, b: seq<byte>) {
    Agree(s, Split(b), Leftover(|b|))
  }

  lemma AgreeRest(s: seq<sextet>, g: seq<sextet>, k: int, i: nat)
    requires k > 0 && |s| == |g| && i < |g|
    ensures Agree(s, g, k) <==> s[..i] == g[..i] && Agree(s[i..], g[i..], k)
  {
    if s[..i] == g[..i] && Agree(s[i..], g[i..], k) {
      forall j | 0 <= j < |g| - 1
        ensures s[j] == g[j]
      {
        if j < i {
          assert s[..i][j] == g[..i][j];
        } else {
          assert s[i..][j - i] == g[i..][j - i];
        }
      }
    }
  }

  lemma AgreeAll(s: seq<sextet>, g: seq<sextet>)
    ensures Agree(s, g, 1) <==> s == g
  {}

  lemma ByFour(n: int, q: int, r: int)
    requires 0 <= r < 4
    ensures n == 4 * q + r <==> n / 4 == q && n % 4 == r
  {}

  lemma BySixteen(n: int, q: int, r: int)
    requires 0 <= r < 16
    ensures n == 16 * q + r <==> n / 16 == q && n % 16 == r
  {}

  lemma BySixtyFour(n: int, q: int, r: int)
    requires 0 <= r < 64
    ensures n == 64 * q + r <==> n / 64 == q && n % 64 == r
  {}

  lemma FirstIff(p: sextet, q: sextet, x: byte)
    ensures First(p, q) == x <==> x as int / 4 == p as int && x as int % 4 == q as int / 16
  {
    ByFour(x as int, p as int, q as int / 16);
  }

  lemma SecondIff(q: sextet, r: sextet, y: byte)
    ensures Second(q, r) == y <==> y as int / 16 == q as int % 16 && y as int % 16 == r as int / 4
  {
    BySixteen(y as int, q as int % 16, r as int / 4);
  }

  lemma ThirdIff(r: sextet, u: sextet, z: byte)
    ensures Third(r, u) == z <==> z as int / 64 == r as int % 4 && z as int % 64 == u as int
  {
    BySixtyFour(z as int, r as int % 4, u as int);
  }

  lemma TwoBytes(p: sextet, q: sextet, r: sextet, x: byte, y: byte)
    ensures First(p, q) == x && Second(q, r) == y <==>
      p == x as int / 4 && q == x as int % 4 * 16 + y as int / 16 && r as int / 4 == y as int % 16
  {
    FirstIff(p, q, x);
    SecondIff(q, r, y);
    BySixteen(q as int, x as int % 4, y as int / 16);
  }

  lemma ThreeBytes(p: sextet, q: sextet, r: sextet, u: sextet, x: byte, y: byte, z: byte)
    ensures First(p, q) == x && Second(q, r) == y && Third(r, u) == z <==>
      && p == x as int / 4 && q == x as int % 4 * 16 + y as int / 16
      && r == y as int % 16 * 4 + z as int / 64 && u == z as int % 64
  {
    TwoBytes(p, q, r, x, y);
    ThirdIff(r, u, z);
    ByFour(r as int, y as int % 16, z as int / 64);
  }

  lemma JoinFew(s: seq<sextet>, b: seq<byte>)
    requires |s| < 4 && |b| < 3
    ensures Join(s) == Some(b) <==> Fits(s, b)
  {
    if |b| == 1 && |s| == 2 {
      FirstIff(s[0], s[1], b[0]);
      ByFour(b[0] as int, s[0] as int, s[1] as int / 16);
      assert b == [b[0]];
    } else if |b| == 2 && |s| == 3 {
      TwoBytes(s[0], s[1], s[2], b[0], b[1]);
      assert b == [b[0], b[1]];
    }
  }

  lemma JoinCons(s: seq<sextet>, b: seq<byte>)
    requires |s| >= 4 && |b| >= 3
    ensures Join(s) == Some(b) <==>
      && First(s[0], s[1]) == b[0] && Second(s[1], s[2]) == b[1] && Third(s[2], s[3]) == b[2]
      && Join(s[4..]) == Some(b[3..])
  {
    assert b == [b[0], b[1], b[2]] + b[3..];
  }

  lemma SplitCons(b: seq<byte>)
    requires |b| >= 3
    ensures
      var g, x, y, z := Split(b), b[0] as int, b[1] as int, b[2] as int;
      && |g| >= 4 && g[4..] == Split(b[3..])
      && g[0] == x / 4 && g[1] == x % 4 * 16 + y / 16 && g[2] == y % 16 * 4 + z / 64 && g[3] == z % 64
  {}

  lemma FirstFour(s: seq<sextet>, g: seq<sextet>)
    requires |s| >= 4 && |g| >= 4
    ensures s[..4] == g[..4] <==> s[0] == g[0] && s[1] == g[1] && s[2] == g[2] && s[3] == g[3]
  {
    assert s[..4] == [s[0], s[1], s[2], s[3]] && g[..4] == [g[0], g[1], g[2], g[3]];
  }

  lemma AgreeFour(s: seq<sextet>, g: seq<sextet>, n: nat)
    requires |s| >= 4 && |g| >= 4 && n >= 3 && (|g| == 4 <==> n == 3)
    ensures Agree(s, g, Leftover(n)) <==> s[..4] == g[..4] && Agree(s[4..], g[4..], Leftover(n - 3))
  {
    if |s| == |g| {
      if n == 3 {
        AgreeAll(s, g);
        assert s == s[..4] && g == g[..4];
      } else {
        AgreeRest(s, g, Leftover(n), 4);
      }
    }
  }

  lemma SplitEmpty(b: seq<byte>)
    ensures |Split(b)| == 0 <==> |b| == 0
  {}

  lemma JoinFour(s: seq<sextet>, b: seq<byte>)
    requires |s| >= 4 && |b| >= 3 && (Join(s[4..]) == Some(b[3..]) <==> Fits(s[4..], b[3..]))
    ensures Join(s) == Some(b) <==> Fits(s, b)
  {
    ThreeBytes(s[0], s[1], s[2], s[3], b[0], b[1], b[2]);
    JoinCons(s, b);
    SplitCons(b);
    SplitEmpty(b[3..]);
    FirstFour(s, Split(b));
    AgreeFour(s, Split(b), |b|);
  }

  lemma {:induction false} JoinIff(s: seq<sextet>, b: seq<byte>)
    ensures Join(s) == Some(b) <==> Fits(s, b)
    decreases |s|
  {
    if |s| >= 4 && |b| >= 3 {
      JoinIff(s[4..], b[3..]);
      JoinFour(s, b);
    } else if |s| < 4 && |b| < 3 {
      JoinFew(s, b);
    }
  }

  /** Exactly what is decoded to which bytes: without its line breaks, the digits of groups that fit. */
  lemma DecodeIff(text: string, b: seq<byte>)
    ensures Decode(text) == Some(b) <==> exists s :: WithoutBreaks(text) == Digits(s) && Fits(s, b)
  {
    if Values(text).Some? {
      ValuesIff(text, Values(text).value);
      JoinIff(Values(text).value, b);
    }
    forall s | WithoutBreaks(text) == Digits(s)
      ensures Values(text) == Some(s)
    {
      ValuesIff(text, s);
    }
  }

  /** Decoding gives back what was encoded. */
  lemma RoundTrip(b: seq<byte>)
    ensures Decode(Encode(b)) == Some(b)
  {
    ValuesOfDigits(Split(b));
    JoinIff(Split(b), b);
  }

  /** The encoder writes digits only: no '.', no line break. */
  lemma EncodeIsPlain(b: seq<byte>)
    ensures forall i | 0 <= i < |Encode(b)| :: InAlphabet(Encode(b)[i])
  {
    DigitsArePlain(Split(b));
  }
}
