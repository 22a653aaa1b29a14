/** UTF-8 (RFC 3629). Here, in `Json` and in `Tokens`, a character of a string stands for one byte. */
module Utf8 {
  predicate Between(c: char, low: int, high: int) { low <= c as int <= high }

  predicate Continues(s: string, from: nat, n: nat) {
    from + n <= |s| && forall i | from <= i < from + n :: Between(s[i], 0x80, 0xBF)
  }

  /** The second byte is restricted after some first bytes, so that every code point has one form
      and surrogates have none. */
  predicate SecondFits(first: char, second: char) {
    match first as int
    case 0xE0 => Between(second, 0xA0, 0xBF)
    case 0xED => Between(second, 0x80, 0x9F)
    case 0xF0 => Between(second, 0x90, 0xBF)
    case 0xF4 => Between(second, 0x80, 0x8F)
    case _ => Between(second, 0x80, 0xBF)
  }

  /** The number of bytes of the code point that a text begins with; 0 if its first byte does not
      begin one. */
  function Size(s: string): (n: nat)
    ensures n <= |s| && n <= 4
  {
    if |s| == 0 then 0
    else if s[0] as int < 0x80 then 1
    else if Between(s[0], 0xC2, 0xDF) && Continues(s, 1, 1) then 2
    else if Between(s[0], 0xE0, 0xEF) && Continues(s, 1, 2) && SecondFits(s[0], s[1]) then 3
    else if Between(s[0], 0xF0, 0xF4) && Continues(s, 1, 3) && SecondFits(s[0], s[1]) then 4
    else 0
  }

  predicate Valid(s: string) {
    |s| > 0 ==> Size(s) > 0 && Valid(s[Size(s)..])
  }

  /** Only the bytes of a code point say where it ends. */
  lemma SizeOfFirst(s: string, tail: string)
    requires Size(s) > 0
    ensures Size(s[..Size(s)] + tail) == Size(s)
  {
    var n := Size(s);
    var t := s[..n] + tail;
    assert forall i | 0 <= i < n :: t[i] == s[i];
  }

  // ----- code points ------------------------------------------------------------------------------

  predicate Surrogate(r: int) { 0xD800 <= r < 0xE000 }

  predicate IsRune(r: int) { 0 <= r <= 0x10FFFF && !Surrogate(r) }

  function Encode(r: int): (s: string)
    requires IsRune(r)
    ensures |s| > 0 && Size(s) == |s|
  {
    if r < 0x80 then [r as char]
    else if r < 0x800 then [(0xC0 + r / 0x40) as char, (0x80 + r % 0x40) as char]
    else if r < 0x10000 then [(0xE0 + r / 0x1000) as char, (0x80 + r / 0x40 % 0x40) as char, (0x80 + r % 0x40) as char]
    else
      [(0xF0 + r / 0x40000) as char, (0x80 + r / 0x1000 % 0x40) as char, (0x80 + r / 0x40 % 0x40) as char,
       (0x80 + r % 0x40) as char]
  }

  lemma SixBits(r: int)
    requires r >= 0
    ensures r == r / 0x40 * 0x40 + r % 0x40 && r / 0x40 / 0x40 == r / 0x1000 && r / 0x1000 / 0x40 == r / 0x40000
  {}

  /** The code point that bytes make up: the first one gives what is left of it after `mark`, each of the
      others six bits (section 3 of RFC 3629). */
  function Carried(s: string, mark: int): int
    requires |s| > 0
  {
    if |s| == 1 then s[0] as int - mark
    else Carried(s[..|s| - 1], mark) * 64 + (s[|s| - 1] as int - 0x80)
  }

  lemma CarriedTwo(s: string, mark: int)
    requires |s| == 2
    ensures Carried(s, mark) == (s[0] as int - mark) * 64 + (s[1] as int - 0x80)
  {
    assert s[..1] == [s[0]];
  }

  lemma EncodeBits(r: int)
    requires IsRune(r)
    ensures Carried(Encode(r), match |Encode(r)| case 1 => 0 case 2 => 0xC0 case 3 => 0xE0 case _ => 0xF0) == r
    ensures |Encode(r)| == if r < 0x80 then 1 else if r < 0x800 then 2 else if r < 0x1_0000 then 3 else 4
  {
    var s := Encode(r);
    SixBits(r);
    SixBits(r / 0x40);
    SixBits(r / 0x1000);
    if |s| == 2 {
      assert s[..1] == [s[0]];
    } else if |s| == 3 {
      CarriedTwo(s[..2], 0xE0);
    } else if |s| == 4 {
      assert s[..3][..2] == s[..2];
      CarriedTwo(s[..2], 0xF0);
    }
  }

  const REPLACEMENT: string := Encode(0xFFFD)
}
