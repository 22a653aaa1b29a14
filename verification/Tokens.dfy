/** Tokens in compact form (section 7.1 of RFC 7515): header, claims and signature, each in
    base64url, separated by dots. The signature algorithm is a parameter. */
module Tokens {
  import opened Model
  import Base64
  import Json
  import Utf8
  import UuidText

  datatype Error = ServiceUnavailable | InvalidToken

  datatype Result<+T> = Ok(value: T) | Err(error: Error)

  datatype Claims = Claims(agent: Uuid, tenant: Uuid, issuedAt: int64, expiresAt: int64)

  /** The service's secret, and the function that signs a text with it. */
  datatype Service = Service(secret: seq<byte>, mac: (seq<byte>, string) -> seq<byte>) {
    function Sign(input: string): string { Base64.Encode(mac(secret, input)) }
  }

  const LIFETIME := 24 * 60 * 60

  const TWO_TO_THE_63 := 0x8000_0000_0000_0000

  /** Times are counted in seconds by 64-bit integers, which wrap around. */
  type int64 = x: int | -TWO_TO_THE_63 <= x < TWO_TO_THE_63

  function Wrapped(n: int): int64 {
    (n + TWO_TO_THE_63) % (2 * TWO_TO_THE_63) - TWO_TO_THE_63
  }

  // ----- texts and bytes --------------------------------------------------------------------------

  predicate Narrow(s: string) { forall i | 0 <= i < |s| :: s[i] as int < 256 }

  function Bytes(s: string): seq<byte>
    requires Narrow(s)
  {
    seq(|s|, i requires 0 <= i < |s| => s[i] as int as byte)
  }

  function TextOf(b: seq<byte>): string {
    seq(|b|, i requires 0 <= i < |b| => b[i] as int as char)
  }

  lemma TextOfBytes(s: string)
    requires Narrow(s)
    ensures TextOf(Bytes(s)) == s
  {}

  // ----- splitting at dots ------------------------------------------------------------------------

  function Split(s: string): (parts: seq<string>)
    ensures |parts| > 0
  {
    if |s| == 0 then [""]
    else
      var rest := Split(s[1..]);
      if s[0] == '.' then [""] + rest else [[s[0]] + rest[0]] + rest[1..]
  }

  predicate NoDot(s: string) { forall i | 0 <= i < |s| :: s[i] != '.' }

  lemma {:induction false} SplitOne(a: string)
    requires NoDot(a)
    ensures Split(a) == [a]
  {
    if |a| > 0 {
      SplitOne(a[1..]);
      assert [a[0]] + a[1..] == a;
    }
  }

  lemma {:induction false} SplitFirst(a: string, b: string)
    requires NoDot(a)
    ensures Split(a + "." + b) == [a] + Split(b)
  {
    var s := a + "." + b;
    if |a| == 0 {
      assert s[1..] == b;
    } else {
      assert s[1..] == a[1..] + "." + b;
      SplitFirst(a[1..], b);
      assert [a[0]] + a[1..] == a;
    }
  }

  function Join(parts: seq<string>): string
    requires |parts| > 0
  {
    if |parts| == 1 then parts[0] else parts[0] + "." + Join(parts[1..])
  }

  /** Splitting loses nothing. */
  lemma {:induction false} JoinOfSplit(s: string)
    ensures Join(Split(s)) == s
  {
    if |s| > 0 {
      var rest := Split(s[1..]);
      JoinOfSplit(s[1..]);
      if s[0] == '.' {
        assert ([""] + rest)[1..] == rest;
        assert "" + "." + s[1..] == s;
      } else {
        assert [s[0]] + s[1..] == s;
        var parts := [[s[0]] + rest[0]] + rest[1..];
        if |rest| > 1 {
          assert parts[1..] == rest[1..];
          assert [s[0]] + rest[0] + "." + Join(rest[1..]) == [s[0]] + (rest[0] + "." + Join(rest[1..]));
        }
      }
    }
  }

  // ----- reading the fields of an object ----------------------------------------------------------

  const LONG_S: string := Utf8.Encode(0x17F)
  const KELVIN: string := Utf8.Encode(0x212A)

  /** A field name without regard to case. Two code points outside ASCII stand for letters of it. */
  function Folded(name: string): string {
    if |name| == 0 then ""
    else if LONG_S <= name then "s" + Folded(name[2..])
    else if KELVIN <= name then "k" + Folded(name[3..])
    else [if 'A' <= name[0] <= 'Z' then (name[0] as int + 32) as char else name[0]] + Folded(name[1..])
  }

  /** Decoding an object into a string of a struct: the last field of that name counts, none gives
      the empty string, null changes nothing, and any other value is an error. */
  function StringField(fields: seq<Json.Field>, name: string): Option<string> {
    if |fields| == 0 then Some("")
    else
      var before, f := StringField(fields[..|fields| - 1], name), fields[|fields| - 1];
      if before.None? || Folded(f.name) != name || f.value.Null? then before
      else if f.value.Str? then Some(f.value.text)
      else None
  }

  /** Into a 64-bit integer: a number outside its range, or not written as a whole one, is an error. */
  function NumberField(fields: seq<Json.Field>, name: string): Option<int64> {
    if |fields| == 0 then Some(0)
    else
      var before, f := NumberField(fields[..|fields| - 1], name), fields[|fields| - 1];
      if before.None? || Folded(f.name) != name || f.value.Null? then before
      else if f.value.Num? && -TWO_TO_THE_63 <= f.value.number < TWO_TO_THE_63 then Some(f.value.number)
      else None
  }

  // ----- what the fields of an object say ---------------------------------------------------------

  /** In ASCII, folding is writing in lower case; two other code points stand for letters. */
  lemma {:induction false} FoldedAscii(name: string)
    requires forall i | 0 <= i < |name| :: name[i] as int < 0x80
    ensures |Folded(name)| == |name|
    ensures forall i | 0 <= i < |name| ::
      Folded(name)[i] as int == name[i] as int + if 'A' <= name[i] <= 'Z' then 0x20 else 0
  {
    if |name| > 0 {
      assert LONG_S[0] != name[0] && KELVIN[0] != name[0];
      FoldedAscii(name[1..]);
    }
  }

  lemma FoldedLongS(rest: string)
    ensures Folded([0xC5 as char, 0xBF as char] + rest) == "s" + Folded(rest)
  {
    assert ([0xC5 as char, 0xBF as char] + rest)[2..] == rest;
  }

  lemma FoldedKelvin(rest: string)
    ensures Folded([0xE2 as char, 0x84 as char, 0xAA as char] + rest) == "k" + Folded(rest)
  {
    assert ([0xE2 as char, 0x84 as char, 0xAA as char] + rest)[3..] == rest;
  }

  /** Fields that decoding into the field `name` of a struct takes notice of. */
  predicate Sets(f: Json.Field, name: string) { Folded(f.name) == name && !f.value.Null? }

  predicate LastSets(fields: seq<Json.Field>, name: string, k: nat) {
    k < |fields| && Sets(fields[k], name) && forall j | k < j < |fields| :: !Sets(fields[j], name)
  }

  predicate Whole(v: Json.Value) {
    v.Num? && -0x8000_0000_0000_0000 <= v.number < 0x8000_0000_0000_0000
  }

  predicate AllTexts(fields: seq<Json.Field>, name: string) {
    forall j | 0 <= j < |fields| && Sets(fields[j], name) :: fields[j].value.Str?
  }

  predicate AllWhole(fields: seq<Json.Field>, name: string) {
    forall j | 0 <= j < |fields| && Sets(fields[j], name) :: Whole(fields[j].value)
  }

  /** All fields of that name are texts, and `t` is the last of them, or empty if there is none. */
  predicate TextIs(fields: seq<Json.Field>, name: string, t: string) {
    && AllTexts(fields, name)
    && (forall k | 0 <= k < |fields| && LastSets(fields, name, k) :: fields[k].value == Json.Str(t))
    && ((forall j | 0 <= j < |fields| :: !Sets(fields[j], name)) ==> t == "")
  }

  /** All fields of that name are whole numbers of 64 bits, and `n` is the last of them, or zero if there is none. */
  predicate NumberIs(fields: seq<Json.Field>, name: string, n: int64) {
    && AllWhole(fields, name)
    && (forall k | 0 <= k < |fields| && LastSets(fields, name, k) :: fields[k].value == Json.Num(n))
    && ((forall j | 0 <= j < |fields| :: !Sets(fields[j], name)) ==> n == 0)
  }

  lemma LastSetsSnoc(fields: seq<Json.Field>, name: string, k: nat)
    requires |fields| > 0
    ensures
      var n := |fields| - 1;
      LastSets(fields, name, k) <==> if Sets(fields[n], name) then k == n else LastSets(fields[..n], name, k)
  {}

  lemma TextIsSnoc(fields: seq<Json.Field>, name: string, t: string)
    requires |fields| > 0
    ensures
      var before, f := fields[..|fields| - 1], fields[|fields| - 1];
      TextIs(fields, name, t) <==>
        if Sets(f, name) then AllTexts(before, name) && f.value == Json.Str(t) else TextIs(before, name, t)
  {
    var n := |fields| - 1;
    forall k: nat
      ensures LastSets(fields, name, k) <==>
        if Sets(fields[n], name) then k == n else LastSets(fields[..n], name, k)
    {
      LastSetsSnoc(fields, name, k);
    }
    assert fields == fields[..n] + [fields[n]];
    assert Sets(fields[n], name) ==> LastSets(fields, name, n);
  }

  lemma NumberIsSnoc(fields: seq<Json.Field>, name: string, m: int64)
    requires |fields| > 0
    ensures
      var before, f := fields[..|fields| - 1], fields[|fields| - 1];
      NumberIs(fields, name, m) <==>
        if Sets(f, name) then AllWhole(before, name) && f.value == Json.Num(m) else NumberIs(before, name, m)
  {
    var n := |fields| - 1;
    forall k: nat
      ensures LastSets(fields, name, k) <==>
        if Sets(fields[n], name) then k == n else LastSets(fields[..n], name, k)
    {
      LastSetsSnoc(fields, name, k);
    }
    assert fields == fields[..n] + [fields[n]];
    assert Sets(fields[n], name) ==> LastSets(fields, name, n);
  }

  /** Decoding gives something exactly if all fields of that name are texts. */
  lemma {:induction false} TextKnown(fields: seq<Json.Field>, name: string)
    ensures StringField(fields, name).Some? <==> AllTexts(fields, name)
    decreases |fields|
  {
    if |fields| > 0 {
      var n := |fields| - 1;
      TextKnown(fields[..n], name);
      assert fields == fields[..n] + [fields[n]];
    }
  }

  lemma {:induction false} NumberKnown(fields: seq<Json.Field>, name: string)
    ensures NumberField(fields, name).Some? <==> AllWhole(fields, name)
    decreases |fields|
  {
    if |fields| > 0 {
      var n := |fields| - 1;
      NumberKnown(fields[..n], name);
      assert fields == fields[..n] + [fields[n]];
    }
  }

  /** What it gives is what the fields say. */
  lemma {:induction false} StringFieldIff(fields: seq<Json.Field>, name: string, t: string)
    ensures StringField(fields, name) == Some(t) <==> TextIs(fields, name, t)
    decreases |fields|
  {
    if |fields| > 0 {
      var before := fields[..|fields| - 1];
      TextIsSnoc(fields, name, t);
      TextKnown(before, name);
      StringFieldIff(before, name, t);
    }
  }

  lemma {:induction false} NumberFieldIff(fields: seq<Json.Field>, name: string, n: int64)
    ensures NumberField(fields, name) == Some(n) <==> NumberIs(fields, name, n)
    decreases |fields|
  {
    if |fields| > 0 {
      var before := fields[..|fields| - 1];
      NumberIsSnoc(fields, name, n);
      NumberKnown(before, name);
      NumberFieldIff(before, name, n);
    }
  }

  // ----- issuing ----------------------------------------------------------------------------------

  function Header(): Json.Value {
    Json.Obj([Json.Field("alg", Json.Str("HS256")), Json.Field("typ", Json.Str("JWT"))])
  }

  function ClaimsValue(c: Claims): Json.Value {
    Json.Obj([
      Json.Field("sub", Json.Str(UuidText.Text(c.agent))),
      Json.Field("agent_id", Json.Str(UuidText.Text(c.agent))),
      Json.Field("tenant_id", Json.Str(UuidText.Text(c.tenant))),
      Json.Field("iat", Json.Num(c.issuedAt)),
      Json.Field("exp", Json.Num(c.expiresAt))])
  }

  function Part(v: Json.Value): Option<string> {
    var text := Json.Print(v);
    if Narrow(text) then Some(Base64.Encode(Bytes(text))) else None
  }

  function GenerateToken(s: Service, agent: Uuid, tenant: Uuid, now: int64): Result<string> {
    if |s.secret| == 0 then Err(ServiceUnavailable)
    else
      match (Part(Header()), Part(ClaimsValue(Claims(agent, tenant, now, Wrapped(now + LIFETIME)))))
      case (Some(header), Some(claims)) =>
        var input := header + "." + claims;
        Ok(input + "." + s.Sign(input))
      case _ => Err(InvalidToken)
  }

  // ----- checking ---------------------------------------------------------------------------------

  function ReadPart(text: string): Option<seq<Json.Field>> {
    match Base64.Decode(text)
    case None => None
    case Some(bytes) =>
      match Json.Parse(TextOf(bytes))
      case Some(Obj(fields)) => Some(fields)
      case Some(Null) => Some([])
      case _ => None
  }

  predicate GoodHeader(text: string) {
    match ReadPart(text)
    case Some(fields) =>
      StringField(fields, "alg") == Some("HS256") && StringField(fields, "typ") == Some("JWT")
    case None => false
  }

  /** What decoding the claims gives, by their fields. */
  function FieldClaims(fields: seq<Json.Field>): Option<Claims> {
    match (StringField(fields, "sub"), StringField(fields, "agent_id"), StringField(fields, "tenant_id"),
           NumberField(fields, "iat"), NumberField(fields, "exp"))
    case (Some(_), Some(a), Some(t), Some(iat), Some(exp)) =>
      (match (UuidText.Parse(a), UuidText.Parse(t))
       case (Some(agent), Some(tenant)) => Some(Claims(agent, tenant, iat, exp))
       case _ => None)
    case _ => None
  }

  function ReadClaims(text: string): Option<Claims> {
    match ReadPart(text)
    case None => None
    case Some(fields) => FieldClaims(fields)
  }

  function ValidateToken(s: Service, token: string, now: int64): Result<Claims> {
    if |s.secret| == 0 then Err(ServiceUnavailable)
    else
      var parts := Split(token);
      if |parts| != 3 || !GoodHeader(parts[0]) then Err(InvalidToken)
      else if parts[2] != s.Sign(parts[0] + "." + parts[1]) then Err(InvalidToken)
      else
        match ReadClaims(parts[1])
        case None => Err(InvalidToken)
        case Some(c) => if c.expiresAt == 0 || now > c.expiresAt then Err(InvalidToken) else Ok(c)
  }

  // ----- results ----------------------------------------------------------------------------------

  lemma {:induction false} DecimalIsNarrow(n: nat)
    ensures Narrow(Json.Decimal(n))
  {
    if n >= 10 {
      DecimalIsNarrow(n / 10);
    }
  }

  lemma UuidIsWritable(u: Uuid)
    ensures Json.AllPlain(UuidText.Text(u))
  {
    UuidText.TextIsPlain(u);
  }

  /** A field as tokens have them: a plain string or a number. */
  predicate Simple(f: Json.Field) {
    Json.AllPlain(f.name) && (f.value.Num? || (f.value.Str? && Json.AllPlain(f.value.text)))
  }

  lemma QuotedIsNarrow(text: string)
    requires Json.AllPlain(text)
    ensures Narrow(Json.Quoted(text)) && Utf8.Valid(text)
  {
    Json.PlainIsWritable(text);
  }

  lemma NumIsNarrow(n: int)
    ensures Narrow(Json.Print(Json.Num(n)))
  {
    DecimalIsNarrow(if n < 0 then -n else n);
  }

  lemma {:induction false} SimpleNarrow(f: Json.Field)
    requires Simple(f)
    ensures Narrow(Json.PrintField(f)) && Utf8.Valid(f.name) && Json.Writable(f.value)
  {
    QuotedIsNarrow(f.name);
    if f.value.Num? {
      NumIsNarrow(f.value.number);
    } else {
      QuotedIsNarrow(f.value.text);
    }
  }

  lemma {:induction false} FieldsNarrow(fields: seq<Json.Field>)
    requires forall i | 0 <= i < |fields| :: Simple(fields[i])
    ensures Narrow(Json.PrintFields(fields))
    decreases |fields|
  {
    if |fields| > 0 {
      SimpleNarrow(fields[0]);
      FieldsNarrow(fields[1..]);
    }
  }

  lemma SimpleObject(fields: seq<Json.Field>)
    requires forall i | 0 <= i < |fields| :: Simple(fields[i])
    ensures Json.Writable(Json.Obj(fields)) && Narrow(Json.Print(Json.Obj(fields)))
  {
    forall i | 0 <= i < |fields|
      ensures Utf8.Valid(fields[i].name) && Json.Writable(fields[i].value)
    {
      SimpleNarrow(fields[i]);
    }
    FieldsNarrow(fields);
  }

  predicate OnlyAt(fields: seq<Json.Field>, i: nat, name: string) {
    forall j | 0 <= j < |fields| :: Folded(fields[j].name) == name <==> j == i
  }

  predicate Lower(name: string) {
    forall i | 0 <= i < |name| :: 'a' <= name[i] <= 'z' || name[i] == '_'
  }

  lemma {:induction false} LowerIsFolded(name: string)
    requires Lower(name)
    ensures Folded(name) == name
  {
    if |name| > 0 {
      LowerIsFolded(name[1..]);
      assert LONG_S[0] != name[0] && KELVIN[0] != name[0];
      assert [name[0]] + name[1..] == name;
    }
  }

  lemma LowerNames(fields: seq<Json.Field>, i: nat)
    requires i < |fields| && forall j | 0 <= j < |fields| :: Lower(fields[j].name)
    requires forall j | 0 <= j < |fields| && j != i :: fields[j].name != fields[i].name
    ensures OnlyAt(fields, i, fields[i].name)
  {
    forall j | 0 <= j < |fields|
      ensures Folded(fields[j].name) == fields[j].name
    {
      LowerIsFolded(fields[j].name);
    }
  }

  lemma {:induction false} FieldFound(fields: seq<Json.Field>, i: nat, name: string)
    requires i < |fields| && OnlyAt(fields, i, name)
    ensures fields[i].value.Str? ==> StringField(fields, name) == Some(fields[i].value.text)
    ensures fields[i].value.Num? && -TWO_TO_THE_63 <= fields[i].value.number < TWO_TO_THE_63 ==>
      NumberField(fields, name) == Some(fields[i].value.number)
    decreases |fields|
  {
    var before := fields[..|fields| - 1];
    if i < |fields| - 1 {
      FieldFound(before, i, name);
    } else {
      FieldMissing(before, name);
    }
  }

  lemma {:induction false} FieldMissing(fields: seq<Json.Field>, name: string)
    requires forall j | 0 <= j < |fields| :: Folded(fields[j].name) != name
    ensures StringField(fields, name) == Some("") && NumberField(fields, name) == Some(0)
  {
    if |fields| > 0 {
      FieldMissing(fields[..|fields| - 1], name);
    }
  }

  /** A value that can be written and is in plain text reads back from its part of a token. */
  lemma PartRoundTrip(fields: seq<Json.Field>)
    requires Json.Writable(Json.Obj(fields)) && Narrow(Json.Print(Json.Obj(fields)))
    ensures Part(Json.Obj(fields)).Some? && ReadPart(Part(Json.Obj(fields)).value) == Some(fields)
    ensures NoDot(Part(Json.Obj(fields)).value)
  {
    var text := Json.Print(Json.Obj(fields));
    Base64.RoundTrip(Bytes(text));
    Base64.EncodeIsPlain(Bytes(text));
    TextOfBytes(text);
    Json.RoundTrip(Json.Obj(fields));
  }

  lemma HeaderFound()
    ensures StringField(Header().fields, "alg") == Some("HS256") && StringField(Header().fields, "typ") == Some("JWT")
  {
    var fields := Header().fields;
    LowerNames(fields, 0);
    LowerNames(fields, 1);
    FieldFound(fields, 0, "alg");
    FieldFound(fields, 1, "typ");
  }

  lemma HeaderRoundTrip()
    ensures Part(Header()).Some? && GoodHeader(Part(Header()).value) && NoDot(Part(Header()).value)
  {
    SimpleObject(Header().fields);
    PartRoundTrip(Header().fields);
    HeaderFound();
  }

  lemma ClaimNamesDiffer(c: Claims)
    ensures
      var fields := ClaimsValue(c).fields;
      && (forall i | 0 <= i < 5 :: Lower(fields[i].name))
      && (forall i, j | 0 <= i < j < 5 :: fields[i].name != fields[j].name)
  {
    assert "sub"[0] != "iat"[0] && "iat"[0] != "exp"[0] && "exp"[0] != "sub"[0];
  }

  lemma ClaimNames(c: Claims)
    ensures forall i | 0 <= i < 5 :: OnlyAt(ClaimsValue(c).fields, i, ClaimsValue(c).fields[i].name)
  {
    var fields := ClaimsValue(c).fields;
    ClaimNamesDiffer(c);
    forall i | 0 <= i < 5
      ensures OnlyAt(fields, i, fields[i].name)
    {
      LowerNames(fields, i);
    }
  }

  lemma TextClaims(c: Claims)
    ensures
      var fields := ClaimsValue(c).fields;
      && StringField(fields, "sub") == Some(UuidText.Text(c.agent))
      && StringField(fields, "agent_id") == Some(UuidText.Text(c.agent))
      && StringField(fields, "tenant_id") == Some(UuidText.Text(c.tenant))
  {
    var fields := ClaimsValue(c).fields;
    ClaimNames(c);
    FieldFound(fields, 0, fields[0].name);
    FieldFound(fields, 1, fields[1].name);
    FieldFound(fields, 2, fields[2].name);
  }

  lemma TimeClaims(c: Claims)
    ensures NumberField(ClaimsValue(c).fields, "iat") == Some(c.issuedAt)
    ensures NumberField(ClaimsValue(c).fields, "exp") == Some(c.expiresAt)
  {
    var fields := ClaimsValue(c).fields;
    ClaimNames(c);
    FieldFound(fields, 3, fields[3].name);
    FieldFound(fields, 4, fields[4].name);
  }

  lemma ClaimsFound(c: Claims)
    ensures FieldClaims(ClaimsValue(c).fields) == Some(c)
  {
    TextClaims(c);
    TimeClaims(c);
    UuidText.RoundTrip(c.agent);
    UuidText.RoundTrip(c.tenant);
  }

  lemma ClaimsRoundTrip(c: Claims)
    ensures Part(ClaimsValue(c)).Some? && ReadClaims(Part(ClaimsValue(c)).value) == Some(c)
    ensures NoDot(Part(ClaimsValue(c)).value)
  {
    UuidIsWritable(c.agent);
    UuidIsWritable(c.tenant);
    SimpleObject(ClaimsValue(c).fields);
    PartRoundTrip(ClaimsValue(c).fields);
    ClaimsFound(c);
  }

  lemma SplitThree(a: string, b: string, c: string)
    requires NoDot(a) && NoDot(b) && NoDot(c)
    ensures Split(a + "." + b + "." + c) == [a, b, c]
  {
    assert a + "." + b + "." + c == a + "." + (b + "." + c);
    SplitFirst(a, b + "." + c);
    SplitFirst(b, c);
    SplitOne(c);
  }

  lemma SignatureHasNoDot(s: Service, input: string)
    ensures NoDot(s.Sign(input))
  {
    Base64.EncodeIsPlain(s.mac(s.secret, input));
  }

  /** A token is accepted, with the identities and times it was issued with, exactly while the clock
      is at most a day past its issue, in 64-bit arithmetic. The one exception is a token that expires at
      time zero, which counts as having no expiry time. */
  lemma TokenRoundTrip(s: Service, agent: Uuid, tenant: Uuid, issued: int64, now: int64)
    requires |s.secret| > 0
    ensures GenerateToken(s, agent, tenant, issued).Ok?
    ensures
      var later := issued + 86_400;
      var expiry := if later < 0x8000_0000_0000_0000 then later else later - 0x1_0000_0000_0000_0000;
      ValidateToken(s, GenerateToken(s, agent, tenant, issued).value, now)
        == if now <= expiry && expiry != 0 then Ok(Claims(agent, tenant, issued, expiry)) else Err(InvalidToken)
  {
    var c := Claims(agent, tenant, issued, Wrapped(issued + LIFETIME));
    WrappedOnce(issued + LIFETIME);
    HeaderRoundTrip();
    ClaimsRoundTrip(c);
    var header, claims := Part(Header()).value, Part(ClaimsValue(c)).value;
    SignatureHasNoDot(s, header + "." + claims);
    SplitThree(header, claims, s.Sign(header + "." + claims));
  }

  // ----- what is issued ---------------------------------------------------------------------------

  /** A member of an object whose name and text need no escapes. */
  function Member(f: Json.Field): string {
    "\"" + f.name + "\":" + if f.value.Str? then "\"" + f.value.text + "\"" else Json.Print(f.value)
  }

  /** Members with commas between them. */
  function Listed(fields: seq<Json.Field>): string {
    if |fields| == 0 then "" else Member(fields[0]) + if |fields| == 1 then "" else "," + Listed(fields[1..])
  }

  lemma MemberText(f: Json.Field)
    requires Simple(f)
    ensures Json.PrintField(f) == Member(f)
  {
    Json.PlainIsWritable(f.name);
    if f.value.Str? {
      Json.PlainIsWritable(f.value.text);
    }
    assert "\"" + f.name + "\"" + ":" == "\"" + f.name + "\":";
  }

  lemma {:induction false} FieldsListed(fields: seq<Json.Field>)
    requires forall i | 0 <= i < |fields| :: Simple(fields[i])
    ensures Json.PrintFields(fields) == Listed(fields)
  {
    if |fields| > 0 {
      MemberText(fields[0]);
      FieldsListed(fields[1..]);
    }
  }

  /** The base64url form of an object with these members. */
  predicate IsPart(part: string, fields: seq<Json.Field>) {
    var text := "{" + Listed(fields) + "}";
    Narrow(text) && part == Base64.Encode(Bytes(text))
  }

  lemma PartOf(fields: seq<Json.Field>)
    requires forall i | 0 <= i < |fields| :: Simple(fields[i])
    ensures Part(Json.Obj(fields)).Some? && IsPart(Part(Json.Obj(fields)).value, fields)
  {
    SimpleObject(fields);
    FieldsListed(fields);
  }

  lemma HeaderPart()
    ensures Part(Header()).Some? && IsPart(Part(Header()).value, Header().fields)
  {
    PartOf(Header().fields);
  }

  lemma ClaimsPart(c: Claims)
    ensures Part(ClaimsValue(c)).Some? && IsPart(Part(ClaimsValue(c)).value, ClaimsValue(c).fields)
  {
    UuidIsWritable(c.agent);
    UuidIsWritable(c.tenant);
    PartOf(ClaimsValue(c).fields);
  }

  /** The token itself: header and claims, each as the text of an object in base64url, and the signature
      of both by the service's secret. */
  lemma IssuedToken(s: Service, agent: Uuid, tenant: Uuid, issued: int64) returns (header: string, claims: string)
    requires |s.secret| > 0
    ensures IsPart(header, [Json.Field("alg", Json.Str("HS256")), Json.Field("typ", Json.Str("JWT"))])
    ensures
      var later := issued + 86_400;
      var expiry := if later < 0x8000_0000_0000_0000 then later else later - 0x1_0000_0000_0000_0000;
      IsPart(claims, [
        Json.Field("sub", Json.Str(UuidText.Text(agent))),
        Json.Field("agent_id", Json.Str(UuidText.Text(agent))),
        Json.Field("tenant_id", Json.Str(UuidText.Text(tenant))),
        Json.Field("iat", Json.Num(issued)),
        Json.Field("exp", Json.Num(expiry))])
    ensures
      var input := header + "." + claims;
      GenerateToken(s, agent, tenant, issued) == Ok(input + "." + Base64.Encode(s.mac(s.secret, input)))
  {
    var c := Claims(agent, tenant, issued, Wrapped(issued + LIFETIME));
    WrappedOnce(issued + LIFETIME);
    HeaderPart();
    ClaimsPart(c);
    header, claims := Part(Header()).value, Part(ClaimsValue(c)).value;
  }

  lemma WrappedOnce(n: int)
    requires -TWO_TO_THE_63 <= n < 3 * TWO_TO_THE_63
    ensures Wrapped(n) == if n < TWO_TO_THE_63 then n else n - 2 * TWO_TO_THE_63
  {}

  lemma JoinThree(parts: seq<string>)
    requires |parts| == 3
    ensures Join(parts) == parts[0] + "." + parts[1] + "." + parts[2]
  {
    assert Join(parts[1..]) == parts[1] + "." + parts[2] by {
      assert parts[1..][1..] == [parts[2]];
    }
    assert parts[0] + "." + (parts[1] + "." + parts[2]) == parts[0] + "." + parts[1] + "." + parts[2];
  }

  // ----- what is accepted -------------------------------------------------------------------------

  /** The part of a token is the base64url form of a JSON object with these fields, or of null. */
  predicate Carries(part: string, fields: seq<Json.Field>) {
    match Base64.Decode(part)
    case Some(bytes) =>
      || Json.Parse(TextOf(bytes)) == Some(Json.Obj(fields))
      || (Json.Parse(TextOf(bytes)) == Some(Json.Null) && fields == [])
    case None => false
  }

  ghost predicate HeaderSays(part: string) {
    exists fields :: Carries(part, fields) && TextIs(fields, "alg", "HS256") && TextIs(fields, "typ", "JWT")
  }

  ghost predicate Identifies(fields: seq<Json.Field>, name: string, u: Uuid) {
    exists text :: TextIs(fields, name, text) && UuidText.Parse(text) == Some(u)
  }

  ghost predicate FieldsSay(fields: seq<Json.Field>, c: Claims) {
    && (exists sub :: TextIs(fields, "sub", sub))
    && Identifies(fields, "agent_id", c.agent)
    && Identifies(fields, "tenant_id", c.tenant)
    && NumberIs(fields, "iat", c.issuedAt) && NumberIs(fields, "exp", c.expiresAt)
  }

  ghost predicate ClaimsSay(part: string, c: Claims) {
    exists fields :: Carries(part, fields) && FieldsSay(fields, c)
  }

  lemma CarriesIff(part: string, fields: seq<Json.Field>)
    ensures ReadPart(part) == Some(fields) <==> Carries(part, fields)
  {}

  lemma HeaderIff(part: string)
    ensures GoodHeader(part) <==> HeaderSays(part)
  {
    if fields :| Carries(part, fields) {
      CarriesIff(part, fields);
      StringFieldIff(fields, "alg", "HS256");
      StringFieldIff(fields, "typ", "JWT");
    } else {
      match ReadPart(part)
      case Some(fields) => CarriesIff(part, fields);
      case None =>
    }
  }

  lemma TextField(fields: seq<Json.Field>, name: string)
    ensures match StringField(fields, name)
      case Some(t) => forall u :: TextIs(fields, name, u) <==> u == t
      case None => forall u :: !TextIs(fields, name, u)
  {
    forall u
      ensures TextIs(fields, name, u) <==> StringField(fields, name) == Some(u)
    {
      StringFieldIff(fields, name, u);
    }
  }

  lemma IdentifiesIff(fields: seq<Json.Field>, name: string, u: Uuid)
    ensures Identifies(fields, name, u) <==>
      StringField(fields, name).Some? && UuidText.Parse(StringField(fields, name).value) == Some(u)
  {
    TextField(fields, name);
    if StringField(fields, name).Some? {
      assert TextIs(fields, name, StringField(fields, name).value);
    }
  }

  lemma FieldClaimsIff(fields: seq<Json.Field>, c: Claims)
    ensures FieldClaims(fields) == Some(c) <==> FieldsSay(fields, c)
  {
    TextField(fields, "sub");
    if StringField(fields, "sub").Some? {
      assert TextIs(fields, "sub", StringField(fields, "sub").value);
    }
    IdentifiesIff(fields, "agent_id", c.agent);
    IdentifiesIff(fields, "tenant_id", c.tenant);
    NumberFieldIff(fields, "iat", c.issuedAt);
    NumberFieldIff(fields, "exp", c.expiresAt);
  }

  lemma ClaimsIff(part: string, c: Claims)
    ensures ReadClaims(part) == Some(c) <==> ClaimsSay(part, c)
  {
    match ReadPart(part)
    case Some(fields) =>
      CarriesIff(part, fields);
      FieldClaimsIff(fields, c);
      forall other | Carries(part, other)
        ensures other == fields
      {
        CarriesIff(part, other);
      }
    case None =>
      forall fields
        ensures !Carries(part, fields)
      {
        CarriesIff(part, fields);
      }
  }

  lemma {:induction false} PartsHaveNoDot(s: string)
    ensures forall i | 0 <= i < |Split(s)| :: NoDot(Split(s)[i])
  {
    if |s| > 0 {
      PartsHaveNoDot(s[1..]);
    }
  }

  predicate Joined(token: string, s: Service, header: string, claims: string) {
    && NoDot(header) && NoDot(claims)
    && token == header + "." + claims + "." + Base64.Encode(s.mac(s.secret, header + "." + claims))
  }

  /** Exactly which tokens are accepted, and for what: those made of a header that names the algorithm and
      the type, claims that name the two identities and the times, and the service's signature of both,
      that have an expiry time and have not expired. */
  lemma AcceptedIff(s: Service, token: string, now: int64, c: Claims)
    ensures ValidateToken(s, token, now) == Ok(c) <==>
      && |s.secret| > 0 && now <= c.expiresAt && c.expiresAt != 0
      && exists header, claims :: Joined(token, s, header, claims) && HeaderSays(header) && ClaimsSay(claims, c)
  {
    var parts := Split(token);
    if ValidateToken(s, token, now) == Ok(c) {
      JoinOfSplit(token);
      JoinThree(parts);
      PartsHaveNoDot(token);
      HeaderIff(parts[0]);
      ClaimsIff(parts[1], c);
      assert Joined(token, s, parts[0], parts[1]);
    }
    forall header, claims | Joined(token, s, header, claims) && HeaderSays(header) && ClaimsSay(claims, c)
      ensures parts == [header, claims, s.Sign(header + "." + claims)]
      ensures GoodHeader(header) && ReadClaims(claims) == Some(c)
    {
      SignatureHasNoDot(s, header + "." + claims);
      SplitThree(header, claims, s.Sign(header + "." + claims));
      HeaderIff(header);
      ClaimsIff(claims, c);
    }
  }

  /** In particular, whatever is accepted carries the service's signature of its header and claims, has
      not expired, and was accepted for what its claims say. */
  lemma AcceptedIsSigned(s: Service, token: string, now: int64)
    requires ValidateToken(s, token, now).Ok?
    ensures
      var c := ValidateToken(s, token, now).value;
      && now <= c.expiresAt != 0
      && exists header, claims :: Joined(token, s, header, claims) && HeaderSays(header) && ClaimsSay(claims, c)
  {
    AcceptedIff(s, token, now, ValidateToken(s, token, now).value);
  }
}
