/** The texts from which keys are built, and when two of them are the same. */
module Keys {
  import opened Model
  import Json
  import UuidText

  // ----- rate-limit keys --------------------------------------------------------------------------

  function RateLimitKey(tenant: Uuid, agent: Uuid, route: string, slot: nat): string {
    "ratelimit:" + UuidText.Text(tenant) + ":" + UuidText.Text(agent) + ":" + route + ":" + Json.Decimal(slot)
  }

  lemma ColonInside(a: string, b: string, c: string, d: string)
    requires a + ":" + b == c + ":" + d && |a| < |c|
    ensures ':' in b
  {
    assert (a + ":" + b)[|c|] == ':';
    assert b[|c| - |a| - 1] == ':';
  }

  /** With no colon in `b` and `d`, the last colon shows where the two parts meet. */
  lemma LastColon(a: string, b: string, c: string, d: string)
    requires a + ":" + b == c + ":" + d
    requires ':' !in b && ':' !in d
    ensures a == c && b == d
  {
    if |a| < |c| {
      ColonInside(a, b, c, d);
    } else if |c| < |a| {
      ColonInside(c, d, a, b);
    } else {
      var s := a + ":" + b;
      assert a == s[..|a|] == c && b == s[|a| + 1..] == d;
    }
  }

  lemma DecimalInjective(m: nat, n: nat)
    requires Json.Decimal(m) == Json.Decimal(n)
    ensures m == n
  {
    Json.DecimalReads(m);
    Json.DecimalReads(n);
  }

  lemma DecimalHasNoColon(n: nat)
    ensures ':' !in Json.Decimal(n)
  {
    Json.DecimalReads(n);
  }

  /** What is left after two UUID texts and their colons. */
  lemma UuidsFirst(t: Uuid, a: Uuid, rest: string, t': Uuid, a': Uuid, rest': string)
    requires "ratelimit:" + UuidText.Text(t) + ":" + UuidText.Text(a) + ":" + rest
      == "ratelimit:" + UuidText.Text(t') + ":" + UuidText.Text(a') + ":" + rest'
    ensures t == t' && a == a' && rest == rest'
  {
    var s := "ratelimit:" + UuidText.Text(t) + ":" + UuidText.Text(a) + ":" + rest;
    assert UuidText.Text(t) == s[10..46] == UuidText.Text(t');
    assert UuidText.Text(a) == s[47..83] == UuidText.Text(a');
    assert rest == s[84..] == rest';
    UuidText.TextInjective(t, t');
    UuidText.TextInjective(a, a');
  }

  /** Although routes such as `/agents/:id` contain colons, two keys are equal only if all four parts are. */
  lemma RateLimitKeyInjective(t: Uuid, a: Uuid, r: string, n: nat, t': Uuid, a': Uuid, r': string, n': nat)
    requires RateLimitKey(t, a, r, n) == RateLimitKey(t', a', r', n')
    ensures t == t' && a == a' && r == r' && n == n'
  {
    var head, head' := "ratelimit:" + UuidText.Text(t) + ":" + UuidText.Text(a) + ":",
      "ratelimit:" + UuidText.Text(t') + ":" + UuidText.Text(a') + ":";
    assert RateLimitKey(t, a, r, n) == head + (r + ":" + Json.Decimal(n));
    assert RateLimitKey(t', a', r', n') == head' + (r' + ":" + Json.Decimal(n'));
    UuidsFirst(t, a, r + ":" + Json.Decimal(n), t', a', r' + ":" + Json.Decimal(n'));
    DecimalHasNoColon(n);
    DecimalHasNoColon(n');
    LastColon(r, Json.Decimal(n), r', Json.Decimal(n'));
    DecimalInjective(n, n');
  }

  // ----- deduplication keys -----------------------------------------------------------------------

  /** What the deduplication key of a message is computed from. */
  datatype Identity = Identity(sender: Uuid, conversation: Uuid, task: Option<Uuid>, content: string)

  function TaskAndContent(m: Identity): string {
    (if m.task.Some? then UuidText.Text(m.task.value) + ":" else "") + m.content
  }

  /** The text that is hashed. */
  function DedupText(m: Identity): string {
    UuidText.Text(m.sender) + ":" + UuidText.Text(m.conversation)
      + (if m.task.Some? then ":" + UuidText.Text(m.task.value) else "")
      + ":" + m.content
  }

  lemma DedupTextParts(m: Identity)
    ensures DedupText(m) == UuidText.Text(m.sender) + ":" + UuidText.Text(m.conversation) + ":" + TaskAndContent(m)
  {}

  lemma SendersFirst(s: Uuid, c: Uuid, rest: string, s': Uuid, c': Uuid, rest': string)
    requires UuidText.Text(s) + ":" + UuidText.Text(c) + ":" + rest
      == UuidText.Text(s') + ":" + UuidText.Text(c') + ":" + rest'
    ensures s == s' && c == c' && rest == rest'
  {
    var text := UuidText.Text(s) + ":" + UuidText.Text(c) + ":" + rest;
    assert UuidText.Text(s) == text[..36] == UuidText.Text(s');
    assert UuidText.Text(c) == text[37..73] == UuidText.Text(c');
    assert rest == text[74..] == rest';
    UuidText.TextInjective(s, s');
    UuidText.TextInjective(c, c');
  }

  lemma TasksFirst(t: Uuid, rest: string, t': Uuid, rest': string)
    requires UuidText.Text(t) + ":" + rest == UuidText.Text(t') + ":" + rest'
    ensures t == t' && rest == rest'
  {
    var text := UuidText.Text(t) + ":" + rest;
    assert UuidText.Text(t) == text[..36] == UuidText.Text(t');
    assert rest == text[37..] == rest';
    UuidText.TextInjective(t, t');
  }

  /** The one way in which messages that differ can have the same text: `n` has no task, and its
      content spells out the task ID and the content of `m`. */
  predicate Spells(m: Identity, n: Identity) {
    m.task.Some? && n.task.None? && n.content == UuidText.Text(m.task.value) + ":" + m.content
  }

  lemma SameTaskAndContent(m: Identity, n: Identity)
    ensures TaskAndContent(m) == TaskAndContent(n) <==>
      (m.task == n.task && m.content == n.content) || Spells(m, n) || Spells(n, m)
  {
    assert m.task.None? ==> TaskAndContent(m) == m.content;
    assert n.task.None? ==> TaskAndContent(n) == n.content;
    if m.task.Some? && n.task.Some? && TaskAndContent(m) == TaskAndContent(n) {
      TasksFirst(m.task.value, m.content, n.task.value, n.content);
    }
  }

  /** Two messages are hashed from the same text exactly if sender and conversation agree and
      either task and content agree too, or one spells out the other. */
  lemma SameDedupText(m: Identity, n: Identity)
    ensures DedupText(m) == DedupText(n) <==>
      m.sender == n.sender && m.conversation == n.conversation
        && ((m.task == n.task && m.content == n.content) || Spells(m, n) || Spells(n, m))
  {
    DedupTextParts(m);
    DedupTextParts(n);
    SameTaskAndContent(m, n);
    if DedupText(m) == DedupText(n) {
      SendersFirst(m.sender, m.conversation, TaskAndContent(m), n.sender, n.conversation, TaskAndContent(n));
    }
  }

  // ----- idempotency keys -------------------------------------------------------------------------

  /** The bytes that are hashed. */
  function IdempotencyBytes(sender: Uuid, recipient: Uuid, content: seq<byte>): seq<byte> {
    sender.bytes + recipient.bytes + content
  }

  lemma IdempotencyBytesInjective(s: Uuid, r: Uuid, c: seq<byte>, s': Uuid, r': Uuid, c': seq<byte>)
    requires IdempotencyBytes(s, r, c) == IdempotencyBytes(s', r', c')
    ensures s == s' && r == r' && c == c'
  {
    var b := IdempotencyBytes(s, r, c);
    assert s.bytes == b[..16] == s'.bytes;
    assert r.bytes == b[16..32] == r'.bytes;
    assert c == b[32..] == c';
  }
}
