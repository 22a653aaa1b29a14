/** Deduplication by check-then-mark over a store that other clients write to: what one call does to
    the writes, and when two calls that overlap can both go ahead. */
module Dedup {
  import opened Model
  import opened KeyStore
  import K = Keys

  const NANOS := 1_000_000_000

  /** Nanoseconds in whole seconds, towards zero. */
  function Seconds(nanos: int): int {
    if nanos >= 0 then nanos / NANOS else -(-nanos / NANOS)
  }

  /** The number of seconds for which a mark is set: a day if no window is configured. */
  function MarkSeconds(window: int): int {
    Seconds(if window == 0 then 24 * 60 * 60 * NANOS else window)
  }

  datatype Error = NotConfigured | StoreFailed | DatabaseFailed

  datatype Result<+T> = Ok(value: T) | Err(error: Error)

  // ----- the engine -------------------------------------------------------------------------------

  /** The messages that have a row, and what look-ups by ID have answered; none is an error. */
  class Messages {
    const ids: set<Uuid>
    ghost var answers: seq<Option<bool>>

    constructor (ids: set<Uuid>)
      ensures this.ids == ids && answers == []
    {
      this.ids, answers := ids, [];
    }

    method GetMessageByID(id: Uuid) returns (found: Option<bool>)
      modifies this
      ensures found.None? || found == Some(id in ids)
      ensures answers == old(answers) + [found]
    {
      var failed: bool := *;
      found := if failed then None else Some(id in ids);
      answers := answers + [found];
    }
  }

  function Told(answer: Option<bool>): Result<bool> {
    match answer
    case Some(found) => Ok(found)
    case None => Err(DatabaseFailed)
  }

  /** Sender and conversation agree and either task and content agree too, or one spells out the other. */
  predicate Alike(m: K.Identity, n: K.Identity) {
    && m.sender == n.sender && m.conversation == n.conversation
    && ((m.task == n.task && m.content == n.content) || K.Spells(m, n) || K.Spells(n, m))
  }

  /** The hash differs on different texts. */
  ghost predicate Separates(hash: string -> string) {
    forall a, b | hash(a) == hash(b) :: a == b
  }

  /** The store calls of one check: look the key up and, if it is not found, mark it. */
  predicate Checks(made: seq<Call>, me: nat, key: string, seconds: int, checkedAt: int, markedAt: int) {
    && |made| > 0 && made[0].ExistsCall?
    && made[0] == ExistsCall(me, key, checkedAt, made[0].found, made[0].out)
    && if made[0].out.Errs() || made[0].found then |made| == 1
       else |made| == 2 && made[1].SetCall?
            && made[1] == SetCall(me, key, markedAt, made[1].text, seconds, made[1].out)
  }

  class ExactlyOnceEngine {
    const redis: Keys?
    const db: Messages?
    const window: int
    const hash: string -> string

    constructor (redis: Keys?, db: Messages?, window: int, hash: string -> string)
      ensures this.redis == redis && this.db == db && this.window == window && this.hash == hash
    {
      this.redis, this.db, this.window, this.hash := redis, db, window, hash;
    }

    function KeyOf(m: K.Identity): string {
      "dedup:" + hash(K.DedupText(m))
    }

    /** With a hash that differs on different texts, two messages have the same key exactly if they are
        alike; no key is one of the idempotency service. */
    lemma KeyIff(m: K.Identity, n: K.Identity, other: string)
      requires Separates(hash)
      ensures KeyOf(m) == KeyOf(n) <==> Alike(m, n)
      ensures KeyOf(m) != "idempotency:" + other
    {
      var a, b := hash(K.DedupText(m)), hash(K.DedupText(n));
      K.SameDedupText(m, n);
      assert KeyOf(m)[6..] == a && KeyOf(n)[6..] == b;
      assert KeyOf(m)[0] != ("idempotency:" + other)[0];
    }

    function MarkOf(m: K.Identity, at: int): Write {
      Write(KeyOf(m), ExpiryAfter(MarkSeconds(window), at))
    }

    /** After a message has been marked, and until the mark expires, another one counts as a duplicate
        exactly if it is alike, or was remembered before. */
    lemma MarkedIff(before: seq<Write>, m: K.Identity, at: int, n: K.Identity, now: int)
      requires Separates(hash) && Unexpired(ExpiryAfter(MarkSeconds(window), at), now)
      ensures Remembered(before + [MarkOf(m, at)], KeyOf(n), now) <==> Alike(m, n) || Remembered(before, KeyOf(n), now)
    {
      KeyIff(m, n, "");
      RememberedSnoc(before, MarkOf(m, at), KeyOf(n), now);
    }

    method CheckInDB(id: Uuid) returns (r: Result<bool>)
      modifies db
      ensures db == null ==> r == Err(NotConfigured)
      ensures db != null ==> r == Err(DatabaseFailed) || r == Ok(id in db.ids)
      ensures db != null ==> |db.answers| == |old(db.answers)| + 1 && old(db.answers) <= db.answers
      ensures db != null ==> r == Told(db.answers[|old(db.answers)|])
    {
      if db == null {
        return Err(NotConfigured);
      }
      var found := db.GetMessageByID(id);
      if found.None? {
        return Err(DatabaseFailed);
      }
      return Ok(found.value);
    }

    /** Whatever other clients write before and between the two store calls: if the check succeeds,
        the answer is that of the writes it saw (`seen`). A key that is not remembered is marked on top
        of the writes made by then (`before`); only an error keeps the mark from being made or reported.
        Only a check that reports an error is left to the database. */
    method IsDuplicate(ghost me: nat, id: Uuid, m: K.Identity, checkedAt: int, markedAt: int)
      returns (r: Result<bool>, ghost made: seq<Call>, ghost seen: seq<Write>, ghost before: seq<Write>)
      requires redis != null ==> redis.Valid() && redis.latest <= checkedAt <= markedAt
      modifies redis, db
      ensures redis == null ==> r == Err(NotConfigured)
      ensures redis != null ==> redis.Valid() && redis.latest <= markedAt && old(redis.writes) <= seen <= before
      ensures redis != null ==>
        && CallsOf(redis.calls, me) == old(CallsOf(redis.calls, me)) + made
        && Checks(made, me, KeyOf(m), MarkSeconds(window), checkedAt, markedAt)
      ensures redis != null && made[0].out.Errs() ==>
        redis.writes == seen &&
        if db == null then r == Err(NotConfigured)
        else |db.answers| == |old(db.answers)| + 1 && r == Told(db.answers[|old(db.answers)|])
      ensures redis != null && made[0].out.Errs() && db != null ==> r == Err(DatabaseFailed) || r == Ok(id in db.ids)
      ensures redis != null && made[0].out.Done? ==>
        && (made[0].found <==> Remembered(seen, KeyOf(m), checkedAt))
        && (made[0].found ==> r == Ok(true) && redis.writes == seen)
        && (!made[0].found ==>
              && r == (if made[1].out.Errs() then Err(StoreFailed) else Ok(false))
              && redis.writes == if made[1].out.Applied() then before + [MarkOf(m, markedAt)] else before)
    {
      made, seen, before := [], [], [];
      if redis == null {
        r := Err(NotConfigured);
        return;
      }
      var key := KeyOf(m);
      var found, out;
      found, out, seen := Look(me, key, checkedAt);
      made, before := [ExistsCall(me, key, checkedAt, found, out)], seen;
      if out.Errs() {
        r := CheckInDB(id);
        return;
      }
      if found {
        r := Ok(true);
        return;
      }
      var outcome;
      outcome, before := MarkAsProcessed(me, key, markedAt);
      made := made + [SetCall(me, key, markedAt, "message", MarkSeconds(window), outcome)];
      r := if outcome.Errs() then Err(StoreFailed) else Ok(false);
    }

    method Look(ghost me: nat, key: string, now: int) returns (found: bool, out: Outcome, ghost seen: seq<Write>)
      requires redis != null && redis.Valid() && redis.latest <= now
      modifies redis
      ensures redis.Valid() && redis.latest <= now && old(redis.writes) <= seen == redis.writes
      ensures CallsOf(redis.calls, me) == old(CallsOf(redis.calls, me)) + [ExistsCall(me, key, now, found, out)]
      ensures out.Done? ==> (found <==> Remembered(seen, key, now))
    {
      redis.Others(me, now);
      seen := redis.writes;
      found, out := redis.Exists(me, key, now);
      CallsOfSnoc(redis.calls[..|redis.calls| - 1], ExistsCall(me, key, now, found, out), me);
    }

    method MarkAsProcessed(ghost me: nat, key: string, now: int) returns (out: Outcome, ghost before: seq<Write>)
      requires redis != null && redis.Valid() && redis.latest <= now
      modifies redis
      ensures redis.Valid() && redis.latest == now && old(redis.writes) <= before
      ensures CallsOf(redis.calls, me)
        == old(CallsOf(redis.calls, me)) + [SetCall(me, key, now, "message", MarkSeconds(window), out)]
      ensures out.Applied() ==> redis.writes == before + [Write(key, ExpiryAfter(MarkSeconds(window), now))]
      ensures out.Refused? ==> redis.writes == before
    {
      redis.Others(me, now);
      before := redis.writes;
      var ttl := window;
      if ttl == 0 {
        ttl := 24 * 60 * 60 * NANOS;
      }
      out := redis.SetWithExpiry(me, key, "message", Seconds(ttl), now);
      CallsOfSnoc(redis.calls[..|redis.calls| - 1], SetCall(me, key, now, "message", Seconds(ttl), out), me);
    }
  }

  /** A mark that is set expires exactly if no window or a window of at least a second is configured;
      a shorter or negative one makes it stay for good. */
  lemma MarkExpires(window: int, now: int)
    ensures ExpiryAfter(MarkSeconds(window), now).Some? <==> window == 0 || window >= 1_000_000_000
    ensures window == 0 ==> ExpiryAfter(MarkSeconds(window), now) == Some(now + 86_400_000)
    ensures window >= 1_000_000_000 ==>
      var s := MarkSeconds(window);
      s * 1_000_000_000 <= window < (s + 1) * 1_000_000_000 && ExpiryAfter(s, now) == Some(now + s * 1000)
  {
    if window < 0 {
      assert Seconds(window) <= 0;
    }
  }

  // ----- idempotency keys -------------------------------------------------------------------------

  /** The writes that each store call of one call found, and how these store calls ended. */
  datatype Trail = Trail(seen: seq<Write>, read: Outcome, before: seq<Write>, put: Outcome,
    between: seq<Write>, expire: Outcome, late: seq<Write>, del: Outcome)

  datatype Request = Request(key: string, text: string, ttl: int, readAt: int, setAt: int, expireAt: int, delAt: int)

  /** What is in the store after the key was set, and after it was given its expiry time. */
  function AfterSet(t: Trail, q: Request): seq<Write> {
    if t.put.Applied() then t.before + [Write(q.key, None)] else t.before
  }

  function AfterExpire(t: Trail, q: Request): seq<Write> {
    if t.expire.Applied() then Limited(t.between, q.key, Seconds(q.ttl), q.expireAt) else t.between
  }

  function AfterDel(t: Trail, q: Request): seq<Write> {
    if t.del.Applied() then t.late + [Write(q.key, Some(q.delAt))] else t.late
  }

  predicate Finds(t: Trail, q: Request) {
    t.read.Done? && Remembered(t.seen, q.key, q.readAt)
  }

  /** The store calls that one call makes. */
  function Makes(t: Trail, q: Request, me: nat, value: Option<string>): seq<Call> {
    [GetCall(me, q.key, q.readAt, value, t.read)] + if Finds(t, q) then [] else Takes(t, q, me)
  }

  /** Those that follow a look-up in vain. */
  function Takes(t: Trail, q: Request, me: nat): seq<Call> {
    var put, expire := SetCall(me, q.key, q.setAt, q.text, 0, t.put),
      ExpireCall(me, q.key, q.expireAt, Seconds(q.ttl), t.expire);
    if t.put.Errs() || q.ttl <= 0 then [put]
    else if t.expire.Done? then [put, expire]
    else [put, expire, DelCall(me, q.key, q.delAt, t.del)]
  }

  /** The result of a call and the writes it leaves, however its store calls end and whatever other
      clients write in between. */
  predicate Follows(t: Trail, q: Request, r: Result<bool>, after: seq<Write>) {
    t.seen <= t.before &&
    if Finds(t, q) then r == Ok(false) && after == t.seen
    else if t.put.Errs() then r == Err(StoreFailed) && after == AfterSet(t, q)
    else if q.ttl <= 0 then r == Ok(true) && after == AfterSet(t, q)
    else
      AfterSet(t, q) <= t.between &&
      if t.expire.Done? then r == Ok(true) && after == AfterExpire(t, q)
      else AfterExpire(t, q) <= t.late && r == Err(StoreFailed) && after == AfterDel(t, q)
  }

  /** Nobody else writes between the store calls that the call makes. */
  predicate Alone(t: Trail, q: Request) {
    || Finds(t, q)
    || (&& t.before == t.seen
        && (t.put.Done? && q.ttl > 0 ==>
              t.between == AfterSet(t, q) && (t.expire.Errs() ==> t.late == AfterExpire(t, q))))
  }

  /** The part of a trail that concerns the expiry time. */
  datatype Bounding = Bounding(between: seq<Write>, expire: Outcome, late: seq<Write>, del: Outcome)

  predicate Bounds(e: Bounding, key: string, seconds: int, expireAt: int, delAt: int, ok: bool, after: seq<Write>) {
    var limited := if e.expire.Applied() then Limited(e.between, key, seconds, expireAt) else e.between;
    if e.expire.Done? then ok && after == limited
    else !ok && limited <= e.late && after == if e.del.Applied() then e.late + [Write(key, Some(delAt))] else e.late
  }

  class IdempotencyService {
    const redis: Keys

    constructor (redis: Keys)
      ensures this.redis == redis
    {
      this.redis := redis;
    }

    /** The store calls, the result, and the writes left behind, however each of the store calls ends. */
    method CheckAndSet(ghost me: nat, key: string, id: string, ttl: int, readAt: int, setAt: int, expireAt: int,
        delAt: int)
      returns (r: Result<bool>, ghost t: Trail, ghost value: Option<string>)
      requires redis.Valid() && redis.latest <= readAt <= setAt <= expireAt <= delAt && id != ""
      modifies redis
      ensures redis.Valid() && redis.latest <= delAt && old(redis.writes) <= t.seen
      ensures
        var q := Request("idempotency:" + key, id, ttl, readAt, setAt, expireAt, delAt);
        && Follows(t, q, r, redis.writes)
        && CallsOf(redis.calls, me) == old(CallsOf(redis.calls, me)) + Makes(t, q, me, value)
    {
      var combinedKey := "idempotency:" + key;
      var existing, read;
      ghost var seen;
      existing, read, seen := ReadKey(me, combinedKey, readAt);
      value := existing;
      if existing.Some? && existing.value != "" {
        return Ok(false), Trail(seen, read, seen, Done, seen, Done, seen, Done), value;
      }
      r, t := TakeKey(me, combinedKey, id, ttl, setAt, expireAt, delAt, readAt, seen, read);
    }

    /** Sets the key and gives it its expiry time. */
    method TakeKey(ghost me: nat, key: string, id: string, ttl: int, setAt: int, expireAt: int, delAt: int,
        ghost readAt: int, ghost seen: seq<Write>, ghost read: Outcome)
      returns (r: Result<bool>, ghost t: Trail)
      requires redis.Valid() && redis.latest <= setAt <= expireAt <= delAt && id != ""
      requires redis.writes == seen && (read.Done? ==> !Remembered(seen, key, readAt))
      modifies redis
      ensures redis.Valid() && redis.latest <= delAt && t.seen == seen && t.read == read
      ensures
        var q := Request(key, id, ttl, readAt, setAt, expireAt, delAt);
        && Follows(t, q, r, redis.writes)
        && CallsOf(redis.calls, me) == old(CallsOf(redis.calls, me)) + Takes(t, q, me)
    {
      var put;
      ghost var before;
      put, before := SetKey(me, key, id, setAt);
      t := Trail(seen, read, before, put, before, Done, before, Done);
      if put.Errs() {
        return Err(StoreFailed), t;
      }
      if ttl > 0 {
        var ok;
        ghost var e;
        ok, e := BoundKey(me, key, Seconds(ttl), expireAt, delAt);
        return if ok then Ok(true) else Err(StoreFailed),
          t.(between := e.between, expire := e.expire, late := e.late, del := e.del);
      }
      return Ok(true), t;
    }

    /** Gives the key its expiry time, and removes it if that reports an error. */
    method BoundKey(ghost me: nat, key: string, seconds: int, expireAt: int, delAt: int)
      returns (ok: bool, ghost e: Bounding)
      requires redis.Valid() && redis.latest <= expireAt <= delAt
      modifies redis
      ensures redis.Valid() && redis.latest <= delAt && old(redis.writes) <= e.between
      ensures Bounds(e, key, seconds, expireAt, delAt, ok, redis.writes)
      ensures CallsOf(redis.calls, me) == old(CallsOf(redis.calls, me))
        + [ExpireCall(me, key, expireAt, seconds, e.expire)] + if ok then [] else [DelCall(me, key, delAt, e.del)]
    {
      var expire;
      ghost var between;
      expire, between := LimitKey(me, key, seconds, expireAt);
      e := Bounding(between, expire, between, Done);
      if expire.Errs() {
        var del;
        ghost var late;
        del, late := DropKey(me, key, delAt);
        return false, e.(late := late, del := del);
      }
      return true, e;
    }

    method ReadKey(ghost me: nat, key: string, now: int)
      returns (value: Option<string>, out: Outcome, ghost seen: seq<Write>)
      requires redis.Valid() && redis.latest <= now
      modifies redis
      ensures redis.Valid() && redis.latest <= now && old(redis.writes) <= seen == redis.writes
      ensures CallsOf(redis.calls, me) == old(CallsOf(redis.calls, me)) + [GetCall(me, key, now, value, out)]
      ensures out.Done? ==> (value.Some? && value.value != "" <==> Remembered(seen, key, now))
      ensures out.Errs() ==> value == None
    {
      redis.Others(me, now);
      seen := redis.writes;
      value, out := redis.Get(me, key, now);
      CallsOfSnoc(redis.calls[..|redis.calls| - 1], GetCall(me, key, now, value, out), me);
    }

    method SetKey(ghost me: nat, key: string, id: string, now: int) returns (out: Outcome, ghost before: seq<Write>)
      requires redis.Valid() && redis.latest <= now && id != ""
      modifies redis
      ensures redis.Valid() && redis.latest == now && old(redis.writes) <= before
      ensures CallsOf(redis.calls, me) == old(CallsOf(redis.calls, me)) + [SetCall(me, key, now, id, 0, out)]
      ensures redis.writes == if out.Applied() then before + [Write(key, None)] else before
    {
      redis.Others(me, now);
      before := redis.writes;
      out := redis.Set(me, key, id, now);
      CallsOfSnoc(redis.calls[..|redis.calls| - 1], SetCall(me, key, now, id, 0, out), me);
    }

    method LimitKey(ghost me: nat, key: string, seconds: int, now: int)
      returns (out: Outcome, ghost between: seq<Write>)
      requires redis.Valid() && redis.latest <= now
      modifies redis
      ensures redis.Valid() && redis.latest == now && old(redis.writes) <= between
      ensures CallsOf(redis.calls, me) == old(CallsOf(redis.calls, me)) + [ExpireCall(me, key, now, seconds, out)]
      ensures redis.writes == if out.Applied() then Limited(between, key, seconds, now) else between
    {
      redis.Others(me, now);
      between := redis.writes;
      out := redis.Expire(me, key, seconds, now);
      CallsOfSnoc(redis.calls[..|redis.calls| - 1], ExpireCall(me, key, now, seconds, out), me);
    }

    method DropKey(ghost me: nat, key: string, now: int) returns (out: Outcome, ghost late: seq<Write>)
      requires redis.Valid() && redis.latest <= now
      modifies redis
      ensures redis.Valid() && redis.latest == now && old(redis.writes) <= late
      ensures CallsOf(redis.calls, me) == old(CallsOf(redis.calls, me)) + [DelCall(me, key, now, out)]
      ensures redis.writes == if out.Applied() then late + [Write(key, Some(now))] else late
    {
      redis.Others(me, now);
      late := redis.writes;
      out := redis.Del(me, key, now);
      CallsOfSnoc(redis.calls[..|redis.calls| - 1], DelCall(me, key, now, out), me);
    }
  }

  /** For how long a taken key is remembered: for good if no time is given, otherwise for the whole
      seconds in it, which may be none. */
  function Taken(key: string, ttl: int, at: int): Write {
    Write(key, if ttl > 0 then Some(at + Seconds(ttl) * 1000) else None)
  }

  /** A taken key is remembered at all exactly if the time given is not positive or at least a second; it
      is remembered for good if it is not positive, and else for the whole seconds in it. */
  lemma TakenIsRemembered(key: string, ttl: int, at: int)
    ensures Unexpired(Taken(key, ttl, at).expiry, at) <==> ttl <= 0 || ttl >= 1_000_000_000
    ensures Taken(key, ttl, at).key == key && (Taken(key, ttl, at).expiry.None? <==> ttl <= 0)
    ensures ttl > 0 ==>
      var e := Taken(key, ttl, at).expiry.value;
      (e - at) % 1000 == 0 && (e - at) * 1_000_000 <= ttl < (e - at) * 1_000_000 + 1_000_000_000
  {}

  /** A call that runs alone and without errors takes the key exactly if it is not remembered, and
      then it is remembered as `Taken` says, and nothing else has changed. */
  lemma CleanCall(t: Trail, q: Request, r: Result<bool>, after: seq<Write>, key: string, now: int)
    requires Follows(t, q, r, after) && Alone(t, q) && t.read.Done? && r.Ok?
    ensures r == Ok(!Remembered(t.seen, q.key, q.readAt))
    ensures Remembered(after, key, now) <==>
      if r == Ok(true) && key == q.key then Unexpired(Taken(q.key, q.ttl, q.expireAt).expiry, now)
      else Remembered(t.seen, key, now)
  {
    var put := Write(q.key, None);
    RememberedSnoc(t.before, put, q.key, q.expireAt);
    RememberedSnoc(t.before, put, key, now);
    RememberedSnoc(t.before + [put], Write(q.key, Some(q.expireAt + Seconds(q.ttl) * 1000)), key, now);
  }

  /** What a call that runs alone and ends in an error leaves behind: nothing if its SET had no effect;
      otherwise the key, for good if its SET was reported as failed or neither EXPIRE nor DEL had an
      effect, for the time given if EXPIRE had one and DEL had none, and not at all if DEL had one. */
  lemma FailedCallLeaves(t: Trail, q: Request, r: Result<bool>, after: seq<Write>, now: int)
    requires Follows(t, q, r, after) && Alone(t, q) && r.Err? && now >= q.delAt
    ensures t.put.Refused? ==> after == t.seen
    ensures !t.put.Refused? ==>
      (Remembered(after, q.key, now) <==>
        || t.put.Lost?
        || (t.del.Refused? && (t.expire.Refused? || Unexpired(Taken(q.key, q.ttl, q.expireAt).expiry, now))))
  {
    var put := Write(q.key, None);
    RememberedSnoc(t.before, put, q.key, q.expireAt);
    RememberedSnoc(t.before, put, q.key, now);
    RememberedSnoc(t.between, Write(q.key, Some(q.expireAt + Seconds(q.ttl) * 1000)), q.key, now);
    RememberedSnoc(t.late, Write(q.key, Some(q.delAt)), q.key, now);
  }

  // ----- concurrent calls -------------------------------------------------------------------------

  /** One store call of any number of callers: looking a key up, or a write. */
  datatype Event = Look(call: nat, key: string, at: int) | Put(call: nat, write: Write, at: int)

  /** The writes among the events. */
  function Writes(events: seq<Event>): seq<Write> {
    if |events| == 0 then []
    else
      var before, e := Writes(events[..|events| - 1]), events[|events| - 1];
      if e.Put? then before + [e.write] else before
  }

  /** Under a clock that does not run backwards. */
  ghost predicate InOrder(events: seq<Event>) {
    forall i, j | 0 <= i < j < |events| :: events[i].at <= events[j].at
  }

  /** Event `i` looks the key up and finds it. */
  predicate Found(events: seq<Event>, i: nat)
    requires i < |events| && events[i].Look?
  {
    Remembered(Writes(events[..i]), events[i].key, events[i].at)
  }

  predicate Puts(e: Event, key: string) {
    e.Put? && e.write.key == key
  }

  predicate Unwritten(events: seq<Event>, i: nat, j: nat, key: string)
    requires j <= |events|
  {
    forall k | i <= k < j :: !Puts(events[k], key)
  }

  /** Event `p` is the last write of the key before event `j`. */
  predicate LastPut(events: seq<Event>, p: nat, j: nat, key: string)
    requires j <= |events|
  {
    p < j && Puts(events[p], key) && Unwritten(events, p + 1, j, key)
  }

  lemma WritesSnoc(events: seq<Event>, j: nat)
    requires j < |events|
    ensures Writes(events[..j + 1])
      == if events[j].Put? then Writes(events[..j]) + [events[j].write] else Writes(events[..j])
  {
    assert events[..j + 1][..j] == events[..j];
  }

  lemma RememberedNext(events: seq<Event>, j: nat, key: string, now: int)
    requires j < |events|
    ensures Remembered(Writes(events[..j + 1]), key, now) <==>
      if Puts(events[j], key) then Unexpired(events[j].write.expiry, now) else Remembered(Writes(events[..j]), key, now)
  {
    WritesSnoc(events, j);
    if events[j].Put? {
      RememberedSnoc(Writes(events[..j]), events[j].write, key, now);
    }
  }

  /** Whether a key is remembered depends on the writes since an earlier moment, and only without
      any on that moment. */
  lemma {:induction false} RememberedSince(events: seq<Event>, i: nat, j: nat, key: string, now: int)
    requires i <= j <= |events|
    ensures Unwritten(events, i, j, key) ==>
      (Remembered(Writes(events[..j]), key, now) <==> Remembered(Writes(events[..i]), key, now))
    ensures forall p: nat | i <= p && LastPut(events, p, j, key) ::
      Remembered(Writes(events[..j]), key, now) <==> Unexpired(events[p].write.expiry, now)
    ensures !Unwritten(events, i, j, key) ==> exists p: nat | i <= p :: LastPut(events, p, j, key)
    decreases j
  {
    if i < j {
      var h := j - 1;
      RememberedSince(events, i, h, key, now);
      RememberedNext(events, h, key, now);
      if Puts(events[h], key) {
        assert LastPut(events, h, j, key);
      } else {
        assert Unwritten(events, i, h, key) ==> Unwritten(events, i, j, key);
        if p: nat :| i <= p && LastPut(events, p, h, key) {
          assert LastPut(events, p, j, key);
        }
      }
    }
  }

  /** What is no longer remembered stays so until it is written again. */
  lemma {:induction false} StaysForgotten(writes: seq<Write>, key: string, now: int, later: int)
    requires now <= later && Remembered(writes, key, later)
    ensures Remembered(writes, key, now)
    decreases |writes|
  {
    var n := |writes| - 1;
    if writes[n].key != key {
      StaysForgotten(writes[..n], key, now, later);
    }
  }

  /** Two calls look up the same key, the first in vain. The second does so in vain as well, so that
      both go on to take the key, exactly if since the first look nobody has written the key or its
      last write has expired by then. */
  lemma BothTakeIff(events: seq<Event>, i: nat, j: nat)
    requires InOrder(events) && i < j < |events| && events[i].Look? && events[j].Look?
    requires events[i].key == events[j].key && !Found(events, i)
    ensures !Found(events, j) <==>
      || Unwritten(events, i, j, events[j].key)
      || exists p: nat | i <= p ::
           LastPut(events, p, j, events[j].key) && !Unexpired(events[p].write.expiry, events[j].at)
  {
    var key, now := events[j].key, events[j].at;
    RememberedSince(events, i, j, key, now);
    if Unwritten(events, i, j, key) && Found(events, j) {
      StaysForgotten(Writes(events[..i]), key, events[i].at, now);
    }
  }

  /** Calls that take a key mark it without an expiry time first. So a call that looks the key up
      after the other has set it, and before the key is written again, finds it: two calls can both
      take a key only if each looks it up before the other sets it or the key is written once more. */
  lemma SetIsFound(events: seq<Event>, s: nat, j: nat)
    requires s < j < |events| && events[j].Look?
    requires events[s] == Put(events[s].call, Write(events[j].key, None), events[s].at)
    ensures Unwritten(events, s + 1, j, events[j].key) ==> Found(events, j)
  {
    RememberedSince(events, s, j, events[j].key, events[j].at);
    if Unwritten(events, s + 1, j, events[j].key) {
      assert LastPut(events, s, j, events[j].key);
    }
  }

  // ----- marks of one window ----------------------------------------------------------------------

  /** Every write marks a key for the same number of seconds, as deduplication does. */
  ghost predicate Uniform(events: seq<Event>, seconds: int) {
    forall i | 0 <= i < |events| && events[i].Put? :: events[i].write.expiry == ExpiryAfter(seconds, events[i].at)
  }

  /** Event `i` marks the key, and the mark counts until after `now`. */
  predicate Marks(events: seq<Event>, i: nat, key: string, now: int)
    requires i < |events|
  {
    Puts(events[i], key) && Unexpired(events[i].write.expiry, now)
  }

  /** However calls interleave, a call finds its key exactly if some call marked it before, less
      than the effective expiry time ago. */
  lemma FoundIffMarked(events: seq<Event>, seconds: int, j: nat)
    requires InOrder(events) && Uniform(events, seconds) && j < |events| && events[j].Look?
    ensures Found(events, j) <==> exists i: nat | i < j :: Marks(events, i, events[j].key, events[j].at)
  {
    var key, now := events[j].key, events[j].at;
    RememberedSince(events, 0, j, key, now);
    assert events[..0] == [];
    if p: nat :| LastPut(events, p, j, key) {
      assert Found(events, j) <==> Marks(events, p, key, now);
      forall i: nat | i < j && Marks(events, i, key, now)
        ensures Marks(events, p, key, now)
      {
        assert !(p + 1 <= i < j);
        assert i == p || events[i].at <= events[p].at;
      }
    }
  }

  /** Every write is the mark of a message; `who` names it. */
  ghost predicate MarkedFor(engine: ExactlyOnceEngine, events: seq<Event>, who: seq<K.Identity>) {
    && |who| == |events|
    && forall i | 0 <= i < |events| && events[i].Put? :: events[i].write == engine.MarkOf(who[i], events[i].at)
  }

  /** A message alike was marked at event `i`, and the mark counts until after `now`. */
  predicate MarkedAlike(events: seq<Event>, who: seq<K.Identity>, i: nat, m: K.Identity, seconds: int, now: int)
    requires i < |events| == |who|
  {
    events[i].Put? && Alike(who[i], m) && Unexpired(ExpiryAfter(seconds, events[i].at), now)
  }

  /** In terms of messages: with a hash that differs on different texts, a message counts as a duplicate
      exactly if one alike was marked less than the effective expiry time ago. */
  lemma FoundIffAlike(engine: ExactlyOnceEngine, events: seq<Event>, who: seq<K.Identity>, j: nat, m: K.Identity)
    requires Separates(engine.hash) && InOrder(events) && MarkedFor(engine, events, who)
    requires j < |events| && events[j].Look? && events[j].key == engine.KeyOf(m)
    ensures Found(events, j) <==>
      exists i: nat | i < j :: MarkedAlike(events, who, i, m, MarkSeconds(engine.window), events[j].at)
  {
    var seconds, now := MarkSeconds(engine.window), events[j].at;
    FoundIffMarked(events, seconds, j);
    forall i: nat | i < j
      ensures Marks(events, i, engine.KeyOf(m), now) <==> MarkedAlike(events, who, i, m, seconds, now)
    {
      engine.KeyIff(who[i], m, "");
    }
  }

  /** A call that looked its key up in vain at `check` and marked it at `mark`. */
  predicate Accepts(events: seq<Event>, check: nat, mark: nat, key: string) {
    && check < mark < |events| && events[check].call == events[mark].call
    && events[check].Look? && events[check].key == key && !Found(events, check)
    && Puts(events[mark], key)
  }

  /** Two calls that accept the same key, each looking it up within the expiry time of the other's
      mark, have overlapped: each looked it up before the other had marked it. */
  lemma AcceptedTwiceOverlapped(events: seq<Event>, seconds: int, c: nat, m: nat, d: nat, n: nat, key: string)
    requires InOrder(events) && Uniform(events, seconds)
    requires Accepts(events, c, m, key) && Accepts(events, d, n, key)
    requires Unexpired(ExpiryAfter(seconds, events[m].at), events[d].at)
    requires Unexpired(ExpiryAfter(seconds, events[n].at), events[c].at)
    ensures c < n && d < m
  {
    FoundIffMarked(events, seconds, c);
    FoundIffMarked(events, seconds, d);
    if n < c {
      assert Marks(events, n, key, events[c].at);
    }
    if m < d {
      assert Marks(events, m, key, events[d].at);
    }
  }

  /** Two calls that both look the key up before either marks it do both accept it. */
  lemma OverlappedAcceptTwice(key: string, seconds: int, at: int) returns (events: seq<Event>)
    ensures InOrder(events) && Uniform(events, seconds)
    ensures Accepts(events, 0, 2, key) && Accepts(events, 1, 3, key) && events[0].call != events[1].call
  {
    var w := Write(key, ExpiryAfter(seconds, at));
    events := [Look(0, key, at), Look(1, key, at), Put(0, w, at), Put(1, w, at)];
    assert !Found(events, 0);
    WritesSnoc(events, 0);
    assert !Found(events, 1);
  }
}
