/** The fixed-window rate limiter: counters in a store whose keys expire and which any number of gateways
    share, against plain counters that never expire. */
module RateLimit {
  import opened Model
  import Keys

  // ----- the counter store ------------------------------------------------------------------------

  /** A counter and the time, in milliseconds, from which it no longer exists. */
  datatype Cell = Cell(count: nat, expiry: Option<int>)

  predicate Live(cells: map<string, Cell>, key: string, now: int) {
    key in cells && (cells[key].expiry.Some? ==> now < cells[key].expiry.value)
  }

  function CountAt(cells: map<string, Cell>, key: string, now: int): nat {
    if Live(cells, key, now) then cells[key].count else 0
  }

  /** INCR: a key that has expired starts again, without an expiry time. */
  function Incremented(cells: map<string, Cell>, key: string, now: int): map<string, Cell> {
    if Live(cells, key, now) then cells[key := cells[key].(count := cells[key].count + 1)]
    else cells[key := Cell(1, None)]
  }

  function Expiring(cells: map<string, Cell>, key: string, seconds: int, now: int): map<string, Cell> {
    if Live(cells, key, now) then cells[key := cells[key].(expiry := Some(now + seconds * 1000))] else cells
  }

  // ----- requests and plain counters --------------------------------------------------------------

  datatype Client = Client(tenant: Uuid, agent: Uuid, route: string)

  /** A request that reached the counter store, `out` being what its increment did. */
  datatype Request = Request(at: nat, client: Client, out: Outcome)

  /** The number of the window, `width` seconds wide, that a time in milliseconds falls into. */
  function Slot(at: nat, width: nat): nat
    requires width > 0
  {
    at / 1000 / width
  }

  /** The plain counter: how many requests of the client in that window have been counted. */
  function Counted(h: seq<Request>, width: nat, c: Client, slot: nat): nat
    requires width > 0
  {
    if |h| == 0 then 0
    else
      var r := h[|h| - 1];
      Counted(h[..|h| - 1], width, c, slot)
        + if r.client == c && Slot(r.at, width) == slot && r.out.Applied() then 1 else 0
  }

  datatype Verdict =
    | Unlimited                               // let through without being counted
    | Admitted(remaining: nat)
    | Rejected(remaining: nat, retryAfter: nat)

  function Remaining(limit: nat, count: nat): nat {
    if count > limit then 0 else limit - count
  }

  /** What the plain counters say about the last request of a history. */
  function PlainVerdict(h: seq<Request>, limit: nat, width: nat): Verdict
    requires |h| > 0 && width > 0
  {
    var r := h[|h| - 1];
    var count := Counted(h, width, r.client, Slot(r.at, width));
    if r.out.Errs() then Unlimited
    else if count > limit then Rejected(Remaining(limit, count), width)
    else Admitted(Remaining(limit, count))
  }

  // ----- what a verdict says ----------------------------------------------------------------------

  /** The number that comes with an admission and the requests counted so far in the window make up the
      limit; with a rejection it is none, and the window is the time to wait. Nothing is said about a
      request whose increment reported an error. */
  predicate Reports(v: Verdict, h: seq<Request>, limit: nat, width: nat)
    requires |h| > 0 && width > 0
  {
    var r := h[|h| - 1];
    var count := Counted(h, width, r.client, r.at / 1000 / width);
    && (v.Unlimited? <==> r.out.Errs())
    && (v.Admitted? <==> r.out.Done? && count <= limit)
    && (v.Admitted? ==> v.remaining + count == limit)
    && (v.Rejected? ==> v.remaining == 0 && v.retryAfter == width)
  }

  lemma VerdictReports(h: seq<Request>, limit: nat, width: nat)
    requires |h| > 0 && width > 0
    ensures Reports(PlainVerdict(h, limit, width), h, limit, width)
  {}

  lemma {:induction false} CountedAppend(h: seq<Request>, more: seq<Request>, width: nat, c: Client, slot: nat)
    requires width > 0
    ensures Counted(h + more, width, c, slot) == Counted(h, width, c, slot) + Counted(more, width, c, slot)
    decreases |more|
  {
    if |more| == 0 {
      assert h + more == h;
    } else {
      var last := more[|more| - 1];
      assert h + more == (h + more[..|more| - 1]) + [last] && more == more[..|more| - 1] + [last];
      CountedAppend(h, more[..|more| - 1], width, c, slot);
      CountedSnoc(h + more[..|more| - 1], width, last, c, slot);
      CountedSnoc(more[..|more| - 1], width, last, c, slot);
    }
  }

  /** An admission says how many more: whatever else happens, a later error-free request of the client in
      the same window is admitted exactly if no more than `remaining` have been counted since. */
  lemma RemainingIsExact(h: seq<Request>, more: seq<Request>, limit: nat, width: nat)
    requires |h| > 0 && |more| > 0 && width > 0 && PlainVerdict(h, limit, width).Admitted?
    requires more[|more| - 1].client == h[|h| - 1].client && more[|more| - 1].out.Done?
    requires Slot(more[|more| - 1].at, width) == Slot(h[|h| - 1].at, width)
    ensures
      var r := h[|h| - 1];
      PlainVerdict(h + more, limit, width).Admitted? <==>
        Counted(more, width, r.client, Slot(r.at, width)) <= PlainVerdict(h, limit, width).remaining
  {
    var r := h[|h| - 1];
    assert (h + more)[|h + more| - 1] == more[|more| - 1];
    CountedAppend(h, more, width, r.client, Slot(r.at, width));
  }

  // ----- the store agrees with the plain counters -------------------------------------------------

  function KeyOf(c: Client, slot: nat): string {
    Keys.RateLimitKey(c.tenant, c.agent, c.route, slot)
  }

  function Latest(h: seq<Request>): nat {
    if |h| == 0 then 0 else h[|h| - 1].at
  }

  predicate Ordered(h: seq<Request>) {
    forall i, j | 0 <= i < j < |h| :: h[i].at <= h[j].at
  }

  /** A key whose window is not over holds the plain count, and does not expire before its window ends. */
  predicate CellAgrees(cells: map<string, Cell>, h: seq<Request>, width: nat, c: Client, slot: nat)
    requires width > 0
  {
    var key := KeyOf(c, slot);
    && (key in cells <==> Counted(h, width, c, slot) > 0)
    && (key in cells ==> cells[key].count == Counted(h, width, c, slot))
    && (key in cells && cells[key].expiry.Some? ==> cells[key].expiry.value >= (slot + 1) * width * 1000)
  }

  ghost predicate Agrees(cells: map<string, Cell>, h: seq<Request>, width: nat)
    requires width > 0
  {
    forall c: Client, slot: nat | slot >= Slot(Latest(h), width) :: CellAgrees(cells, h, width, c, slot)
  }

  lemma SameKeySameCounter(c: Client, slot: nat, d: Client, n: nat)
    requires KeyOf(c, slot) == KeyOf(d, n)
    ensures c == d && slot == n
  {
    Keys.RateLimitKeyInjective(c.tenant, c.agent, c.route, slot, d.tenant, d.agent, d.route, n);
  }

  lemma SlotEnds(at: nat, width: nat)
    requires width > 0
    ensures at < (Slot(at, width) + 1) * width * 1000 <= at + width * 1000
  {
    var s := at / 1000;
    assert s < (s / width + 1) * width <= s + width;
  }

  lemma SmallerFactor(x: int, y: int, k: int)
    requires k > 0 && x * k < y * k
    ensures x < y
  {}

  lemma SlotMonotone(a: nat, b: nat, width: nat)
    requires a <= b && width > 0
    ensures Slot(a, width) <= Slot(b, width)
  {
    var s, t := a / 1000, b / 1000;
    assert s / width * width <= s <= t < (t / width + 1) * width;
    SmallerFactor(s / width, t / width + 1, width);
  }

  /** In a slot that has not begun, nothing has been counted. */
  lemma {:induction false} FutureIsEmpty(h: seq<Request>, width: nat, c: Client, slot: nat, now: nat)
    requires width > 0 && slot > Slot(now, width) && forall i | 0 <= i < |h| :: h[i].at <= now
    ensures Counted(h, width, c, slot) == 0
  {
    if |h| > 0 {
      SlotMonotone(h[|h| - 1].at, now, width);
      FutureIsEmpty(h[..|h| - 1], width, c, slot, now);
    }
  }

  lemma CountedSnoc(h: seq<Request>, width: nat, r: Request, c: Client, slot: nat)
    requires width > 0
    ensures Counted(h + [r], width, c, slot)
      == Counted(h, width, c, slot) + if r.client == c && Slot(r.at, width) == slot && r.out.Applied() then 1 else 0
  {
    assert (h + [r])[..|h|] == h;
  }

  /** What the store has counted for the current window is the plain count: no key of it has expired. */
  lemma CurrentIsLive(cells: map<string, Cell>, h: seq<Request>, width: nat, c: Client, now: nat)
    requires width > 0 && Agrees(cells, h, width) && Latest(h) <= now
    ensures CountAt(cells, KeyOf(c, Slot(now, width)), now) == Counted(h, width, c, Slot(now, width))
    ensures KeyOf(c, Slot(now, width)) in cells ==> Live(cells, KeyOf(c, Slot(now, width)), now)
  {
    SlotMonotone(Latest(h), now, width);
    assert CellAgrees(cells, h, width, c, Slot(now, width));
    SlotEnds(now, width);
  }

  /** The store after the increment of a request. */
  function Counting(cells: map<string, Cell>, r: Request, width: nat): map<string, Cell>
    requires width > 0
  {
    if r.out.Applied() then Incremented(cells, KeyOf(r.client, Slot(r.at, width)), r.at) else cells
  }

  lemma CellStaysCounted(cells: map<string, Cell>, h: seq<Request>, r: Request, width: nat, c: Client, slot: nat)
    requires width > 0 && CellAgrees(cells, h, width, c, slot)
    requires c == r.client && slot == Slot(r.at, width) ==>
      KeyOf(c, slot) in cells ==> Live(cells, KeyOf(c, slot), r.at)
    ensures CellAgrees(Counting(cells, r, width), h + [r], width, c, slot)
  {
    CountedSnoc(h, width, r, c, slot);
    if KeyOf(c, slot) == KeyOf(r.client, Slot(r.at, width)) {
      SameKeySameCounter(c, slot, r.client, Slot(r.at, width));
    }
  }

  /** The increment of any request of any gateway keeps the agreement, and finds the plain count. */
  lemma IncrementKeepsAgreement(cells: map<string, Cell>, h: seq<Request>, r: Request, width: nat)
    requires width > 0 && Agrees(cells, h, width) && Latest(h) <= r.at
    ensures Agrees(Counting(cells, r, width), h + [r], width)
    ensures r.out.Applied() ==>
      Counted(h + [r], width, r.client, Slot(r.at, width))
        == CountAt(cells, KeyOf(r.client, Slot(r.at, width)), r.at) + 1
  {
    CurrentIsLive(cells, h, width, r.client, r.at);
    CountedSnoc(h, width, r, r.client, Slot(r.at, width));
    SlotMonotone(Latest(h), r.at, width);
    forall c: Client, slot: nat | slot >= Slot(r.at, width)
      ensures CellAgrees(Counting(cells, r, width), h + [r], width, c, slot)
    {
      CellStaysCounted(cells, h, r, width, c, slot);
    }
  }

  lemma EndsBy(slot: nat, width: nat, now: nat)
    requires width > 0 && slot <= Slot(now, width)
    ensures (slot + 1) * width * 1000 <= now + width * 1000
  {
    SlotEnds(now, width);
    assert (slot + 1) * width <= (Slot(now, width) + 1) * width;
  }

  /** The EXPIRE of any request keeps the agreement, however late it comes. */
  lemma ExpiryKeepsAgreement(cells: map<string, Cell>, h: seq<Request>, width: nat, c: Client, slot: nat, now: nat)
    requires width > 0 && Agrees(cells, h, width) && slot <= Slot(now, width)
    ensures Agrees(Expiring(cells, KeyOf(c, slot), width, now), h, width)
  {
    EndsBy(slot, width, now);
    forall d: Client, n: nat | n >= Slot(Latest(h), width)
      ensures CellAgrees(Expiring(cells, KeyOf(c, slot), width, now), h, width, d, n)
    {
      assert CellAgrees(cells, h, width, d, n);
      if KeyOf(d, n) == KeyOf(c, slot) {
        SameKeySameCounter(d, n, c, slot);
      }
    }
  }

  // ----- the shared store -------------------------------------------------------------------------

  /** A call of one of the gateways. */
  datatype Call =
    | IncrCall(gateway: nat, key: string, at: nat, out: Outcome, count: nat)
    | ExpireCall(gateway: nat, key: string, seconds: int, at: nat, out: Outcome)

  /** The calls of one gateway. */
  function CallsOf(calls: seq<Call>, me: nat): seq<Call> {
    if |calls| == 0 then []
    else
      var last := calls[|calls| - 1];
      CallsOf(calls[..|calls| - 1], me) + if last.gateway == me then [last] else []
  }

  lemma CallsOfSnoc(calls: seq<Call>, last: Call, me: nat)
    ensures CallsOf(calls + [last], me) == CallsOf(calls, me) + if last.gateway == me then [last] else []
  {
    assert (calls + [last])[..|calls|] == calls;
  }

  /** What a request that is counted asks of the store: an increment and, if it is the first of its
      window, an expiry time of one window. */
  function Asks(me: nat, key: string, at: nat, out: Outcome, count: nat, width: nat, later: nat, expire: Outcome)
    : seq<Call>
  {
    [IncrCall(me, key, at, out, count)]
      + if out.Done? && count == 1 then [ExpireCall(me, key, width, later, expire)] else []
  }

  /** The counters, and the requests of all gateways that they have seen. The gateways share one
      configured window. */
  class Counters {
    const width: nat
    var cells: map<string, Cell>
    var latest: nat  // its clock at the last call
    ghost var history: seq<Request>
    ghost var calls: seq<Call>

    ghost predicate Valid()
      reads this
    {
      width > 0 && Ordered(history) && Latest(history) <= latest && Agrees(cells, history, width)
    }

    constructor (width: nat, now: nat)
      requires width > 0
      ensures Valid() && this.width == width && cells == map[] && latest == now && history == [] && calls == []
    {
      this.width, cells, latest, history, calls := width, map[], now, [], [];
    }

    method Incr(ghost me: nat, key: string, now: nat) returns (count: nat, out: Outcome)
      modifies this`cells, this`calls
      ensures cells == if out.Applied() then Incremented(old(cells), key, now) else old(cells)
      ensures out.Done? ==> count == CountAt(old(cells), key, now) + 1
      ensures calls == old(calls) + [IncrCall(me, key, now, out, count)]
    {
      out := *;
      count := *;
      if out.Done? {
        count := CountAt(cells, key, now) + 1;
      }
      if out.Applied() {
        cells := Incremented(cells, key, now);
      }
      calls := calls + [IncrCall(me, key, now, out, count)];
    }

    method Expire(ghost me: nat, key: string, seconds: int, now: nat) returns (out: Outcome)
      modifies this`cells, this`calls
      ensures cells == if out.Applied() then Expiring(old(cells), key, seconds, now) else old(cells)
      ensures calls == old(calls) + [ExpireCall(me, key, seconds, now, out)]
    {
      out := *;
      if out.Applied() {
        cells := Expiring(cells, key, seconds, now);
      }
      calls := calls + [ExpireCall(me, key, seconds, now, out)];
    }

    /** The increment of one request. */
    method Count(ghost me: nat, ghost c: Client, ghost slot: nat, key: string, now: nat)
      returns (count: nat, out: Outcome)
      requires Valid() && latest <= now && slot == Slot(now, width) && key == KeyOf(c, slot)
      modifies this
      ensures Valid() && latest == now && history == old(history) + [Request(now, c, out)]
      ensures calls == old(calls) + [IncrCall(me, key, now, out, count)]
      ensures out.Done? ==> count == Counted(history, width, c, slot)
    {
      count, out := Incr(me, key, now);
      ghost var r := Request(now, c, out);
      IncrementKeepsAgreement(old(cells), history, r, width);
      latest, history := now, history + [r];
    }

    /** The EXPIRE of a request that was counted before. */
    method Limit(ghost me: nat, ghost c: Client, ghost slot: nat, key: string, now: nat) returns (out: Outcome)
      requires Valid() && latest <= now && slot <= Slot(now, width) && key == KeyOf(c, slot)
      modifies this
      ensures Valid() && latest == now && history == old(history)
      ensures calls == old(calls) + [ExpireCall(me, key, width, now, out)]
    {
      ExpiryKeepsAgreement(cells, history, width, c, slot, now);
      out := Expire(me, key, width, now);
      latest := now;
    }

    /** One store call of another gateway's request, at most. */
    method OneOther(ghost me: nat, until: nat)
      requires Valid() && latest <= until
      modifies this
      ensures Valid() && latest <= until && old(history) <= history
      ensures CallsOf(calls, me) == old(CallsOf(calls, me))
    {
      var c: Client, slot: nat, now: nat, counts: bool := *, *, *, *;
      ghost var other := me + 1;
      if latest <= now <= until {
        if counts {
          var count, out := Count(other, c, Slot(now, width), KeyOf(c, Slot(now, width)), now);
          CallsOfSnoc(old(calls), calls[|calls| - 1], me);
        } else if slot <= Slot(now, width) {
          var out := Limit(other, c, slot, KeyOf(c, slot), now);
          CallsOfSnoc(old(calls), calls[|calls| - 1], me);
        }
      }
    }

    /** Any store calls of other gateways, up to a given time. */
    method Others(ghost me: nat, until: nat)
      requires Valid() && latest <= until
      modifies this
      ensures Valid() && latest <= until && old(history) <= history
      ensures CallsOf(calls, me) == old(CallsOf(calls, me))
    {
      var n: nat := *;
      while n > 0
        invariant Valid() && latest <= until && old(history) <= history
        invariant CallsOf(calls, me) == old(CallsOf(calls, me))
      {
        OneOther(me, until);
        n := n - 1;
      }
    }
  }

  // ----- the middleware ---------------------------------------------------------------------------

  /** A window in nanoseconds is used in whole seconds; one minute stands in for none. */
  function WindowSeconds(window: int): (w: nat)
    ensures w > 0 && (window < 1_000_000_000 ==> w == 60)
    ensures window >= 1_000_000_000 ==> w * 1_000_000_000 <= window < (w + 1) * 1_000_000_000
  {
    var given := if window <= 0 then 60_000_000_000 else window;
    if given / 1_000_000_000 <= 0 then 60 else given / 1_000_000_000
  }

  class Middleware {
    const store: Counters?
    const limit: nat
    const width: nat

    ghost predicate Valid()
      reads this, store
    {
      width > 0 && (store != null ==> store.Valid() && store.width == width)
    }

    /** A gateway may start at any time, over whatever the others have counted. */
    constructor (store: Counters?, requests: int, window: int)
      requires store != null ==> store.Valid() && store.width == WindowSeconds(window)
      ensures Valid() && this.store == store
      ensures limit == (if requests <= 0 then 600 else requests) && width == WindowSeconds(window)
    {
      this.store := store;
      limit := if requests <= 0 then 600 else requests;
      width := WindowSeconds(window);
    }

    method Judge(count: nat, out: Outcome) returns (v: Verdict)
      ensures v == if out.Errs() then Unlimited
        else if count > limit then Rejected(0, width) else Admitted(limit - count)
    {
      if out.Errs() {
        return Unlimited;
      }
      var remaining: int := limit - count;
      if remaining < 0 {
        remaining := 0;
      }
      if count > limit {
        return Rejected(remaining, width);
      }
      return Admitted(remaining);
    }

    /** Counts a request, and gives its key an expiry time if it is the first of its window. */
    method Ask(ghost me: nat, ghost c: Client, ghost slot: nat, key: string, now: nat, expireAt: nat)
      returns (count: nat, out: Outcome, ghost seen: seq<Request>, ghost limited: Outcome)
      requires Valid() && store != null && store.latest <= now <= expireAt
      requires slot == Slot(now, width) && key == KeyOf(c, slot)
      modifies store
      ensures Valid() && store.latest <= expireAt && old(store.history) < seen <= store.history
      ensures seen[|seen| - 1] == Request(now, c, out)
      ensures out.Done? ==> count == Counted(seen, width, c, slot)
      ensures CallsOf(store.calls, me)
        == old(CallsOf(store.calls, me)) + Asks(me, key, now, out, count, width, expireAt, limited)
    {
      store.Others(me, now);
      ghost var before := store.calls;
      count, out := store.Count(me, c, slot, key, now);
      CallsOfSnoc(before, IncrCall(me, key, now, out, count), me);
      seen, limited := store.history, Done;
      if out.Done? && count == 1 {
        store.Others(me, expireAt);
        SlotMonotone(now, expireAt, width);
        before := store.calls;
        var set' := store.Limit(me, c, slot, key, expireAt);
        limited := set';
        CallsOfSnoc(before, ExpireCall(me, key, width, expireAt, limited), me);
      }
    }

    /** Whatever requests other gateways count before and between the store calls of this one: the
        verdict is that of a plain counter for each client and window that never expires, over the
        requests counted so far (`seen`), and says how many more the window admits. The first request of
        a window gives its key an expiry time. */
    method RateLimit(ghost me: nat, tenant: Option<Uuid>, agent: Option<Uuid>, route: string, now: nat, expireAt: nat)
      returns (v: Verdict, ghost seen: seq<Request>, ghost counted: nat, ghost limited: Outcome)
      requires Valid() && now <= expireAt && (store != null ==> store.latest <= now)
      modifies store
      ensures Valid()
      ensures store == null || agent.None? || tenant.None? ==>
        v == Unlimited && (store != null ==> store.history == old(store.history) && store.calls == old(store.calls))
      ensures store != null && agent.Some? && tenant.Some? ==>
        var c, slot := Client(tenant.value, agent.value, route), now / 1000 / width;
        && store.latest <= expireAt && old(store.history) < seen <= store.history
        && seen[|seen| - 1] == Request(now, c, seen[|seen| - 1].out)
        && v == PlainVerdict(seen, limit, width) && Reports(v, seen, limit, width)
        && CallsOf(store.calls, me) == old(CallsOf(store.calls, me))
             + Asks(me, KeyOf(c, slot), now, seen[|seen| - 1].out, counted, width, expireAt, limited)
    {
      seen, counted, limited := [], 0, Done;
      if store == null {
        v := Unlimited;
        return;
      }
      if agent.None? || tenant.None? {
        v := Unlimited;
        return;
      }
      var slot := now / 1000 / width;
      var key := Keys.RateLimitKey(tenant.value, agent.value, route, slot);

      var count, out;
      count, out, seen, limited := Ask(me, Client(tenant.value, agent.value, route), slot, key, now, expireAt);
      counted := count;
      v := Judge(count, out);
      VerdictReports(seen, limit, width);
    }
  }
}
