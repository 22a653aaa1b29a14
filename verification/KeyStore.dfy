/** Keys with a value and, possibly, a time from which they no longer exist, shared by any number of
    clients. Times are in milliseconds. What the store remembers is a plain function of the writes made
    to it. */
module KeyStore {
  import opened Model

  datatype Cell = Cell(value: string, expiry: Option<int>)

  predicate Unexpired(expiry: Option<int>, now: int) {
    expiry.Some? ==> now < expiry.value
  }

  predicate Live(cells: map<string, Cell>, key: string, now: int) {
    key in cells && Unexpired(cells[key].expiry, now)
  }

  /** An expiry time that is given with a value counts only if it is positive. */
  function ExpiryAfter(seconds: int, now: int): Option<int> {
    if seconds > 0 then Some(now + seconds * 1000) else None
  }

  /** EXPIRE: an expiry time that is not in the future removes the key. */
  function Expiring(cells: map<string, Cell>, key: string, seconds: int, now: int): map<string, Cell> {
    if !Live(cells, key, now) then cells
    else if seconds <= 0 then cells - {key}
    else cells[key := cells[key].(expiry := Some(now + seconds * 1000))]
  }

  // ----- writes -----------------------------------------------------------------------------------

  /** A key was set, its expiry time was changed, or it was removed: `expiry` is the time from which
      this write makes it absent. */
  datatype Write = Write(key: string, expiry: Option<int>)

  /** The last write of a key says whether the key is remembered. */
  predicate Remembered(writes: seq<Write>, key: string, now: int) {
    |writes| > 0 &&
    var w := writes[|writes| - 1];
    if w.key == key then Unexpired(w.expiry, now) else Remembered(writes[..|writes| - 1], key, now)
  }

  lemma RememberedSnoc(writes: seq<Write>, w: Write, key: string, now: int)
    ensures Remembered(writes + [w], key, now) <==>
      if w.key == key then Unexpired(w.expiry, now) else Remembered(writes, key, now)
  {
    assert (writes + [w])[..|writes|] == writes;
  }

  /** From time `from` on, the store holds what the writes say. */
  ghost predicate Agrees(cells: map<string, Cell>, writes: seq<Write>, from: int) {
    forall key: string, now: int | now >= from :: Live(cells, key, now) <==> Remembered(writes, key, now)
  }

  /** A write after which the key is there exactly until its expiry time. */
  lemma WriteAgrees(cells: map<string, Cell>, writes: seq<Write>, from: int, after: map<string, Cell>, w: Write,
      at: int)
    requires Agrees(cells, writes, from) && at >= from
    requires forall key: string, now: int | now >= at ::
      Live(after, key, now) <==> if key == w.key then Unexpired(w.expiry, now) else Live(cells, key, now)
    ensures Agrees(after, writes + [w], at)
  {
    forall key: string, now: int | now >= at
      ensures Live(after, key, now) <==> Remembered(writes + [w], key, now)
    {
      RememberedSnoc(writes, w, key, now);
    }
  }

  /** EXPIRE as a write, if the key is there at all. */
  function Limited(writes: seq<Write>, key: string, seconds: int, now: int): seq<Write> {
    if Remembered(writes, key, now) then writes + [Write(key, Some(now + seconds * 1000))] else writes
  }

  lemma LimitAgrees(cells: map<string, Cell>, writes: seq<Write>, from: int, key: string, seconds: int, at: int)
    requires Agrees(cells, writes, from) && at >= from
    ensures Agrees(Expiring(cells, key, seconds, at), Limited(writes, key, seconds, at), at)
  {
    if Remembered(writes, key, at) {
      WriteAgrees(cells, writes, from, Expiring(cells, key, seconds, at), Write(key, Some(at + seconds * 1000)), at);
    }
  }

  // ----- calls ------------------------------------------------------------------------------------

  /** A call of one of the clients, and its answer. */
  datatype Call =
    | ExistsCall(client: nat, key: string, at: int, found: bool, out: Outcome)
    | GetCall(client: nat, key: string, at: int, value: Option<string>, out: Outcome)
    | SetCall(client: nat, key: string, at: int, text: string, seconds: int, out: Outcome)
    | ExpireCall(client: nat, key: string, at: int, seconds: int, out: Outcome)
    | DelCall(client: nat, key: string, at: int, out: Outcome)

  /** The calls of one client. */
  function CallsOf(calls: seq<Call>, me: nat): seq<Call> {
    if |calls| == 0 then []
    else
      var last := calls[|calls| - 1];
      CallsOf(calls[..|calls| - 1], me) + if last.client == me then [last] else []
  }

  lemma CallsOfSnoc(calls: seq<Call>, last: Call, me: nat)
    ensures CallsOf(calls + [last], me) == CallsOf(calls, me) + if last.client == me then [last] else []
  {
    assert (calls + [last])[..|calls|] == calls;
  }

  // ----- the store --------------------------------------------------------------------------------

  class Keys {
    var cells: map<string, Cell>
    ghost var writes: seq<Write>
    ghost var calls: seq<Call>
    var latest: int  // its clock at the last write

    ghost predicate Valid()
      reads this
    {
      Agrees(cells, writes, latest) && forall key | key in cells :: cells[key].value != ""
    }

    constructor (now: int)
      ensures Valid() && cells == map[] && writes == [] && calls == [] && latest == now
    {
      cells, calls := map[], [];
      writes, latest := [], now;
    }

    method Exists(ghost me: nat, key: string, now: int) returns (found: bool, out: Outcome)
      requires Valid() && latest <= now
      modifies this`calls
      ensures Valid() && calls == old(calls) + [ExistsCall(me, key, now, found, out)]
      ensures out.Done? ==> found == Live(cells, key, now) == Remembered(writes, key, now)
    {
      out, found := *, *;
      if out.Done? {
        found := Live(cells, key, now);
      }
      calls := calls + [ExistsCall(me, key, now, found, out)];
    }

    /** An absent key is reported as an error by the client library. */
    method Get(ghost me: nat, key: string, now: int) returns (value: Option<string>, out: Outcome)
      requires Valid() && latest <= now
      modifies this`calls
      ensures Valid() && calls == old(calls) + [GetCall(me, key, now, value, out)]
      ensures out.Done? ==> value == if Live(cells, key, now) then Some(cells[key].value) else None
      ensures out.Done? ==> (value.Some? && value.value != "" <==> Remembered(writes, key, now))
      ensures out.Errs() ==> value == None
    {
      out, value := *, None;
      if out.Done? && Live(cells, key, now) {
        value := Some(cells[key].value);
      }
      calls := calls + [GetCall(me, key, now, value, out)];
    }

    method SetWithExpiry(ghost me: nat, key: string, value: string, seconds: int, now: int) returns (out: Outcome)
      requires Valid() && latest <= now && value != ""
      modifies this
      ensures Valid() && latest == now && calls == old(calls) + [SetCall(me, key, now, value, seconds, out)]
      ensures cells == if out.Applied() then old(cells)[key := Cell(value, ExpiryAfter(seconds, now))] else old(cells)
      ensures writes == if out.Applied() then old(writes) + [Write(key, ExpiryAfter(seconds, now))] else old(writes)
    {
      out := *;
      if out.Applied() {
        WriteAgrees(cells, writes, latest, cells[key := Cell(value, ExpiryAfter(seconds, now))],
          Write(key, ExpiryAfter(seconds, now)), now);
        cells := cells[key := Cell(value, ExpiryAfter(seconds, now))];
        writes := writes + [Write(key, ExpiryAfter(seconds, now))];
      }
      latest, calls := now, calls + [SetCall(me, key, now, value, seconds, out)];
    }

    method Set(ghost me: nat, key: string, value: string, now: int) returns (out: Outcome)
      requires Valid() && latest <= now && value != ""
      modifies this
      ensures Valid() && latest == now && calls == old(calls) + [SetCall(me, key, now, value, 0, out)]
      ensures cells == if out.Applied() then old(cells)[key := Cell(value, None)] else old(cells)
      ensures writes == if out.Applied() then old(writes) + [Write(key, None)] else old(writes)
    {
      out := SetWithExpiry(me, key, value, 0, now);
    }

    method Expire(ghost me: nat, key: string, seconds: int, now: int) returns (out: Outcome)
      requires Valid() && latest <= now
      modifies this
      ensures Valid() && latest == now && calls == old(calls) + [ExpireCall(me, key, now, seconds, out)]
      ensures cells == if out.Applied() then Expiring(old(cells), key, seconds, now) else old(cells)
      ensures writes == if out.Applied() then Limited(old(writes), key, seconds, now) else old(writes)
    {
      out := *;
      if out.Applied() {
        LimitAgrees(cells, writes, latest, key, seconds, now);
        cells := Expiring(cells, key, seconds, now);
        writes := Limited(writes, key, seconds, now);
      }
      latest, calls := now, calls + [ExpireCall(me, key, now, seconds, out)];
    }

    method Del(ghost me: nat, key: string, now: int) returns (out: Outcome)
      requires Valid() && latest <= now
      modifies this
      ensures Valid() && latest == now && calls == old(calls) + [DelCall(me, key, now, out)]
      ensures cells == if out.Applied() then old(cells) - {key} else old(cells)
      ensures writes == if out.Applied() then old(writes) + [Write(key, Some(now))] else old(writes)
    {
      out := *;
      if out.Applied() {
        WriteAgrees(cells, writes, latest, cells - {key}, Write(key, Some(now)), now);
        cells := cells - {key};
        writes := writes + [Write(key, Some(now))];
      }
      latest, calls := now, calls + [DelCall(me, key, now, out)];
    }

    /** One write of another client, at most. */
    method OneOther(ghost me: nat, until: int)
      requires Valid() && latest <= until
      modifies this
      ensures Valid() && latest <= until && old(writes) <= writes
      ensures CallsOf(calls, me) == old(CallsOf(calls, me))
    {
      var key: string, value: string, seconds: int, now: int, choice: int := *, *, *, *, *;
      ghost var other := me + 1;
      var out: Outcome := Done;
      if latest <= now <= until {
        if choice == 0 {
          if value != "" {
            out := SetWithExpiry(other, key, value, seconds, now);
            CallsOfSnoc(old(calls), SetCall(other, key, now, value, seconds, out), me);
          }
        } else if choice == 1 {
          out := Expire(other, key, seconds, now);
          CallsOfSnoc(old(calls), ExpireCall(other, key, now, seconds, out), me);
        } else {
          out := Del(other, key, now);
          CallsOfSnoc(old(calls), DelCall(other, key, now, out), me);
        }
      }
    }

    /** Any writes of other clients, up to a given time. */
    method Others(ghost me: nat, until: int)
      requires Valid() && latest <= until
      modifies this
      ensures Valid() && latest <= until && old(writes) <= writes
      ensures CallsOf(calls, me) == old(CallsOf(calls, me))
    {
      var n: nat := *;
      while n > 0
        invariant Valid() && latest <= until && old(writes) <= writes
        invariant CallsOf(calls, me) == old(CallsOf(calls, me))
      {
        OneOther(me, until);
        n := n - 1;
      }
    }
  }
}
