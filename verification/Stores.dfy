/** The stores that the threads share, updated in place by the calls that the repository and Redis
    clients offer, together with the positions of the threads and the steps taken so far. */
module Stores {
  import opened Model
  import opened Pipeline
  import opened Threads
  import C = Conservation
  import opened Channels

  predicate SameStores(s: State, t: State) {
    && t.rows == s.rows && t.status == s.status && t.queue == s.queue && t.entries == s.entries
    && t.progress == s.progress && t.acks == s.acks && t.log == s.log
  }

  /** What taking a payload from the list, and looking a message up, can answer. */
  datatype Popped = PopFailed | Empty | Got(payload: Payload)
  datatype Found = LookupFailed | Missing | Present(row: Row)

  /** What the queries have answered so far, oldest first. */
  class Answers {
    ghost var listings: seq<Option<seq<Snapshot>>>
    ghost var pops: seq<Popped>
    ghost var lookups: seq<Found>

    constructor ()
      ensures listings == [] && pops == [] && lookups == []
    {
      listings, pops, lookups := [], [], [];
    }
  }

  class SharedStores {
    const answers: Answers
    // tables
    var rows: map<Uuid, Row>
    var status: map<Uuid, Status>
    var entries: map<Uuid, Entry>
    var progress: map<Uuid, Progress>
    var acks: map<string, Ack>
    // Redis
    var queue: seq<Payload>
    var log: seq<Publication>
    // the positions of the threads, and the history; its components for the stores are not used
    var threads: State
    ghost var trace: seq<Step>

    function Abs(): State
      reads this
    {
      threads.(rows := rows, status := status, entries := entries, progress := progress, acks := acks,
        queue := queue, log := log)
    }

    /** The stores are in the state that the steps taken so far lead to. */
    ghost predicate Valid()
      reads this
    {
      CanRun(Init, trace) && Exec(Init, trace) == Abs()
    }

    constructor ()
      ensures Valid() && trace == [] && fresh(answers)
    {
      answers := new Answers();
      rows, status, entries, progress, acks := map[], map[], map[], map[], map[];
      queue, log := [], [];
      threads := Init;
      trace := [];
    }

    /** Records that a store call, whose effect the stores show already, was the given step. */
    method Commit(before: State, step: Step)
      requires CanRun(Init, trace) && Exec(Init, trace) == before && Enabled(before, step)
      requires SameStores(Apply(before, step), Abs())
      modifies this
      ensures Valid() && Abs() == Apply(before, step) && trace == old(trace) + [step]
    {
      ExecSnoc(Init, trace, step);
      threads := Apply(before, step);
      trace := trace + [step];
    }

    /** A step all at once: one of another thread, or one without a store call. */
    method Take(step: Step)
      requires Valid() && Enabled(Abs(), step)
      modifies this
      ensures Valid() && Abs() == Apply(old(Abs()), step) && trace == old(trace) + [step]
    {
      var before := Abs();
      var t := Apply(before, step);
      rows, status, entries, progress, acks := t.rows, t.status, t.entries, t.progress, t.acks;
      queue, log := t.queue, t.log;
      Commit(before, step);
    }

    /** Any number of steps of other threads. */
    method Others(me: Actor)
      requires Valid()
      modifies this
      ensures Valid() && Mine(trace, me) == old(Mine(trace, me))
      ensures PositionOf(Abs(), me) == old(PositionOf(Abs(), me))
    {
      var n: nat := *;
      while n > 0
        invariant Valid() && Mine(trace, me) == old(Mine(trace, me))
        invariant PositionOf(Abs(), me) == old(PositionOf(Abs(), me))
      {
        var step: Step := *;
        if By(step) != me && Enabled(Abs(), step) {
          C.RunKeepsInv(Init, trace);
          OthersKeepPosition(Abs(), step, me);
          MineSnoc(trace, step, me);
          Take(step);
        }
        n := n - 1;
      }
    }

    // ----- calls of the repository ------------------------------------------------------------------

    method CreateMessage(p: Payload, tenant: Uuid) returns (out: Outcome)
      modifies this`rows, this`status
      ensures out.Applied() ==> p.id !in old(rows)
      ensures rows == if out.Applied() then old(rows)[p.id := Row(p.recipients, tenant)] else old(rows)
      ensures status == if out.Applied() then old(status)[p.id := Pending] else old(status)
    {
      out := *;
      if p.id in rows {
        out := Refused;  // primary key
      }
      if out.Applied() {
        rows := rows[p.id := Row(p.recipients, tenant)];
        status := status[p.id := Pending];
      }
    }

    method UpdateMessageStatus(id: Uuid, value: Status) returns (out: Outcome)
      modifies this`status
      ensures status == SetStatus(old(status), id, value, out)
    {
      out := *;
      if out.Applied() && id in status {
        status := status[id := value];
      }
    }

    method CreateDeadLetterEntry(eid: Uuid, e: Entry) returns (out: Outcome)
      modifies this`entries, this`progress
      ensures out.Applied() ==> eid !in old(entries) && e.payload.id in rows
      ensures entries == if out.Applied() then old(entries)[eid := e] else old(entries)
      ensures progress == if out.Applied() then old(progress)[eid := Progress(Waiting, 0, false)] else old(progress)
    {
      out := *;
      if eid in entries || e.payload.id !in rows {
        out := Refused;  // primary key, foreign key
      }
      if out.Applied() {
        entries := entries[eid := e];
        progress := progress[eid := Progress(Waiting, 0, false)];
      }
    }

    /** Any of the listings that the query allows, or an error. */
    method ListRetryableDeadLetterEntries() returns (batch: Option<seq<Snapshot>>)
      modifies answers
      ensures batch.Some? ==> IsListing(Abs(), batch.value)
      ensures answers.listings == old(answers.listings) + [batch]
    {
      var some: seq<Snapshot> := *;
      batch := if IsListing(Abs(), some) then Some(some) else None;
      answers.listings := answers.listings + [batch];
    }

    /** The message, if it has a row and belongs to the tenant, or an error. */
    method GetByIDForTenant(tenant: Uuid, id: Uuid) returns (found: Found)
      modifies answers
      ensures found.Missing? ==> id !in rows || rows[id].tenant != tenant
      ensures found.Present? ==> id in rows && rows[id].tenant == tenant && found.row == rows[id]
      ensures answers.lookups == old(answers.lookups) + [found]
    {
      var unavailable: bool := *;
      if unavailable {
        found := LookupFailed;
      } else if id in rows && rows[id].tenant == tenant {
        found := Present(rows[id]);
      } else {
        found := Missing;
      }
      answers.lookups := answers.lookups + [found];
    }

    method UpdateDeadLetterEntry(eid: Uuid, value: EntryStatus, count: int) returns (out: Outcome)
      modifies this`progress
      ensures progress == SetProgress(old(progress), eid, value, count, out)
    {
      out := *;
      if out.Applied() && eid in progress {
        progress := progress[eid := Progress(value, count, value.Terminal())];
      }
    }

    method CreateAcknowledgement(ack: Ack) returns (out: Outcome)
      modifies this`acks
      ensures out.Applied() ==> ack.nonce !in old(acks)
      ensures acks == if out.Applied() then old(acks)[ack.nonce := ack] else old(acks)
    {
      out := *;
      if ack.nonce in acks {
        out := Refused;  // unique nonce
      }
      if out.Applied() {
        acks := acks[ack.nonce := ack];
      }
    }

    // ----- calls of the Redis client ----------------------------------------------------------------

    method LPush(p: Payload) returns (out: Outcome)
      modifies this`queue
      ensures queue == if out.Applied() then [p] + old(queue) else old(queue)
    {
      out := *;
      if out.Applied() {
        queue := [p] + queue;
      }
    }

    method RPop() returns (p: Popped)
      modifies this`queue, answers
      ensures p.PopFailed? ==> queue == old(queue)
      ensures p.Empty? ==> queue == old(queue) == []
      ensures p.Got? ==> old(queue) == queue + [p.payload]
      ensures answers.pops == old(answers.pops) + [p]
    {
      var unavailable: bool := *;
      if unavailable {
        p := PopFailed;
      } else if |queue| == 0 {
        p := Empty;
      } else {
        p := Got(queue[|queue| - 1]);
        queue := queue[..|queue| - 1];
      }
      answers.pops := answers.pops + [p];
    }

    /** The message reaches the agent that listens on the channel. `pos` is its position in the
        recipient list. */
    method Publish(channel: string, id: Uuid, pos: nat) returns (out: Outcome)
      modifies this`log
      ensures log == if out.Applied() && Listener(channel).Some?
        then old(log) + [Publication(id, pos, Listener(channel).value)] else old(log)
    {
      out := *;
      if out.Applied() {
        match Listener(channel) {
          case Some(agent) => log := log + [Publication(id, pos, agent)];
          case None =>
        }
      }
    }
  }
}
