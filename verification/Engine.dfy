/** The delivery engine: workers that route messages, and the dead-letter queue. Between two store
    calls, other threads may take any number of steps. */
module Engine {
  import opened Model
  import opened Pipeline
  import opened Threads
  import opened Stores
  import opened Calls
  import opened Channels
  import L = Ledger

  datatype Route = Route(recipient: Uuid, channel: string)

  /** One route for each recipient, in order, with the recipient's channel. */
  predicate RoutesTo(routes: seq<Route>, recipients: seq<Uuid>) {
    && |routes| == |recipients|
    && forall i | 0 <= i < |routes| ::
         routes[i].recipient == recipients[i] && routes[i].channel == Channel(recipients[i])
  }

  method RouteTo(recipients: seq<Uuid>) returns (routes: seq<Route>)
    ensures RoutesTo(routes, recipients)
  {
    routes := [];
    for i := 0 to |recipients|
      invariant |routes| == i
      invariant forall j | 0 <= j < i ::
        routes[j].recipient == recipients[j] && routes[j].channel == Channel(recipients[j])
    {
      routes := routes + [Route(recipients[i], Channel(recipients[i]))];
    }
  }

  /** Publishes a message to the recipient at position `k`, on that recipient's channel. */
  method Notify(st: SharedStores, p: Payload, k: nat, recipient: Uuid) returns (out: Outcome)
    requires k < |p.recipients| && recipient == p.recipients[k]
    modifies st`log
    ensures st.log == Logged(old(st.log), p, k, out)
  {
    var channel := Channel(recipient);
    OneListener(channel, recipient);
    out := st.Publish(channel, p.id, k);
  }

  // ----- facts about reachable states -------------------------------------------------------------

  lemma WorkerFacts(trace: seq<Step>, w: nat)
    requires CanRun(Init, trace) && w in Exec(Init, trace).work
    ensures
      var s := Exec(Init, trace);
      && (s.work[w].pc.Publishing? ==> s.work[w].run < |s.runs|)
      && s.work[w].payload.id in s.rows
  {
    L.RunKeepsInv(Init, trace);
    assert L.TaskRun(Exec(Init, trace).work[w], w, Exec(Init, trace).runs);
  }

  lemma RunFacts(trace: seq<Step>, l: nat)
    requires CanRun(Init, trace) && l in Exec(Init, trace).loops
    ensures
      var s := Exec(Init, trace);
      s.loops[l].pc.Republishing? ==> s.loops[l].pc.run < |s.runs|
  {
    L.RunKeepsInv(Init, trace);
    assert L.LoopRun(Exec(Init, trace).loops[l], l, Exec(Init, trace).runs);
  }

  /** Worker `w` holds message `p` and is at `pc`. */
  predicate Holds(s: State, w: nat, p: Payload, pc: WorkPc) {
    At(s, w, pc) && s.work[w].payload == p
  }

  /** A worker is done with the message. */
  predicate Finished(s: State, id: Uuid) {
    id in s.place && (s.place[id] == Routed || s.place[id] == Dead || s.place[id] == EnqueueFailed)
  }

  /** Loop `l` is at entry `i` of its batch. */
  predicate Works(s: State, l: nat, batch: seq<Snapshot>, i: nat, pc: RetryPc) {
    l in s.loops && s.loops[l] == Loop(batch, i, pc) && i < |batch|
  }

  /** Loop `l` is at entry `i` of its batch, about to begin, or through with all of them. */
  predicate Reached(s: State, l: nat, batch: seq<Snapshot>, i: nat) {
    if i < |batch| then Works(s, l, batch, i, Next) else l !in s.loops
  }

  lemma PublishLeads(s: State, w: nat, p: Payload, k: nat, out: Outcome)
    requires Holds(s, w, p, Publishing(k)) && k < |p.recipients| && s.work[w].run < |s.runs|
    ensures
      && CanPublish(s, w)
      && SameStores(DoPublish(s, w, out), s.(log := Logged(s.log, p, k, out)))
      && Holds(DoPublish(s, w, out), w, p, if out.Done? then Publishing(k + 1) else MarkingDead)
  {}

  lemma GiveUpLeads(s: State, l: nat, batch: seq<Snapshot>, i: nat, out: Outcome)
    requires Works(s, l, batch, i, GivingUp)
    ensures
      && CanGiveUp(s, l)
      && SameStores(DoGiveUp(s, l, out), s.(status := SetStatus(s.status, batch[i].entry.payload.id, Failed, out)))
      && Works(DoGiveUp(s, l, out), l, batch, i, Marking(Exhausted, batch[i].retryCount + 1))
  {}

  lemma RewriteLeads(s: State, l: nat, batch: seq<Snapshot>, i: nat, run: nat, out: Outcome)
    requires i < |batch| && 0 < |batch[i].entry.payload.recipients|
    requires Works(s, l, batch, i, Republishing(run, |batch[i].entry.payload.recipients|))
    ensures
      && CanRewriteSent(s, l)
      && SameStores(DoRewriteSent(s, l, out), s.(status := SetStatus(s.status, batch[i].entry.payload.id, Sent, out)))
      && Works(DoRewriteSent(s, l, out), l, batch, i, Marking(Republished, batch[i].retryCount + 1))
  {}

  lemma MarkLeads(s: State, l: nat, batch: seq<Snapshot>, i: nat, status: EntryStatus, count: int, out: Outcome)
    requires Works(s, l, batch, i, Marking(status, count))
    ensures
      && CanMark(s, l)
      && SameStores(DoMark(s, l, out), s.(progress := SetProgress(s.progress, batch[i].eid, status, count, out)))
      && Reached(DoMark(s, l, out), l, batch, i + 1)
  {}

  lemma EnqueueLeads(s: State, w: nat, p: Payload, eid: Uuid, e: Entry, out: Outcome, step: Step)
    requires Holds(s, w, p, Enqueueing) && e.payload == p && (out.Applied() ==> eid !in s.entries && p.id in s.rows)
    requires step == Work(w, Enqueue(eid, e.maxRetries, e.createdAt, e.readable, out))
    ensures Enabled(s, step)
    ensures
      var t := Apply(s, step);
      && SameStores(t, s.(entries := if out.Applied() then s.entries[eid := e] else s.entries,
           progress := if out.Applied() then s.progress[eid := Progress(Waiting, 0, false)] else s.progress))
      && (if out.Done? then w !in t.work && p.id in t.place && t.place[p.id] == Dead else Holds(t, w, p, MarkingFailed))
  {}

  lemma PassEnded(retries: seq<Step>, l: nat, batch: seq<Snapshot>)
    requires |batch| > 0 && IsRetries(retries, l, batch)
    ensures IsPass([Retry(l, List(batch))] + retries, l, Some(batch))
  {
    var calls := [Retry(l, List(batch))] + retries;
    assert calls[1..] == retries;
  }

  lemma EmptyListing(s: State)
    requires IsListing(s, [])
    ensures forall e :: !Listable(s, e)
  {
    forall e | Listable(s, e)
      ensures Lists([], e)
    {}
  }

  lemma VerdictGiven(calls: seq<Step>, l: nat, c: Snapshot, ok: bool, out: Outcome, mark: Outcome)
    requires Verdict(calls, l, c, ok, out, mark)
    ensures IsVerdict(calls, l, c, ok)
  {}

  lemma RepublishingStopped(l: nat, n: nat, k: nat, out: Outcome)
    requires k < n && out.Errs()
    ensures IsRepublishing(Republishes(l, k) + [Retry(l, Republish(out))], l, n, false)
  {
    assert Calls.Republishing(Republishes(l, k) + [Retry(l, Republish(out))], l, n, k, out, false);
  }

  lemma RepublishingDone(l: nat, n: nat)
    requires n > 0
    ensures IsRepublishing(Republishes(l, n), l, n, true)
  {
    assert Calls.Republishing(Republishes(l, n), l, n, n, Done, true);
  }

  class DeadLetterQueue {
    const st: SharedStores
    const limit: int  // the configured number of retries

    constructor (st: SharedStores, limit: int)
      ensures this.st == st && this.limit == limit
    {
      this.st, this.limit := st, limit;
    }

    /** Creates an entry that waits for its first retry. */
    method Enqueue(w: nat, p: Payload) returns (eid: Uuid, at: int, readable: bool, out: Outcome)
      requires st.Valid() && Holds(st.Abs(), w, p, Enqueueing)
      modifies st
      ensures st.Valid()
      ensures if out.Done? then w !in st.Abs().work && p.id in st.Abs().place && st.Abs().place[p.id] == Dead
              else Holds(st.Abs(), w, p, MarkingFailed)
      ensures out.Done? ==> eid in st.entries && st.entries[eid] == Entry(p, readable, limit, at)
      ensures Took(old(st.trace), st.trace, Worker(w), [Work(w, WorkOp.Enqueue(eid, limit, at, readable, out))])
    {
      st.Others(Worker(w));
      WorkerFacts(st.trace, w);
      var before := st.Abs();
      eid, at, readable := *, *, *;
      var e := Entry(p, readable, limit, at);
      out := st.CreateDeadLetterEntry(eid, e);
      var step := Work(w, WorkOp.Enqueue(eid, limit, at, readable, out));
      EnqueueLeads(before, w, p, eid, e, out, step);
      MineSnoc(st.trace, step, Worker(w));
      st.Commit(before, step);
    }

    /** One pass: every listed entry is retried once, in the order of the listing. Only an error or an
        empty listing ends it at once, and a listing is empty only if no entry can be retried. */
    method Process(l: nat) returns (listed: Option<seq<Snapshot>>, ghost calls: seq<Step>)
      requires st.Valid() && l !in st.Abs().loops
      modifies st, st.answers
      ensures st.Valid() && l !in st.Abs().loops
      ensures st.answers.listings == old(st.answers.listings) + [listed]
      ensures Took(old(st.trace), st.trace, Retrier(l), calls) && IsPass(calls, l, listed)
      ensures listed == Some([]) ==> forall e :: !Listable(st.Abs(), e)
    {
      listed := ListEntries(l);
      if listed.None? || |listed.value| == 0 {
        return listed, [];
      }
      var batch := listed.value;
      ghost var begun := st.trace;
      ghost var retries := RetryAll(l, batch);
      calls := [Retry(l, List(batch))] + retries;
      TookBoth(old(st.trace), begun, st.trace, Retrier(l), [Retry(l, List(batch))], retries);
      PassEnded(retries, l, batch);
    }

    method RetryAll(l: nat, batch: seq<Snapshot>) returns (ghost calls: seq<Step>)
      requires st.Valid() && Reached(st.Abs(), l, batch, 0)
      modifies st
      ensures st.Valid() && l !in st.Abs().loops && IsRetries(calls, l, batch)
      ensures Took(old(st.trace), st.trace, Retrier(l), calls)
    {
      calls := [];
      for i := 0 to |batch|
        invariant st.Valid() && Reached(st.Abs(), l, batch, i) && IsRetries(calls, l, batch[..i])
        invariant Took(old(st.trace), st.trace, Retrier(l), calls)
      {
        ghost var before := st.trace;
        ghost var more := RetryEntry(l, batch, i);
        RetriesNext(calls, more, l, batch, i);
        TookBoth(old(st.trace), before, st.trace, Retrier(l), calls, more);
        calls := calls + more;
      }
      assert batch[..|batch|] == batch;
    }

    /** What the query answers. */
    method ListEntries(l: nat) returns (listed: Option<seq<Snapshot>>)
      requires st.Valid() && l !in st.Abs().loops
      modifies st, st.answers
      ensures st.Valid() && st.answers.listings == old(st.answers.listings) + [listed]
      ensures Reached(st.Abs(), l, Batch(listed), 0)
      ensures Took(old(st.trace), st.trace, Retrier(l), Listing(l, listed))
      ensures listed == Some([]) ==> forall e :: !Listable(st.Abs(), e)
    {
      st.Others(Retrier(l));
      var before := st.Abs();
      listed := st.ListRetryableDeadLetterEntries();
      if listed.None? || |listed.value| == 0 {
        if listed.Some? {
          EmptyListing(before);
        }
        return;
      }
      var batch := listed.value;
      MineSnoc(st.trace, Retry(l, List(batch)), Retrier(l));
      st.Commit(before, Retry(l, List(batch)));
    }

    /** Publishes the message of a listed entry again, writes its status, and updates the entry. */
    method RetryEntry(l: nat, batch: seq<Snapshot>, i: nat) returns (ghost calls: seq<Step>)
      requires st.Valid() && i < |batch| && Works(st.Abs(), l, batch, i, Next)
      modifies st
      ensures st.Valid() && Reached(st.Abs(), l, batch, i + 1)
      ensures Took(old(st.trace), st.trace, Retrier(l), calls) && IsRetry(calls, l, batch[i])
    {
      var run := Decode(l, batch, i);
      ghost var decoded := st.trace;
      ghost var rest;
      if batch[i].entry.readable {
        rest := RetryReadable(l, batch, i, run);
      } else {
        var mark := MarkEntry(l, batch, i, Exhausted, batch[i].entry.maxRetries);
        rest := [Retry(l, Mark(mark))];
        assert Discarding([Retry(l, Take)] + rest, l, mark);
      }
      calls := [Retry(l, Take)] + rest;
      TookBoth(old(st.trace), decoded, st.trace, Retrier(l), [Retry(l, Take)], rest);
    }

    method RetryReadable(l: nat, batch: seq<Snapshot>, i: nat, run: nat) returns (ghost calls: seq<Step>)
      requires st.Valid() && i < |batch| && batch[i].entry.readable
      requires Works(st.Abs(), l, batch, i, Republishing(run, 0))
      modifies st
      ensures st.Valid() && Reached(st.Abs(), l, batch, i + 1)
      ensures Took(old(st.trace), st.trace, Retrier(l), calls) && IsRetry([Retry(l, Take)] + calls, l, batch[i])
    {
      var ok, publishing := PublishMessage(l, batch, i, run);
      ghost var published := st.trace;
      ghost var verdict := Settle(l, batch, i, run, ok);
      RetryingCalls(l, batch[i], ok, publishing, verdict);
      calls := publishing + verdict;
      TookBoth(old(st.trace), published, st.trace, Retrier(l), publishing, verdict);
    }

    method Decode(l: nat, batch: seq<Snapshot>, i: nat) returns (run: nat)
      requires st.Valid() && i < |batch| && Works(st.Abs(), l, batch, i, Next)
      modifies st
      ensures st.Valid()
      ensures Works(st.Abs(), l, batch, i,
        if batch[i].entry.readable then Republishing(run, 0) else Marking(Exhausted, batch[i].entry.maxRetries))
      ensures Took(old(st.trace), st.trace, Retrier(l), [Retry(l, Take)])
    {
      st.Others(Retrier(l));
      run := |st.Abs().runs|;
      MineSnoc(st.trace, Retry(l, Take), Retrier(l));
      st.Take(Retry(l, Take));
    }

    method PublishMessage(l: nat, batch: seq<Snapshot>, i: nat, run: nat) returns (ok: bool, ghost calls: seq<Step>)
      requires st.Valid() && i < |batch| && Works(st.Abs(), l, batch, i, Republishing(run, 0))
      modifies st
      ensures st.Valid() && IsRepublishing(calls, l, |batch[i].entry.payload.recipients|, ok)
      ensures ok ==> |batch[i].entry.payload.recipients| > 0
      ensures Works(st.Abs(), l, batch, i,
        if ok then Republishing(run, |batch[i].entry.payload.recipients|) else AfterFailure(batch[i]))
      ensures Took(old(st.trace), st.trace, Retrier(l), calls)
    {
      if |batch[i].entry.payload.recipients| == 0 {
        MineSnoc(st.trace, Retry(l, FindNoRecipients), Retrier(l));
        st.Take(Retry(l, FindNoRecipients));
        calls := [Retry(l, FindNoRecipients)];
        assert Calls.Republishing(calls, l, 0, 0, Done, false);
        return false, calls;
      }
      ok, calls := RepublishAll(l, batch, i, run);
    }

    method RepublishAll(l: nat, batch: seq<Snapshot>, i: nat, run: nat) returns (ok: bool, ghost calls: seq<Step>)
      requires st.Valid() && i < |batch| && Works(st.Abs(), l, batch, i, Republishing(run, 0))
      requires |batch[i].entry.payload.recipients| > 0
      modifies st
      ensures st.Valid() && IsRepublishing(calls, l, |batch[i].entry.payload.recipients|, ok)
      ensures Works(st.Abs(), l, batch, i,
        if ok then Republishing(run, |batch[i].entry.payload.recipients|) else AfterFailure(batch[i]))
      ensures Took(old(st.trace), st.trace, Retrier(l), calls)
    {
      var n := |batch[i].entry.payload.recipients|;
      var k := 0;
      while k < n
        invariant k <= n && st.Valid() && Works(st.Abs(), l, batch, i, Republishing(run, k))
        invariant Took(old(st.trace), st.trace, Retrier(l), Republishes(l, k))
      {
        ghost var before := st.trace;
        var out := RepublishTo(l, batch, i, run, k);
        calls := Republishes(l, k) + [Retry(l, Republish(out))];
        TookBoth(old(st.trace), before, st.trace, Retrier(l), Republishes(l, k), [Retry(l, Republish(out))]);
        if out.Errs() {
          RepublishingStopped(l, n, k, out);
          return false, calls;
        }
        k := k + 1;
      }
      RepublishingDone(l, n);
      return true, Republishes(l, n);
    }

    method RepublishTo(l: nat, batch: seq<Snapshot>, i: nat, run: nat, k: nat) returns (out: Outcome)
      requires st.Valid() && i < |batch| && Works(st.Abs(), l, batch, i, Republishing(run, k))
      requires k < |batch[i].entry.payload.recipients|
      modifies st
      ensures st.Valid()
      ensures Works(st.Abs(), l, batch, i, if out.Done? then Republishing(run, k + 1) else AfterFailure(batch[i]))
      ensures Took(old(st.trace), st.trace, Retrier(l), [Retry(l, Republish(out))])
    {
      st.Others(Retrier(l));
      RunFacts(st.trace, l);
      var before := st.Abs();
      var p := batch[i].entry.payload;
      out := Notify(st, p, k, p.recipients[k]);
      MineSnoc(st.trace, Retry(l, Republish(out)), Retrier(l));
      st.Commit(before, Retry(l, Republish(out)));
    }

    /** What follows the publishing: the message becomes sent or, with no retries left, failed, and the
        entry is updated. */
    method Settle(l: nat, batch: seq<Snapshot>, i: nat, run: nat, ok: bool) returns (ghost calls: seq<Step>)
      requires st.Valid() && i < |batch| && (ok ==> |batch[i].entry.payload.recipients| > 0)
      requires Works(st.Abs(), l, batch, i,
        if ok then Republishing(run, |batch[i].entry.payload.recipients|) else AfterFailure(batch[i]))
      modifies st
      ensures st.Valid() && Reached(st.Abs(), l, batch, i + 1) && IsVerdict(calls, l, batch[i], ok)
      ensures Took(old(st.trace), st.trace, Retrier(l), calls)
    {
      var c := batch[i];
      calls := [];
      ghost var out := Done;
      var next := c.retryCount + 1;
      var status := Waiting;
      if ok {
        out := RewriteStatus(l, batch, i, run);
        calls := [Retry(l, RewriteSent(out))];
        status := Republished;
      } else if next >= c.entry.maxRetries {
        out := WriteFailure(l, batch, i);
        calls := [Retry(l, GiveUp(out))];
        status := Exhausted;
      }
      ghost var settled := st.trace;
      var mark := MarkEntry(l, batch, i, status, next);
      TookBoth(old(st.trace), settled, st.trace, Retrier(l), calls, [Retry(l, Mark(mark))]);
      calls := calls + [Retry(l, Mark(mark))];
      VerdictGiven(calls, l, c, ok, out, mark);
    }

    method RewriteStatus(l: nat, batch: seq<Snapshot>, i: nat, run: nat) returns (out: Outcome)
      requires st.Valid() && i < |batch| && |batch[i].entry.payload.recipients| > 0
      requires Works(st.Abs(), l, batch, i, Republishing(run, |batch[i].entry.payload.recipients|))
      modifies st
      ensures st.Valid() && Works(st.Abs(), l, batch, i, Marking(Republished, batch[i].retryCount + 1))
      ensures Took(old(st.trace), st.trace, Retrier(l), [Retry(l, RewriteSent(out))])
    {
      st.Others(Retrier(l));
      var before := st.Abs();
      out := st.UpdateMessageStatus(batch[i].entry.payload.id, Sent);
      RewriteLeads(before, l, batch, i, run, out);
      MineSnoc(st.trace, Retry(l, RewriteSent(out)), Retrier(l));
      st.Commit(before, Retry(l, RewriteSent(out)));
    }

    method WriteFailure(l: nat, batch: seq<Snapshot>, i: nat) returns (out: Outcome)
      requires st.Valid() && i < |batch| && Works(st.Abs(), l, batch, i, GivingUp)
      modifies st
      ensures st.Valid() && Works(st.Abs(), l, batch, i, Marking(Exhausted, batch[i].retryCount + 1))
      ensures Took(old(st.trace), st.trace, Retrier(l), [Retry(l, GiveUp(out))])
    {
      st.Others(Retrier(l));
      var before := st.Abs();
      out := st.UpdateMessageStatus(batch[i].entry.payload.id, Failed);
      GiveUpLeads(before, l, batch, i, out);
      MineSnoc(st.trace, Retry(l, GiveUp(out)), Retrier(l));
      st.Commit(before, Retry(l, GiveUp(out)));
    }

    /** An error of the update is only logged: the loop goes on to the next entry. */
    method MarkEntry(l: nat, batch: seq<Snapshot>, i: nat, status: EntryStatus, count: int) returns (out: Outcome)
      requires st.Valid() && i < |batch| && Works(st.Abs(), l, batch, i, Marking(status, count))
      modifies st
      ensures st.Valid() && Reached(st.Abs(), l, batch, i + 1)
      ensures Took(old(st.trace), st.trace, Retrier(l), [Retry(l, Mark(out))])
    {
      st.Others(Retrier(l));
      var before := st.Abs();
      out := st.UpdateDeadLetterEntry(batch[i].eid, status, count);
      MarkLeads(before, l, batch, i, status, count, out);
      MineSnoc(st.trace, Retry(l, Mark(out)), Retrier(l));
      st.Commit(before, Retry(l, Mark(out)));
    }
  }

  lemma RoutingStopped(w: nat, n: nat, k: nat, out: Outcome)
    requires k < n && out.Errs()
    ensures IsRouting(Publishes(w, k) + [Work(w, Publish(out))], w, n, false)
  {
    assert Routing(Publishes(w, k) + [Work(w, Publish(out))], w, n, k, out, false);
  }

  lemma RoutingEnded(w: nat, n: nat, out: Outcome)
    requires n > 0
    ensures IsRouting(Publishes(w, n) + [Work(w, WriteSent(out))], w, n, out.Done?)
  {
    assert Routing(Publishes(w, n) + [Work(w, WriteSent(out))], w, n, n, out, out.Done?);
  }

  lemma DeadLettered(calls: seq<Step>, w: nat, limit: int, dead: Outcome, eid: Uuid, at: int, readable: bool,
      out: Outcome, failed: Outcome)
    requires DeadLettering(calls, w, limit, dead, eid, at, readable, out, failed)
    ensures IsDeadLettering(calls, w, limit)
  {}

  class MessageEngine {
    const st: SharedStores
    const dlq: DeadLetterQueue

    constructor (st: SharedStores, limit: int)
      ensures this.st == st && dlq.st == st && dlq.limit == limit
    {
      this.st := st;
      dlq := new DeadLetterQueue(st, limit);
    }

    /** The message goes to every recipient in order, up to the first error, and is then marked sent. */
    method RouteMessage(w: nat, p: Payload) returns (ok: bool, ghost calls: seq<Step>)
      requires st.Valid() && Holds(st.Abs(), w, p, Publishing(0))
      modifies st
      ensures st.Valid() && Took(old(st.trace), st.trace, Worker(w), calls)
      ensures IsRouting(calls, w, |p.recipients|, ok)
      ensures if ok then w !in st.Abs().work && p.id in st.Abs().place && st.Abs().place[p.id] == Routed
              else Holds(st.Abs(), w, p, MarkingDead)
    {
      var routes := RouteTo(p.recipients);
      if |routes| == 0 {
        Unroutable(w, p);
        calls := [Work(w, FindNoRoutes)];
        assert Routing(calls, w, 0, 0, Done, false);
        return false, calls;
      }
      ok, calls := PublishAll(w, p, routes);
      if ok {
        ghost var before := st.trace;
        var out := MarkSent(w, p);
        TookBoth(old(st.trace), before, st.trace, Worker(w), calls, [Work(w, WriteSent(out))]);
        calls := calls + [Work(w, WriteSent(out))];
        RoutingEnded(w, |p.recipients|, out);
        ok := out.Done?;
      }
    }

    /** Publishes along the routes, up to the first error. */
    method PublishAll(w: nat, p: Payload, routes: seq<Route>) returns (ok: bool, ghost calls: seq<Step>)
      requires st.Valid() && Holds(st.Abs(), w, p, Publishing(0)) && RoutesTo(routes, p.recipients)
      modifies st
      ensures st.Valid() && Took(old(st.trace), st.trace, Worker(w), calls)
      ensures if ok then calls == Publishes(w, |p.recipients|) else IsRouting(calls, w, |p.recipients|, false)
      ensures Holds(st.Abs(), w, p, if ok then Publishing(|p.recipients|) else MarkingDead)
    {
      var i := 0;
      while i < |routes|
        invariant i <= |routes| && st.Valid() && Holds(st.Abs(), w, p, Publishing(i))
        invariant Took(old(st.trace), st.trace, Worker(w), Publishes(w, i))
      {
        var out := PublishNext(w, p, routes, i, old(st.trace));
        calls := Publishes(w, i) + [Work(w, Publish(out))];
        if out.Errs() {
          RoutingStopped(w, |p.recipients|, i, out);
          return false, calls;
        }
        i := i + 1;
      }
      return true, Publishes(w, i);
    }

    method Unroutable(w: nat, p: Payload)
      requires st.Valid() && Holds(st.Abs(), w, p, Publishing(0)) && |p.recipients| == 0
      modifies st
      ensures st.Valid() && Holds(st.Abs(), w, p, MarkingDead)
      ensures Took(old(st.trace), st.trace, Worker(w), [Work(w, FindNoRoutes)])
    {
      MineSnoc(st.trace, Work(w, FindNoRoutes), Worker(w));
      st.Take(Work(w, FindNoRoutes));
    }

    method PublishNext(w: nat, p: Payload, routes: seq<Route>, i: nat, ghost start: seq<Step>) returns (out: Outcome)
      requires st.Valid() && Holds(st.Abs(), w, p, Publishing(i)) && RoutesTo(routes, p.recipients) && i < |routes|
      requires Took(start, st.trace, Worker(w), Publishes(w, i))
      modifies st
      ensures st.Valid() && Holds(st.Abs(), w, p, if out.Done? then Publishing(i + 1) else MarkingDead)
      ensures Took(start, st.trace, Worker(w), Publishes(w, i) + [Work(w, Publish(out))])
    {
      ghost var before := st.trace;
      out := PublishTo(w, p, i, routes[i].recipient);
      TookBoth(start, before, st.trace, Worker(w), Publishes(w, i), [Work(w, Publish(out))]);
    }

    method PublishTo(w: nat, p: Payload, i: nat, recipient: Uuid) returns (out: Outcome)
      requires st.Valid() && Holds(st.Abs(), w, p, Publishing(i)) && i < |p.recipients|
      requires recipient == p.recipients[i]
      modifies st
      ensures st.Valid() && Holds(st.Abs(), w, p, if out.Done? then Publishing(i + 1) else MarkingDead)
      ensures Took(old(st.trace), st.trace, Worker(w), [Work(w, Publish(out))])
    {
      st.Others(Worker(w));
      WorkerFacts(st.trace, w);
      var before := st.Abs();
      out := Notify(st, p, i, recipient);
      PublishLeads(before, w, p, i, out);
      MineSnoc(st.trace, Work(w, Publish(out)), Worker(w));
      st.Commit(before, Work(w, Publish(out)));
    }

    method MarkSent(w: nat, p: Payload) returns (out: Outcome)
      requires st.Valid() && Holds(st.Abs(), w, p, Publishing(|p.recipients|)) && |p.recipients| > 0
      modifies st
      ensures st.Valid()
      ensures if out.Done? then w !in st.Abs().work && p.id in st.Abs().place && st.Abs().place[p.id] == Routed
              else Holds(st.Abs(), w, p, MarkingDead)
      ensures Took(old(st.trace), st.trace, Worker(w), [Work(w, WriteSent(out))])
    {
      st.Others(Worker(w));
      var before := st.Abs();
      out := st.UpdateMessageStatus(p.id, Sent);
      MineSnoc(st.trace, Work(w, WriteSent(out)), Worker(w));
      st.Commit(before, Work(w, WriteSent(out)));
    }

    method MarkDead(w: nat, p: Payload) returns (out: Outcome)
      requires st.Valid() && Holds(st.Abs(), w, p, MarkingDead)
      modifies st
      ensures st.Valid() && Holds(st.Abs(), w, p, Enqueueing)
      ensures Took(old(st.trace), st.trace, Worker(w), [Work(w, WriteDead(out))])
    {
      st.Others(Worker(w));
      var before := st.Abs();
      out := st.UpdateMessageStatus(p.id, DeadLetter);
      MineSnoc(st.trace, Work(w, WriteDead(out)), Worker(w));
      st.Commit(before, Work(w, WriteDead(out)));
    }

    method MarkFailed(w: nat, p: Payload) returns (out: Outcome)
      requires st.Valid() && Holds(st.Abs(), w, p, MarkingFailed)
      modifies st
      ensures st.Valid() && w !in st.Abs().work && p.id in st.Abs().place && st.Abs().place[p.id] == EnqueueFailed
      ensures Took(old(st.trace), st.trace, Worker(w), [Work(w, WriteFailed(out))])
    {
      st.Others(Worker(w));
      var before := st.Abs();
      out := st.UpdateMessageStatus(p.id, Failed);
      MineSnoc(st.trace, Work(w, WriteFailed(out)), Worker(w));
      st.Commit(before, Work(w, WriteFailed(out)));
    }

    /** What taking a payload from the list answers. */
    method Pop(w: nat) returns (p: Popped)
      requires st.Valid() && w !in st.Abs().work
      modifies st, st.answers
      ensures st.Valid() && st.answers.pops == old(st.answers.pops) + [p]
      ensures if p.Got? then Holds(st.Abs(), w, p.payload, Publishing(0)) else w !in st.Abs().work
      ensures p.Empty? ==> st.queue == []
      ensures Took(old(st.trace), st.trace, Worker(w), if p.Got? then [Work(w, WorkOp.Pop)] else [])
    {
      st.Others(Worker(w));
      var before := st.Abs();
      p := st.RPop();
      if p.Got? {
        MineSnoc(st.trace, Work(w, WorkOp.Pop), Worker(w));
        st.Commit(before, Work(w, WorkOp.Pop));
      }
    }

    /** What follows a failed routing. */
    method GiveUpOn(w: nat, p: Payload) returns (ghost calls: seq<Step>)
      requires dlq.st == st && st.Valid() && Holds(st.Abs(), w, p, MarkingDead)
      modifies st
      ensures st.Valid() && w !in st.Abs().work && Finished(st.Abs(), p.id)
      ensures Took(old(st.trace), st.trace, Worker(w), calls)
      ensures IsDeadLettering(calls, w, dlq.limit)
    {
      var dead := MarkDead(w, p);
      ghost var t1 := st.trace;
      var eid, at, readable, out := dlq.Enqueue(w, p);
      ghost var t2 := st.trace;
      calls := [Work(w, WriteDead(dead))] + [Work(w, Enqueue(eid, dlq.limit, at, readable, out))];
      TookBoth(old(st.trace), t1, t2, Worker(w), [Work(w, WriteDead(dead))],
        [Work(w, Enqueue(eid, dlq.limit, at, readable, out))]);
      ghost var failed := Done;
      if out.Errs() {
        failed := MarkFailed(w, p);
        TookBoth(old(st.trace), t2, st.trace, Worker(w), calls, [Work(w, WriteFailed(failed))]);
        calls := calls + [Work(w, WriteFailed(failed))];
      }
      DeadLettered(calls, w, dlq.limit, dead, eid, at, readable, out, failed);
    }

    /** One turn of a worker's loop. A popped message ends up routed, dead-lettered, or given up on; only
        an error or an empty list ends the turn at once. */
    method ProcessOne(w: nat) returns (p: Popped, ghost calls: seq<Step>)
      requires dlq.st == st && st.Valid() && w !in st.Abs().work
      modifies st, st.answers
      ensures st.Valid() && w !in st.Abs().work && st.answers.pops == old(st.answers.pops) + [p]
      ensures Took(old(st.trace), st.trace, Worker(w), calls)
      ensures !p.Got? ==> calls == [] && (p.Empty? ==> st.queue == [])
      ensures p.Got? ==> IsHandling(calls, w, |p.payload.recipients|, dlq.limit) && Finished(st.Abs(), p.payload.id)
    {
      p := Pop(w);
      if !p.Got? {
        return p, [];
      }
      ghost var popped := st.trace;
      ghost var handling := Handle(w, p.payload);
      calls := [Work(w, WorkOp.Pop)] + handling;
      TookBoth(old(st.trace), popped, st.trace, Worker(w), [Work(w, WorkOp.Pop)], handling);
    }

    method Handle(w: nat, p: Payload) returns (ghost calls: seq<Step>)
      requires dlq.st == st && st.Valid() && Holds(st.Abs(), w, p, Publishing(0))
      modifies st
      ensures st.Valid() && w !in st.Abs().work && Finished(st.Abs(), p.id)
      ensures Took(old(st.trace), st.trace, Worker(w), calls)
      ensures IsHandling([Work(w, WorkOp.Pop)] + calls, w, |p.recipients|, dlq.limit)
    {
      var ok, routing := RouteMessage(w, p);
      ghost var routed := st.trace;
      ghost var rest := [];
      if !ok {
        rest := GiveUpOn(w, p);
      }
      HandlingCalls(w, |p.recipients|, dlq.limit, ok, routing, rest);
      calls := routing + rest;
      TookBoth(old(st.trace), routed, st.trace, Worker(w), routing, rest);
    }
  }
}
