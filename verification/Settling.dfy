/** What termination means for messages: how much work a backlog is, that the engine cannot get
    stuck on it, and what every message has become once it is done. */
module Settling {
  import opened Model
  import opened Pipeline
  import opened Sums
  import C = Conservation
  import L = Ledger
  import E = Entries
  import O = OneLoop
  import A = Agreement
  import T = Termination

  // ----- the engine is never stuck ----------------------------------------------------------------

  ghost predicate CanGoOn(s: State, limit: int) {
    exists step :: T.Engine(step, limit) && Enabled(s, step)
  }

  lemma WorkerGoesOn(s: State, w: nat, eid: Uuid, limit: int)
    requires w in s.work && L.TaskRun(s.work[w], w, s.runs) && C.Known(s.rows, s.work[w].payload)
    requires s.work[w].pc != MarkingFailed && eid !in s.entries
    ensures CanGoOn(s, limit)
  {
    var n := |s.work[w].payload.recipients|;
    var step := Work(w, match s.work[w].pc
      case Publishing(k) => if n == 0 then FindNoRoutes else if k < n then Publish(Done) else WriteSent(Done)
      case MarkingDead => WriteDead(Done)
      case Enqueueing => Enqueue(eid, limit, 0, true, Done)
      case MarkingFailed => WriteFailed(Done));
    assert T.Engine(step, limit) && Enabled(s, step);
  }

  lemma LoopGoesOn(s: State, limit: int)
    requires 0 in s.loops && L.LoopRun(s.loops[0], 0, s.runs)
    ensures CanGoOn(s, limit)
  {
    var n := |Current(s, 0).entry.payload.recipients|;
    var step := Retry(0, match s.loops[0].pc
      case Next => Take
      case Republishing(_, k) =>
        if n == 0 then FindNoRecipients else if k < n then Republish(Done) else RewriteSent(Done)
      case GivingUp => GiveUp(Done)
      case Marking(_, _) => Mark(Done));
    assert T.Engine(step, limit) && Enabled(s, step);
  }

  lemma PopGoesOn(s: State, limit: int)
    requires |s.queue| > 0 && s.work == map[]
    ensures CanGoOn(s, limit)
  {
    assert T.Engine(Work(0, Pop), limit) && Enabled(s, Work(0, Pop));
  }

  lemma ListGoesOn(s: State, e: Uuid, limit: int)
    requires Listable(s, e) && 0 !in s.loops
    ensures CanGoOn(s, limit)
  {
    var batch := T.CanAlwaysList(s, 0, e);
    assert T.Engine(Retry(0, List(batch)), limit) && Enabled(s, Retry(0, List(batch)));
  }

  lemma RestOrGoOn(s: State, eid: Uuid, limit: int)
    requires L.WorkRuns(s.work, s.runs) && L.LoopRuns(s.loops, s.runs) && C.WorkKnown(s.rows, s.work)
    requires (forall w | w in s.work :: s.work[w].pc != MarkingFailed) && eid !in s.entries
    ensures T.AtRest(s) || CanGoOn(s, limit)
  {
    if 0 in s.loops {
      LoopGoesOn(s, limit);
    } else if s.work != map[] {
      var w :| w in s.work;
      WorkerGoesOn(s, w, eid, limit);
    } else if |s.queue| > 0 {
      PopGoesOn(s, limit);
    } else if exists e :: Listable(s, e) {
      var e :| Listable(s, e);
      ListGoesOn(s, e, limit);
    }
  }

  // ----- the configured retry limit ---------------------------------------------------------------

  predicate Configured(step: Step, limit: int) {
    A.Clean(step) && (step.Work? && step.wop.Enqueue? ==> step.wop.maxRetries == limit)
  }

  predicate AllConfigured(steps: seq<Step>, limit: int) {
    forall i | 0 <= i < |steps| :: Configured(steps[i], limit)
  }

  predicate Limited(entries: map<Uuid, Entry>, limit: int) {
    forall e | e in entries :: entries[e].maxRetries == limit
  }

  lemma StepKeepsLimit(s: State, step: Step, limit: int)
    requires Enabled(s, step) && Configured(step, limit) && Limited(s.entries, limit)
    ensures Limited(Apply(s, step).entries, limit)
  {
    match step
    case Send(op) => E.SendIsApart(s, op);
    case Work(w, Enqueue(eid, maxRetries, createdAt, readable, out)) =>
      assert Limited(DoEnqueue(s, w, eid, maxRetries, createdAt, readable, out).entries, limit);
    case Work(w, op) => E.WorkIsApart(s, w, op);
    case Retry(l, op) => C.RetryStays(s, l, op);
    case Acknowledge(h, op) => E.AckIsApart(s, h, op);
  }

  lemma {:induction false} RunKeepsLimit(s: State, steps: seq<Step>, limit: int)
    requires CanRun(s, steps) && AllConfigured(steps, limit) && Limited(s.entries, limit)
    ensures Limited(Exec(s, steps).entries, limit)
    decreases |steps|
  {
    if |steps| > 0 {
      StepKeepsLimit(s, steps[0], limit);
      RunKeepsLimit(Apply(s, steps[0]), steps[1..], limit);
    }
  }

  // ----- what has become of messages --------------------------------------------------------------

  lemma NothingWaits(s: State, id: Uuid, limit: int)
    requires T.AtRest(s) && limit > 0 && Limited(s.entries, limit)
    requires E.ProgressInv(s.entries, s.progress) && C.EntryKeys(s.entries, s.progress, s.refused)
    ensures !A.EntryAt(s, id, Waiting)
  {
    forall e | e in s.entries && e in s.progress
      ensures s.progress[e].status != Waiting
    {
      assert E.Sane(s.entries[e], s.progress[e]) && !Listable(s, e);
    }
  }

  lemma RestFacts(steps: seq<Step>)
    requires CanRun(Init, steps) && A.AllClean(steps)
    ensures
      var s := Exec(Init, steps);
      && E.ProgressInv(s.entries, s.progress) && C.EntryKeys(s.entries, s.progress, s.refused)
  {
    T.CleanFacts(steps);
  }

  lemma ConfiguredIsClean(steps: seq<Step>, limit: int)
    requires AllConfigured(steps, limit)
    ensures A.AllClean(steps)
  {
    forall i | 0 <= i < |steps|
      ensures A.Clean(steps[i])
    {
      assert Configured(steps[i], limit);
    }
  }

  /** When a clean run with a positive retry limit is at rest, every message whose `Send` succeeded
      and that nobody acknowledged is `sent` or `failed`. */
  lemma RestSettlesAll(steps: seq<Step>, id: Uuid, limit: int)
    requires CanRun(Init, steps) && AllConfigured(steps, limit) && limit > 0
    requires
      var s := Exec(Init, steps);
      T.AtRest(s) && id in s.accepted && A.Unacked(s.acks, id)
    ensures
      var s := Exec(Init, steps);
      id in s.status && (s.status[id] == Sent || s.status[id] == Failed)
  {
    var s := Exec(Init, steps);
    ConfiguredIsClean(steps, limit);
    RunKeepsLimit(Init, steps, limit);
    RestFacts(steps);
    NothingWaits(s, id, limit);
    C.MessagesConserved(steps, id);
    A.StatusAtBoundary(steps, id);
  }

  // ----- how much work a backlog is ---------------------------------------------------------------

  /** The backlog: one handling and `limit` retries for each queued message, `limit` retries for
      each message with a worker, and the retries left of every pending entry. */
  ghost function Backlog(s: State, limit: int): nat {
    |s.queue| * (1 + T.Retries(limit)) + |s.work| * T.Retries(limit)
      + Sum(s.entries.Keys, e => E.RetriesLeft(s.entries, s.progress, e))
  }

  function QueuedShare(s: State, limit: int, id: Uuid): nat {
    if id in s.place && s.place[id] == Queued then 1 + T.Retries(limit) else 0
  }

  function HeldShare(s: State, limit: int, id: Uuid): nat {
    if id in s.place && C.Held(s.place[id]) then T.Retries(limit) else 0
  }

  function DeadShare(s: State, id: Uuid): nat {
    if id in s.entryOf then E.RetriesLeft(s.entries, s.progress, s.entryOf[id]) else 0
  }

  /** Every message is in one place, so its share of what is left comes from one part of the backlog. */
  lemma LeftIsShares(s: State, limit: int, id: Uuid)
    requires id in s.place && id in s.rows && C.WorkInv(s.place, s.work)
    requires C.DeadInv(s.place, s.entryOf) && A.Agrees(s, id)
    requires forall w | w in s.work :: s.work[w].pc != MarkingFailed
    ensures T.Left(false, limit, s, id) == QueuedShare(s, limit, id) + HeldShare(s, limit, id) + DeadShare(s, id)
  {}

  lemma {:induction false} Upto(n: nat) returns (r: set<nat>)
    ensures |r| == n && forall i: nat :: i in r <==> i < n
  {
    r := {};
    if n > 0 {
      var rest := Upto(n - 1);
      r := rest + {n - 1};
    }
  }

  /** Where the messages that are still to be popped are in the list. */
  ghost function IndexOf(s: State): map<Uuid, nat>
    requires C.OrderInv(s.pushed, s.order)
  {
    map id | id in s.order && s.order[id] >= s.popped :: |s.pushed| - 1 - s.order[id]
  }

  lemma IndexIsTaken(s: State, i: nat)
    requires C.QueueInv(s.queue, s.pushed, s.popped) && C.OrderInv(s.pushed, s.order)
    requires C.PlaceInv(s.place, s.order, s.popped)
    requires i < |s.queue|
    ensures exists id | id in s.place.Keys :: id in IndexOf(s) && IndexOf(s)[id] == i
  {
    var id := s.queue[i].id;
    assert s.order[id] == |s.pushed| - 1 - i;
    assert id in s.place.Keys && id in IndexOf(s) && IndexOf(s)[id] == i;
  }

  lemma QueuedShares(s: State, limit: int, each: nat, indices: set<nat>)
    requires C.QueueInv(s.queue, s.pushed, s.popped) && C.OrderInv(s.pushed, s.order)
    requires C.PlaceInv(s.place, s.order, s.popped)
    requires each == 1 + T.Retries(limit) && forall i: nat :: i in indices <==> i < |s.queue|
    ensures Sum(s.place.Keys, id => QueuedShare(s, limit, id)) == Sum(indices, _ => each)
  {
    var m := IndexOf(s);
    forall i: nat | i in indices
      ensures exists id | id in s.place.Keys :: id in m && m[id] == i
    {
      IndexIsTaken(s, i);
    }
    forall j, k | j in s.place.Keys && k in s.place.Keys && j in m && k in m && m[j] == m[k]
      ensures j == k
    {
      assert s.pushed[s.order[j]].id == j && s.pushed[s.order[k]].id == k;
    }
    SumRenames(s.place.Keys, id => QueuedShare(s, limit, id), m, indices, _ => each);
  }

  lemma QueuedTotal(s: State, limit: int)
    requires C.QueueInv(s.queue, s.pushed, s.popped) && C.OrderInv(s.pushed, s.order)
    requires C.PlaceInv(s.place, s.order, s.popped)
    ensures Sum(s.place.Keys, id => QueuedShare(s, limit, id)) == |s.queue| * (1 + T.Retries(limit))
  {
    var indices := Upto(|s.queue|);
    var each := 1 + T.Retries(limit);
    QueuedShares(s, limit, each, indices);
    SumCounts(indices, _ => each, indices, each);
  }

  lemma HeldTotal(s: State, limit: int)
    requires C.WorkInv(s.place, s.work)
    ensures Sum(s.place.Keys, id => HeldShare(s, limit, id)) == |s.work| * T.Retries(limit)
  {
    var m: map<Uuid, nat> := map id | id in s.place && C.Held(s.place[id]) :: s.place[id].w;
    forall w | w in s.work.Keys
      ensures exists id | id in s.place.Keys :: id in m && m[id] == w
    {
      var id := s.work[w].payload.id;
      assert id in s.place.Keys && id in m && m[id] == w;
    }
    SumRenames(s.place.Keys, id => HeldShare(s, limit, id), m, s.work.Keys, _ => T.Retries(limit));
    SumCounts(s.work.Keys, _ => T.Retries(limit), s.work.Keys, T.Retries(limit));
  }

  lemma DeadTotal(s: State)
    requires C.EntryInv(s.entries, s.entryOf) && C.DeadInv(s.place, s.entryOf)
    ensures Sum(s.place.Keys, id => DeadShare(s, id))
      == Sum(s.entries.Keys, e => E.RetriesLeft(s.entries, s.progress, e))
  {
    forall e | e in s.entries.Keys
      ensures exists id | id in s.place.Keys :: id in s.entryOf && s.entryOf[id] == e
    {
      var id := s.entries[e].payload.id;
      assert id in s.place.Keys && id in s.entryOf && s.entryOf[id] == e;
    }
    SumRenames(s.place.Keys, id => DeadShare(s, id), s.entryOf, s.entries.Keys,
      e => E.RetriesLeft(s.entries, s.progress, e));
  }

  lemma LeftIsBacklog(s: State, limit: int)
    requires O.Good(s) && A.Inv(s)
    ensures T.TotalLeft(false, limit, s) == Backlog(s, limit)
  {
    A.NeverMarksFailed(s);
    forall id | id in s.place.Keys
      ensures T.Left(false, limit, s, id) == QueuedShare(s, limit, id) + HeldShare(s, limit, id) + DeadShare(s, id)
    {
      assert A.Agrees(s, id);
      LeftIsShares(s, limit, id);
    }
    QueuedTotal(s, limit);
    HeldTotal(s, limit);
    DeadTotal(s);
    SharesAdd(s, limit);
  }

  lemma SharesAdd(s: State, limit: int)
    requires forall id | id in s.place.Keys ::
      T.Left(false, limit, s, id) == QueuedShare(s, limit, id) + HeldShare(s, limit, id) + DeadShare(s, id)
    ensures T.TotalLeft(false, limit, s) == Sum(s.place.Keys, id => QueuedShare(s, limit, id))
      + Sum(s.place.Keys, id => HeldShare(s, limit, id)) + Sum(s.place.Keys, id => DeadShare(s, id))
  {
    SumAdds(s.place.Keys, id => QueuedShare(s, limit, id), id => HeldShare(s, limit, id),
      id => QueuedShare(s, limit, id) + HeldShare(s, limit, id));
    SumAdds(s.place.Keys, id => QueuedShare(s, limit, id) + HeldShare(s, limit, id), id => DeadShare(s, id),
      id => T.Left(false, limit, s, id));
  }

  // ----- main results -----------------------------------------------------------------------------

  /** With no sends, no failed database write and one retry loop, the messages that workers pop and
      the retries that the loop completes number at most the backlog. */
  lemma BacklogBoundsWork(steps: seq<Step>, more: seq<Step>, limit: int)
    requires CanRun(Init, steps) && A.AllClean(steps) && CanRun(Exec(Init, steps), more) && T.AllAllowed(more, limit)
    ensures T.TotalCost(false, more) <= Backlog(Exec(Init, steps), limit)
  {
    T.RunPays(steps, more, false, limit);
    T.CleanFacts(steps);
    LeftIsBacklog(Exec(Init, steps), limit);
  }

  /** All steps of workers and of the loop together are bounded too, and until the engine is at
      rest it can take another one. So it comes to rest, and `RestSettlesAll` applies. */
  lemma EngineComesToRest(steps: seq<Step>, more: seq<Step>, eid: Uuid, limit: int)
    requires CanRun(Init, steps) && A.AllClean(steps) && CanRun(Exec(Init, steps), more) && T.AllAllowed(more, limit)
    requires eid !in Exec(Exec(Init, steps), more).entries
    ensures T.TotalCost(true, more) <= T.TotalLeft(true, limit, Exec(Init, steps))
    ensures T.AtRest(Exec(Exec(Init, steps), more)) || CanGoOn(Exec(Exec(Init, steps), more), limit)
  {
    T.RunPays(steps, more, true, limit);
    ExecAppend(Init, steps, more);
    AllowedIsClean(steps, more, limit);
    RestOrGoOnAfter(steps + more, eid, limit);
  }

  lemma AllowedIsClean(steps: seq<Step>, more: seq<Step>, limit: int)
    requires A.AllClean(steps) && T.AllAllowed(more, limit)
    ensures A.AllClean(steps + more)
  {
    forall i | 0 <= i < |more|
      ensures A.Clean(more[i])
    {
      assert T.Allowed(more[i], limit);
    }
  }

  lemma RestOrGoOnAfter(steps: seq<Step>, eid: Uuid, limit: int)
    requires CanRun(Init, steps) && A.AllClean(steps) && eid !in Exec(Init, steps).entries
    ensures T.AtRest(Exec(Init, steps)) || CanGoOn(Exec(Init, steps), limit)
  {
    var s := Exec(Init, steps);
    T.CleanFacts(steps);
    A.NeverMarksFailed(s);
    RestOrGoOn(s, eid, limit);
  }
}
