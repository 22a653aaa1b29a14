/** A confirmed status of an exposed message can still be replaced: whatever else is going on, some
    worker or retry loop can go on and do it. */
module Exposure {
  import opened Model
  import opened Pipeline
  import opened Drive
  import opened Overwrites
  import opened Sums
  import C = Conservation
  import L = Ledger
  import E = Entries
  import T = Termination
  import H = Threads

  /** Steps that are no acknowledgements lead from `s` to a state where the status of `id` is one that
      acknowledgements never confirm with. */
  ghost predicate Hides(s: State, steps: seq<Step>, t: State, id: Uuid) {
    Leads(s, steps, t) && NoUpdates(steps) && id in t.status && !Confirmed(t.status[id])
  }

  lemma HidesLater(s: State, first: seq<Step>, u: State, more: seq<Step>, t: State, id: Uuid)
    requires Leads(s, first, u) && NoUpdates(first) && Hides(u, more, t, id)
    ensures Hides(s, first + more, t, id)
  {
    LeadsOn(s, first, u, more, t);
  }

  lemma HidesNext(s: State, step: Step, more: seq<Step>, t: State, id: Uuid)
    requires Enabled(s, step) && !Updates(step) && Hides(Apply(s, step), more, t, id)
    ensures Hides(s, [step] + more, t, id)
  {
    ExecCons(s, step, more);
  }

  lemma HidesNow(s: State, step: Step, id: Uuid)
    requires Enabled(s, step) && !Updates(step) && id in Apply(s, step).status && !Confirmed(Apply(s, step).status[id])
    ensures Hides(s, [step], Apply(s, step), id)
  {
    HidesNext(s, step, [], Apply(s, step), id);
    assert [step] + [] == [step];
  }

  // ----- messages that a worker holds -------------------------------------------------------------

  /** The worker's position is one that the step system can lead to. */
  predicate SteadyWorker(s: State, w: nat, id: Uuid) {
    && w in s.work && s.work[w].payload.id == id && id in s.status
    && (s.work[w].pc.Publishing? ==> s.work[w].run < |s.runs| && s.work[w].pc.next <= |s.work[w].payload.recipients|)
  }

  lemma DeadHides(s: State, w: nat, id: Uuid) returns (steps: seq<Step>, t: State)
    requires SteadyWorker(s, w, id) && s.work[w].pc.MarkingDead?
    ensures Hides(s, steps, t, id)
  {
    steps, t := [Work(w, WriteDead(Done))], DoWriteDead(s, w, Done);
    HidesNow(s, Work(w, WriteDead(Done)), id);
  }

  lemma FailedHides(s: State, w: nat, id: Uuid) returns (steps: seq<Step>, t: State)
    requires SteadyWorker(s, w, id) && s.work[w].pc.MarkingFailed?
    ensures Hides(s, steps, t, id)
  {
    steps, t := [Work(w, WriteFailed(Done))], DoWriteFailed(s, w, Done);
    HidesNow(s, Work(w, WriteFailed(Done)), id);
  }

  lemma EnqueueingHides(s: State, w: nat, id: Uuid) returns (steps: seq<Step>, t: State)
    requires SteadyWorker(s, w, id) && s.work[w].pc.Enqueueing?
    ensures Hides(s, steps, t, id)
  {
    var step := Work(w, Enqueue(NIL_UUID, 0, 0, true, Refused));
    var u := DoEnqueue(s, w, NIL_UUID, 0, 0, true, Refused);
    var more;
    more, t := FailedHides(u, w, id);
    HidesNext(s, step, more, t, id);
    steps := [step] + more;
  }

  lemma SentHides(s: State, w: nat, id: Uuid) returns (steps: seq<Step>, t: State)
    requires SteadyWorker(s, w, id) && CanWriteSent(s, w)
    ensures Hides(s, steps, t, id)
  {
    steps, t := [Work(w, WriteSent(Done))], DoWriteSent(s, w, Done);
    HidesNow(s, Work(w, WriteSent(Done)), id);
  }

  lemma UnroutableHides(s: State, w: nat, id: Uuid) returns (steps: seq<Step>, t: State)
    requires SteadyWorker(s, w, id) && NoRoutes(s, w)
    ensures Hides(s, steps, t, id)
  {
    var u := s.(work := Move(s, w, MarkingDead));
    var more;
    more, t := DeadHides(u, w, id);
    HidesNext(s, Work(w, FindNoRoutes), more, t, id);
    steps := [Work(w, FindNoRoutes)] + more;
  }

  lemma UnpublishedHides(s: State, w: nat, id: Uuid) returns (steps: seq<Step>, t: State)
    requires SteadyWorker(s, w, id) && CanPublish(s, w)
    ensures Hides(s, steps, t, id)
  {
    var u := DoPublish(s, w, Refused);
    var more;
    more, t := DeadHides(u, w, id);
    HidesNext(s, Work(w, Publish(Refused)), more, t, id);
    steps := [Work(w, Publish(Refused))] + more;
  }

  lemma PublishingHides(s: State, w: nat, id: Uuid) returns (steps: seq<Step>, t: State)
    requires SteadyWorker(s, w, id) && s.work[w].pc.Publishing?
    ensures Hides(s, steps, t, id)
  {
    var n := |s.work[w].payload.recipients|;
    if n == 0 {
      steps, t := UnroutableHides(s, w, id);
    } else if s.work[w].pc.next == n {
      steps, t := SentHides(s, w, id);
    } else {
      steps, t := UnpublishedHides(s, w, id);
    }
  }

  lemma HeldHides(s: State, w: nat, id: Uuid) returns (steps: seq<Step>, t: State)
    requires SteadyWorker(s, w, id)
    ensures Hides(s, steps, t, id)
  {
    match s.work[w].pc {
      case Publishing(_) => steps, t := PublishingHides(s, w, id);
      case MarkingDead => steps, t := DeadHides(s, w, id);
      case Enqueueing => steps, t := EnqueueingHides(s, w, id);
      case MarkingFailed => steps, t := FailedHides(s, w, id);
    }
  }

  // ----- messages that are queued or to be pushed -------------------------------------------------

  lemma {:induction false} Above(some: set<nat>) returns (n: nat)
    ensures forall k | k in some :: k < n
    decreases |some|
  {
    n := 0;
    if some != {} {
      var k :| k in some;
      var rest := Above(some - {k});
      n := if k < rest then rest else k + 1;
      assert forall j | j in some :: j == k || j in some - {k};
    }
  }

  /** Idle workers pop everything up to the message. */
  lemma {:induction false} QueuedHides(s: State, i: nat, id: Uuid) returns (steps: seq<Step>, t: State)
    requires i < |s.queue| && s.queue[i].id == id && id in s.status
    ensures Hides(s, steps, t, id)
    decreases |s.queue| - i
  {
    var w := Above(s.work.Keys);
    var u := DoPop(s, w);
    var more;
    if i == |s.queue| - 1 {
      more, t := HeldHides(u, w, id);
    } else {
      more, t := QueuedHides(u, i, id);
    }
    HidesNext(s, Work(w, Pop), more, t, id);
    steps := [Work(w, Pop)] + more;
  }

  lemma InsertedHides(s: State, id: Uuid) returns (steps: seq<Step>, t: State)
    requires CanPush(s, id) && id in s.status
    ensures Hides(s, steps, t, id)
  {
    var u := DoPush(s, id, Done);
    var more;
    more, t := QueuedHides(u, 0, id);
    HidesNext(s, Send(Push(id, Done)), more, t, id);
    steps := [Send(Push(id, Done))] + more;
  }

  // ----- messages whose entry is exposed ----------------------------------------------------------

  lemma OnlyLoopUpdatesNone(steps: seq<Step>, l: nat)
    requires OnlyLoop(steps, l)
    ensures NoUpdates(steps)
  {}

  /** The entry is that of the message, decodes, and has someone to be published to. */
  predicate Concerns(e: Entry, id: Uuid) {
    e.readable && e.payload.id == id && |e.payload.recipients| > 0
  }

  /** A loop that is not yet about to write the entry first writes the status of its message. */
  lemma CurrentHides(s: State, l: nat, id: Uuid) returns (steps: seq<Step>, t: State)
    requires Steady(s, l) && Concerns(Current(s, l).entry, id) && !s.loops[l].pc.Marking? && id in s.status
    ensures Hides(s, steps, t, id)
  {
    steps, t := Steer(s, l, true, Done);
    OnlyLoopUpdatesNone(steps, l);
  }

  lemma AheadHides(s: State, l: nat, i: nat, id: Uuid) returns (steps: seq<Step>, t: State)
    requires Steady(s, l) && s.loops[l].index <= i < |s.loops[l].batch| && id in s.status
    requires Concerns(s.loops[l].batch[i].entry, id) && !PcAt(s.loops[l], i).Marking?
    ensures Hides(s, steps, t, id)
  {
    var first, u := Reach(s, l, i);
    OnlyLoopUpdatesNone(first, l);
    var more;
    more, t := CurrentHides(u, l, id);
    HidesLater(s, first, u, more, t, id);
    steps := first + more;
  }

  /** The retries that all entries together have left. */
  ghost function TotalLeft(s: State): nat {
    Sum(s.entries.Keys, e => E.RetriesLeft(s.entries, s.progress, e))
  }

  /** An update of an entry that could be listed leaves it fewer retries, and the others theirs. */
  lemma FinishedHasLess(s: State, l: nat, t: State)
    requires Steady(s, l) && s.loops[l].pc == Next && Reads(s, Current(s, l)) && t.entries == s.entries
    requires
      var end := Ending(Current(s, l), Next, true);
      t.progress == s.progress[Current(s, l).eid := Progress(end.status, end.count, end.status.Terminal())]
    ensures TotalLeft(t) < TotalLeft(s)
  {
    var c := Current(s, l);
    SumFalls(s.entries.Keys, e => E.RetriesLeft(t.entries, t.progress, e), e => E.RetriesLeft(s.entries, s.progress, e),
      c.eid, 1);
  }

  /** A fresh loop lists the entry, or older ones in its place. */
  lemma {:induction false} ListableHides(s: State, e: Uuid, id: Uuid) returns (steps: seq<Step>, t: State)
    requires Listable(s, e) && Concerns(s.entries[e], id) && id in s.status
    ensures Hides(s, steps, t, id)
    decreases TotalLeft(s)
  {
    var l := Above(s.loops.Keys);
    var batch := T.CanAlwaysList(s, l, e);
    var u := s.(loops := s.loops[l := Loop(batch, 0, Next)]);
    var more;
    if i :| 0 <= i < |batch| && batch[i].eid == e {
      assert Reads(s, batch[i]);
      more, t := AheadHides(u, l, i, id);
    } else {
      more, t := OthersFirst(s, u, l, e, id);
    }
    HidesNext(s, Retry(l, List(batch)), more, t, id);
    steps := [Retry(l, List(batch))] + more;
  }

  /** The first entry of the listing is retried, and has fewer retries left. */
  lemma {:induction false} OthersFirst(s: State, u: State, l: nat, e: Uuid, id: Uuid)
      returns (steps: seq<Step>, t: State)
    requires Listable(s, e) && Concerns(s.entries[e], id) && id in s.status
    requires l in u.loops && CanList(s, l, u.loops[l].batch)
    requires u == s.(loops := s.loops[l := Loop(u.loops[l].batch, 0, Next)])
    requires u.loops[l].batch[0].eid != e
    ensures Hides(u, steps, t, id)
    decreases TotalLeft(s), 0
  {
    assert Reads(s, u.loops[l].batch[0]);
    var first, v := Finish(u, l, true);
    OnlyLoopUpdatesNone(first, l);
    FinishedHasLess(u, l, v);
    var more;
    more, t := ListableHides(v, e, id);
    HidesLater(u, first, v, more, t, id);
    steps := first + more;
  }

  /** A loop that is about to leave an entry waiting makes it one that can be listed. */
  lemma WaitingHides(s: State, l: nat, e: Uuid, id: Uuid) returns (steps: seq<Step>, t: State)
    requires Steady(s, l) && Current(s, l).eid == e && s.loops[l].pc.Marking? && s.loops[l].pc.status == Waiting
    requires e in s.entries && e in s.progress && Concerns(s.entries[e], id) && id in s.status
    requires s.loops[l].pc.count < s.entries[e].maxRetries
    ensures Hides(s, steps, t, id)
  {
    var first, u := Finish(s, l, true);
    OnlyLoopUpdatesNone(first, l);
    var more;
    more, t := ListableHides(u, e, id);
    HidesLater(s, first, u, more, t, id);
    steps := first + more;
  }

  // ----- facts about reachable states -------------------------------------------------------------

  predicate Addressed(rows: map<Uuid, Row>) {
    forall id | id in rows :: |rows[id].recipients| > 0
  }

  lemma InsertKeepsAddressed(s: State, p: Payload, tenant: Uuid, out: Outcome)
    requires Addressed(s.rows) && CanInsert(s, p, out)
    ensures Addressed(DoInsert(s, p, tenant, out).rows)
  {}

  lemma WorkKeepsRows(s: State, w: nat, op: WorkOp)
    requires C.Inv(s) && CanWork(s, w, op)
    ensures DoWork(s, w, op).rows == s.rows
  {
    H.WorkDisturbsNobody(s, w, op);
  }

  lemma StepKeepsAddressed(s: State, step: Step)
    requires C.Inv(s) && Addressed(s.rows) && Enabled(s, step)
    ensures Addressed(Apply(s, step).rows)
  {
    match step
    case Send(Insert(p, tenant, out)) => InsertKeepsAddressed(s, p, tenant, out);
    case Send(Push(_, _)) =>
    case Work(w, op) => WorkKeepsRows(s, w, op);
    case Retry(l, op) => C.RetryStays(s, l, op);
    case Acknowledge(h, op) => C.AckStays(s, h, op);
  }

  /** Every message has a recipient. */
  lemma {:induction false} RunKeepsAddressed(s: State, steps: seq<Step>)
    requires C.Inv(s) && Addressed(s.rows) && CanRun(s, steps)
    ensures Addressed(Exec(s, steps).rows)
    decreases |steps|
  {
    if |steps| > 0 {
      StepKeepsAddressed(s, steps[0]);
      C.StepKeepsInv(s, steps[0]);
      RunKeepsAddressed(Apply(s, steps[0]), steps[1..]);
    }
  }

  lemma PushFacts(steps: seq<Step>, id: Uuid)
    requires CanRun(Init, steps) && id in Exec(Init, steps).place && Exec(Init, steps).place[id] == Inserted
    ensures CanPush(Exec(Init, steps), id)
  {
    C.RunKeepsInv(Init, steps);
  }

  lemma QueueIndex(steps: seq<Step>, id: Uuid) returns (i: nat)
    requires CanRun(Init, steps) && id in Exec(Init, steps).place && Exec(Init, steps).place[id] == Queued
    ensures i < |Exec(Init, steps).queue| && Exec(Init, steps).queue[i].id == id
  {
    C.RunKeepsInv(Init, steps);
    var s := Exec(Init, steps);
    C.QueueMembership(s, id);
    i :| 0 <= i < |s.queue| && s.queue[i].id == id;
  }

  lemma HolderFacts(steps: seq<Step>, id: Uuid)
    requires CanRun(Init, steps) && id in Exec(Init, steps).status
    requires id in Exec(Init, steps).place && C.Held(Exec(Init, steps).place[id])
    ensures SteadyWorker(Exec(Init, steps), Exec(Init, steps).place[id].w, id)
  {
    L.RunKeepsInv(Init, steps);
    HolderIsSteady(Exec(Init, steps), id);
  }

  lemma HolderIsSteady(s: State, id: Uuid)
    requires C.WorkInv(s.place, s.work) && L.WorkRuns(s.work, s.runs)
    requires id in s.status && id in s.place && C.Held(s.place[id])
    ensures SteadyWorker(s, s.place[id].w, id)
  {
    var w := s.place[id].w;
    assert w in s.work && L.TaskRun(s.work[w], w, s.runs);
  }

  lemma EntryFacts(steps: seq<Step>, id: Uuid)
    requires CanRun(Init, steps) && id in Exec(Init, steps).entryOf
    ensures
      var s := Exec(Init, steps);
      var e := s.entryOf[id];
      e in s.entries && e in s.progress && (s.entries[e].readable ==> Concerns(s.entries[e], id))
  {
    TableFacts(steps);
    var s := Exec(Init, steps);
    assert C.Known(s.rows, s.entries[s.entryOf[id]].payload);
  }

  lemma TableFacts(steps: seq<Step>)
    requires CanRun(Init, steps)
    ensures
      var s := Exec(Init, steps);
      && C.EntryInv(s.entries, s.entryOf) && s.progress.Keys == s.entries.Keys
      && C.EntriesKnown(s.rows, s.entries) && Addressed(s.rows)
  {
    C.RunKeepsInv(Init, steps);
    RunKeepsAddressed(Init, steps);
  }

  lemma BatchFacts(steps: seq<Step>, l: nat, i: nat)
    requires CanRun(Init, steps) && l in Exec(Init, steps).loops && i < |Exec(Init, steps).loops[l].batch|
    ensures
      var s := Exec(Init, steps);
      var x := s.loops[l];
      && x.batch[i].eid in s.entries && s.entries[x.batch[i].eid] == x.batch[i].entry
      && (i == x.index && x.pc.Marking? && x.pc.status == Waiting ==> x.pc.count < x.batch[i].entry.maxRetries)
  {
    StepFacts(steps);
    var s := Exec(Init, steps);
    var x := s.loops[l];
    assert L.Genuine(x, s.entries) && E.SoundLoop(x) && E.Retriable(x.batch[i]);
  }

  // ----- main results -----------------------------------------------------------------------------

  lemma LiveHides(steps: seq<Step>, l: nat, i: nat, id: Uuid) returns (more: seq<Step>, t: State)
    requires CanRun(Init, steps) && id in Exec(Init, steps).status && id in Exec(Init, steps).entryOf
    requires
      var s := Exec(Init, steps);
      var e := s.entryOf[id];
      e in s.entries && s.entries[e].readable && l in s.loops && LiveAt(s.loops[l], i, e)
    ensures Hides(Exec(Init, steps), more, t, id)
  {
    var s := Exec(Init, steps);
    SteadyLoops(steps, l);
    BatchFacts(steps, l, i);
    EntryFacts(steps, id);
    if PcAt(s.loops[l], i).Marking? {
      more, t := WaitingHides(s, l, s.entryOf[id], id);
    } else {
      more, t := AheadHides(s, l, i, id);
    }
  }

  lemma EntryHides(steps: seq<Step>, id: Uuid) returns (more: seq<Step>, t: State)
    requires CanRun(Init, steps) && id in Exec(Init, steps).status && id in Exec(Init, steps).entryOf
    requires EntryExposed(Exec(Init, steps), Exec(Init, steps).entryOf[id])
    ensures Hides(Exec(Init, steps), more, t, id)
  {
    var s := Exec(Init, steps);
    var e := s.entryOf[id];
    if Listable(s, e) {
      EntryFacts(steps, id);
      more, t := ListableHides(s, e, id);
    } else {
      var l :| l in s.loops && LiveAhead(s.loops[l], e);
      var i :| 0 <= i < |s.loops[l].batch| && LiveAt(s.loops[l], i, e);
      more, t := LiveHides(steps, l, i, id);
    }
  }

  lemma ExposedHides(steps: seq<Step>, id: Uuid) returns (more: seq<Step>, t: State)
    requires CanRun(Init, steps) && id in Exec(Init, steps).status && Exposed(Exec(Init, steps), id)
    ensures Hides(Exec(Init, steps), more, t, id)
  {
    var s := Exec(Init, steps);
    if s.place[id] == Inserted {
      PushFacts(steps, id);
      more, t := InsertedHides(s, id);
    } else if s.place[id] == Queued {
      var i := QueueIndex(steps, id);
      more, t := QueuedHides(s, i, id);
    } else if C.Held(s.place[id]) {
      HolderFacts(steps, id);
      more, t := HeldHides(s, s.place[id].w, id);
    } else {
      more, t := EntryHides(steps, id);
    }
  }

  /** A run without further acknowledgements, after which the message has another status. */
  ghost predicate Replaces(s: State, more: seq<Step>, id: Uuid)
    requires id in s.status
  {
    CanRun(s, more) && NoUpdates(more) && !StatusIs(Exec(s, more), id, s.status[id])
  }

  /** In every reachable state, with any number of workers and loops: `delivered` or `processed` can
      still be replaced by something that is no acknowledgement exactly if the message is still to be
      pushed, queued or held, or its entry decodes and some loop can list it or has it ahead. */
  lemma CanBeReplacedIff(steps: seq<Step>, id: Uuid)
    requires CanRun(Init, steps) && id in Exec(Init, steps).status && Confirmed(Exec(Init, steps).status[id])
    ensures (exists more :: Replaces(Exec(Init, steps), more, id)) <==> Exposed(Exec(Init, steps), id)
  {
    var s := Exec(Init, steps);
    if Exposed(s, id) {
      var more, t := ExposedHides(steps, id);
      assert Replaces(s, more, id);
    } else {
      forall more | CanRun(s, more) && NoUpdates(more)
        ensures !Replaces(s, more, id)
      {
        OnlyAcksChangeUnexposed(steps, more, id);
      }
    }
  }
}
