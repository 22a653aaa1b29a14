/** Agreement between the stores: with one retry loop and no failed database write, the status of
    an unacknowledged message says where the message is and how its dead-letter entry stands. */
module Agreement {
  import opened Model
  import opened Pipeline
  import C = Conservation
  import L = Ledger
  import S = Soundness
  import E = Entries
  import O = OneLoop

  /** The database does what it is asked; publications, pushes and everything about acknowledgements
      may still fail. Payloads of entries stay readable. */
  predicate Clean(step: Step) {
    && O.Single(step)
    && match step
       case Work(_, WriteSent(out)) => out.Done?
       case Work(_, WriteDead(out)) => out.Done?
       case Work(_, Enqueue(_, _, _, readable, out)) => readable && out.Done?
       case Retry(_, RewriteSent(out)) => out.Done?
       case Retry(_, GiveUp(out)) => out.Done?
       case Retry(_, Mark(out)) => out.Done?
       case _ => true
  }

  predicate AllClean(steps: seq<Step>) {
    forall i | 0 <= i < |steps| :: Clean(steps[i])
  }

  predicate Unacked(acks: map<string, Ack>, id: Uuid) {
    forall n | n in acks :: acks[n].message != id
  }

  /** The status that a retry has written for entry `e` but not yet recorded in it. */
  function Unrecorded(loops: map<nat, Loop>, e: Uuid): EntryStatus {
    if && 0 in loops && loops[0].index < |loops[0].batch|
       && loops[0].batch[loops[0].index].eid == e && loops[0].pc.Marking?
    then loops[0].pc.status else Waiting
  }

  function StatusOf(g: EntryStatus): Status {
    match g
    case Waiting => DeadLetter
    case Republished => Sent
    case Exhausted => Failed
  }

  function ExpectedDead(progress: map<Uuid, Progress>, loops: map<nat, Loop>, e: Uuid): Status {
    if e in progress && progress[e].status != Waiting then StatusOf(progress[e].status)
    else StatusOf(Unrecorded(loops, e))
  }

  /** The status that the other stores imply for a message. */
  function Expected(place: Place, work: map<nat, Task>, s: State, id: Uuid): Status {
    match place
    case InFlight(w) => if w in work && work[w].pc == Enqueueing then DeadLetter else Pending
    case Routed => Sent
    case Dead => if id in s.entryOf then ExpectedDead(s.progress, s.loops, s.entryOf[id]) else DeadLetter
    case _ => Pending
  }

  predicate Agrees(s: State, id: Uuid) {
    id in s.place ==>
      && id in s.status
      && !s.place[id].Doubted? && !s.place[id].EnqueueFailed?
      && (Unacked(s.acks, id) ==> s.status[id] == Expected(s.place[id], s.work, s, id))
  }

  ghost predicate Inv(s: State) {
    (forall id: Uuid :: Agrees(s, id)) && AllReadable(s.entries)
  }

  predicate AllReadable(entries: map<Uuid, Entry>) {
    forall e | e in entries :: entries[e].readable
  }

  // ----- senders and workers ----------------------------------------------------------------------

  lemma InsertAgrees(s: State, p: Payload, tenant: Uuid, out: Outcome, id: Uuid)
    requires Agrees(s, id) && CanInsert(s, p, out)
    ensures Agrees(DoInsert(s, p, tenant, out), id)
  {}

  lemma PushAgrees(s: State, x: Uuid, out: Outcome, id: Uuid)
    requires Agrees(s, id) && CanPush(s, x)
    ensures Agrees(DoPush(s, x, out), id)
  {}

  lemma PopAgrees(s: State, w: nat, id: Uuid)
    requires Agrees(s, id) && CanPop(s, w) && C.WorkInv(s.place, s.work)
    requires s.queue[|s.queue| - 1].id in s.place && s.place[s.queue[|s.queue| - 1].id] == Queued
    ensures Agrees(DoPop(s, w), id)
  {}

  /** A worker turns to publishing or to `dead_letter`, before any write. */
  lemma RoutingAgrees(s: State, w: nat, pc: WorkPc, id: Uuid, t: State)
    requires Agrees(s, id) && w in s.work && s.work[w].pc != Enqueueing && pc != Enqueueing && t.work == Move(s, w, pc)
    requires t.place == s.place && t.status == s.status && t.acks == s.acks && t.entryOf == s.entryOf
    requires t.progress == s.progress && t.loops == s.loops
    ensures Agrees(t, id)
  {}

  lemma WriteSentAgrees(s: State, w: nat, id: Uuid)
    requires Agrees(s, id) && CanWriteSent(s, w) && C.WorkInv(s.place, s.work)
    ensures Agrees(DoWriteSent(s, w, Done), id)
  {}

  lemma WriteDeadAgrees(s: State, w: nat, id: Uuid)
    requires Agrees(s, id) && At(s, w, MarkingDead) && C.WorkInv(s.place, s.work)
    ensures Agrees(DoWriteDead(s, w, Done), id)
  {}

  lemma EnqueueAgrees(s: State, w: nat, eid: Uuid, maxRetries: int, createdAt: int, id: Uuid)
    requires Agrees(s, id) && CanEnqueue(s, w, eid, Done) && C.WorkInv(s.place, s.work)
    requires C.EntryInv(s.entries, s.entryOf) && L.LoopsGenuine(s.loops, s.entries)
    ensures Agrees(DoEnqueue(s, w, eid, maxRetries, createdAt, true, Done), id)
  {
    if id == s.work[w].payload.id {
      EnqueuedAgrees(s, w, eid, maxRetries, createdAt);
    } else {
      OthersStillAgree(s, w, eid, maxRetries, createdAt, id);
    }
  }

  /** The message of a new entry: nothing has been written for the entry yet. */
  lemma EnqueuedAgrees(s: State, w: nat, eid: Uuid, maxRetries: int, createdAt: int)
    requires CanEnqueue(s, w, eid, Done) && C.WorkInv(s.place, s.work) && L.LoopsGenuine(s.loops, s.entries)
    requires Agrees(s, s.work[w].payload.id)
    ensures Agrees(DoEnqueue(s, w, eid, maxRetries, createdAt, true, Done), s.work[w].payload.id)
  {
    assert Unrecorded(s.loops, eid) == Waiting by {
      assert 0 in s.loops ==> L.Genuine(s.loops[0], s.entries);
    }
  }

  lemma OthersStillAgree(s: State, w: nat, eid: Uuid, maxRetries: int, createdAt: int, id: Uuid)
    requires CanEnqueue(s, w, eid, Done) && C.WorkInv(s.place, s.work) && C.EntryInv(s.entries, s.entryOf)
    requires Agrees(s, id) && id != s.work[w].payload.id
    ensures Agrees(DoEnqueue(s, w, eid, maxRetries, createdAt, true, Done), id)
  {}

  // ----- the retry loop ---------------------------------------------------------------------------

  /** The loop moves to a position that has written nothing yet. */
  lemma TurnAgrees(s: State, id: Uuid, t: State)
    requires Agrees(s, id)
    requires t.place == s.place && t.status == s.status && t.acks == s.acks && t.entryOf == s.entryOf
    requires t.progress == s.progress && t.work == s.work
    requires forall e :: Unrecorded(t.loops, e) == Unrecorded(s.loops, e)
    ensures Agrees(t, id)
  {}

  /** The loop writes a status for the message of its entry, and is about to record it. */
  lemma OutcomeAgrees(s: State, g: EntryStatus, count: int, id: Uuid, t: State)
    requires Agrees(s, id) && Busy(s, 0) && !s.loops[0].pc.Marking?
    requires C.EntryInv(s.entries, s.entryOf) && C.DeadInv(s.place, s.entryOf)
    requires L.LoopsGenuine(s.loops, s.entries) && O.Fresh(s)
    requires t.status == SetStatus(s.status, Current(s, 0).entry.payload.id, StatusOf(g), Done)
    requires t.loops == Turn(s, 0, Marking(g, count))
    requires t.place == s.place && t.acks == s.acks && t.entryOf == s.entryOf
    requires t.progress == s.progress && t.work == s.work
    ensures Agrees(t, id)
  {
    var c := Current(s, 0);
    assert L.Genuine(s.loops[0], s.entries) && O.Current0(c, s.progress);
    assert s.entryOf[c.entry.payload.id] == c.eid;
    if id in s.entryOf && id != c.entry.payload.id {
      assert s.entryOf[id] != c.eid;
    }
  }

  lemma MarkAgrees(s: State, id: Uuid)
    requires Agrees(s, id) && CanMark(s, 0) && O.Fresh(s)
    ensures Agrees(DoMark(s, 0, Done), id)
  {
    assert O.Current0(Current(s, 0), s.progress);
  }

  // ----- acknowledgements -------------------------------------------------------------------------

  lemma InsertAckAgrees(s: State, h: nat, out: Outcome, id: Uuid)
    requires Agrees(s, id) && CanInsertAck(s, h, out)
    ensures Agrees(DoInsertAck(s, h, out), id)
  {
    var t := DoInsertAck(s, h, out);
    forall n | n in s.acks && Unacked(t.acks, id)
      ensures s.acks[n].message != id
    {
      assert n in t.acks && t.acks[n] == s.acks[n];
    }
  }

  lemma UpdateStatusAgrees(s: State, h: nat, out: Outcome, id: Uuid)
    requires Agrees(s, id) && CanUpdateStatus(s, h) && S.HandlerInv(s.rows, s.acks, s.handlers)
    ensures Agrees(DoUpdateStatus(s, h, out), id)
  {
    assert S.Recorded(s.acks, s.handlers[h].ack);
  }

  // ----- runs -------------------------------------------------------------------------------------

  lemma Facts(steps: seq<Step>)
    requires CanRun(Init, steps) && AllClean(steps)
    ensures
      var s := Exec(Init, steps);
      && C.WorkInv(s.place, s.work) && C.DeadInv(s.place, s.entryOf) && C.EntryInv(s.entries, s.entryOf)
      && C.EntryKeys(s.entries, s.progress, s.refused) && L.LoopsGenuine(s.loops, s.entries) && O.Fresh(s)
  {
    O.RunKeepsGood(Init, steps);
  }

  lemma QueueFacts(steps: seq<Step>)
    requires CanRun(Init, steps) && |Exec(Init, steps).queue| > 0
    ensures
      var s := Exec(Init, steps);
      var id := s.queue[|s.queue| - 1].id;
      id in s.place && s.place[id] == Queued
  {
    C.RunKeepsInv(Init, steps);
    var s := Exec(Init, steps);
    C.QueuePop(s.queue, s.pushed, s.popped);
    assert s.order[s.pushed[s.popped].id] == s.popped;
  }

  lemma NeverMarksFailed(s: State)
    requires Inv(s) && C.WorkInv(s.place, s.work)
    ensures forall w | w in s.work :: s.work[w].pc != MarkingFailed
  {
    forall w | w in s.work
      ensures s.work[w].pc != MarkingFailed
    {
      assert Agrees(s, s.work[w].payload.id);
    }
  }

  lemma WorkAgrees(steps: seq<Step>, w: nat, op: WorkOp, id: Uuid)
    requires CanRun(Init, steps) && AllClean(steps) && CanWork(Exec(Init, steps), w, op) && Clean(Work(w, op))
    requires Inv(Exec(Init, steps))
    ensures Agrees(DoWork(Exec(Init, steps), w, op), id)
  {
    var s := Exec(Init, steps);
    assert Agrees(s, id);
    Facts(steps);
    NeverMarksFailed(s);
    match op
    case Pop =>
      QueueFacts(steps);
      PopAgrees(s, w, id);
    case FindNoRoutes => RoutingAgrees(s, w, MarkingDead, id, DoWork(s, w, op));
    case Publish(out) => RoutingAgrees(s, w, DoPublish(s, w, out).work[w].pc, id, DoPublish(s, w, out));
    case WriteSent(out) => WriteSentAgrees(s, w, id);
    case WriteDead(out) => WriteDeadAgrees(s, w, id);
    case Enqueue(eid, maxRetries, createdAt, readable, out) => EnqueueAgrees(s, w, eid, maxRetries, createdAt, id);
    case WriteFailed(out) =>
  }

  lemma TakeAgrees(s: State, id: Uuid)
    requires Agrees(s, id) && CanTake(s, 0) && AllReadable(s.entries) && L.LoopsGenuine(s.loops, s.entries)
    ensures Agrees(DoTake(s, 0), id)
  {
    assert L.Genuine(s.loops[0], s.entries);
    TurnAgrees(s, id, DoTake(s, 0));
  }

  lemma OutcomeAgreesAfter(steps: seq<Step>, op: RetryOp, id: Uuid)
    requires CanRun(Init, steps) && AllClean(steps) && CanRetry(Exec(Init, steps), 0, op) && Clean(Retry(0, op))
    requires Agrees(Exec(Init, steps), id) && (op.RewriteSent? || op.GiveUp?)
    ensures Agrees(DoRetry(Exec(Init, steps), 0, op), id)
  {
    Facts(steps);
    if op.RewriteSent? {
      RewriteSentAgrees(Exec(Init, steps), id);
    } else {
      GiveUpAgrees(Exec(Init, steps), id);
    }
  }

  lemma RewriteSentAgrees(s: State, id: Uuid)
    requires Agrees(s, id) && CanRewriteSent(s, 0)
    requires C.EntryInv(s.entries, s.entryOf) && C.DeadInv(s.place, s.entryOf)
    requires L.LoopsGenuine(s.loops, s.entries) && O.Fresh(s)
    ensures Agrees(DoRewriteSent(s, 0, Done), id)
  {
    OutcomeAgrees(s, Republished, Current(s, 0).retryCount + 1, id, DoRewriteSent(s, 0, Done));
  }

  lemma GiveUpAgrees(s: State, id: Uuid)
    requires Agrees(s, id) && CanGiveUp(s, 0)
    requires C.EntryInv(s.entries, s.entryOf) && C.DeadInv(s.place, s.entryOf)
    requires L.LoopsGenuine(s.loops, s.entries) && O.Fresh(s)
    ensures Agrees(DoGiveUp(s, 0, Done), id)
  {
    OutcomeAgrees(s, Exhausted, Current(s, 0).retryCount + 1, id, DoGiveUp(s, 0, Done));
  }

  lemma RetryAgrees(steps: seq<Step>, op: RetryOp, id: Uuid)
    requires CanRun(Init, steps) && AllClean(steps) && CanRetry(Exec(Init, steps), 0, op) && Clean(Retry(0, op))
    requires Agrees(Exec(Init, steps), id) && AllReadable(Exec(Init, steps).entries)
    ensures Agrees(DoRetry(Exec(Init, steps), 0, op), id)
  {
    var s := Exec(Init, steps);
    match op
    case List(batch) => TurnAgrees(s, id, DoRetry(s, 0, op));
    case Take =>
      Facts(steps);
      TakeAgrees(s, id);
    case FindNoRecipients => PublishedAgrees(s, AfterFailure(Current(s, 0)), id, DoRetry(s, 0, op));
    case Republish(out) => PublishedAgrees(s, AfterPublish(s, 0, out), id, DoRepublish(s, 0, out));
    case Mark(out) =>
      Facts(steps);
      MarkAgrees(s, id);
    case _ => OutcomeAgreesAfter(steps, op, id);
  }

  lemma PublishedAgrees(s: State, pc: RetryPc, id: Uuid, t: State)
    requires Agrees(s, id) && Busy(s, 0) && !s.loops[0].pc.Marking? && (pc.Marking? ==> pc.status == Waiting)
      && t.loops == Turn(s, 0, pc)
    requires t.place == s.place && t.status == s.status && t.acks == s.acks && t.entryOf == s.entryOf
    requires t.progress == s.progress && t.work == s.work
    ensures Agrees(t, id)
  {
    TurnAgrees(s, id, t);
  }

  lemma StepAgrees(steps: seq<Step>, step: Step, id: Uuid)
    requires CanRun(Init, steps) && AllClean(steps) && Enabled(Exec(Init, steps), step) && Clean(step)
    requires Inv(Exec(Init, steps))
    ensures Agrees(Apply(Exec(Init, steps), step), id)
  {
    var s := Exec(Init, steps);
    assert Agrees(s, id);
    match step
    case Send(Insert(p, tenant, out)) => InsertAgrees(s, p, tenant, out, id);
    case Send(Push(x, out)) => PushAgrees(s, x, out, id);
    case Work(w, op) => WorkAgrees(steps, w, op, id);
    case Retry(_, op) => RetryAgrees(steps, op, id);
    case Acknowledge(h, Lookup(tenant, a)) => assert Agrees(s.(handlers := s.handlers[h := AckWork(a, false)]), id);
    case Acknowledge(h, InsertAck(out)) => InsertAckAgrees(s, h, out, id);
    case Acknowledge(h, UpdateStatus(out)) =>
      S.HandlerFacts(steps);
      UpdateStatusAgrees(s, h, out, id);
  }

  lemma StepKeepsInv(steps: seq<Step>, step: Step)
    requires CanRun(Init, steps) && AllClean(steps) && Enabled(Exec(Init, steps), step) && Clean(step)
    requires Inv(Exec(Init, steps))
    ensures Inv(Apply(Exec(Init, steps), step))
  {
    forall id: Uuid
      ensures Agrees(Apply(Exec(Init, steps), step), id)
    {
      StepAgrees(steps, step, id);
    }
    StaysReadable(Exec(Init, steps), step);
  }

  lemma StaysReadable(s: State, step: Step)
    requires AllReadable(s.entries) && Enabled(s, step) && Clean(step)
    ensures AllReadable(Apply(s, step).entries)
  {
    match step
    case Send(op) => E.SendIsApart(s, op);
    case Work(w, op) => WorkStaysReadable(s, w, op);
    case Retry(l, op) => C.RetryStays(s, l, op);
    case Acknowledge(h, op) => E.AckIsApart(s, h, op);
  }

  lemma WorkStaysReadable(s: State, w: nat, op: WorkOp)
    requires AllReadable(s.entries) && CanWork(s, w, op) && Clean(Work(w, op))
    ensures AllReadable(DoWork(s, w, op).entries)
  {
    match op
    case Enqueue(eid, maxRetries, createdAt, readable, out) =>
      assert AllReadable(DoEnqueue(s, w, eid, maxRetries, createdAt, readable, out).entries);
    case _ => E.WorkIsApart(s, w, op);
  }

  lemma {:induction false} RunKeepsInv(steps: seq<Step>, more: seq<Step>)
    requires CanRun(Init, steps) && AllClean(steps) && CanRun(Exec(Init, steps), more) && AllClean(more)
    requires Inv(Exec(Init, steps))
    ensures Inv(Exec(Exec(Init, steps), more))
    decreases |more|
  {
    if |more| > 0 {
      StepKeepsInv(steps, more[0]);
      ExecSnoc(Init, steps, more[0]);
      RunKeepsInv(steps + [more[0]], more[1..]);
    }
  }

  // ----- main results -----------------------------------------------------------------------------

  /** In every reachable state of a clean run, the status of an unacknowledged message is the one
      that the queue, the workers, the entries and the retry loop imply. */
  lemma StoresAgree(steps: seq<Step>, id: Uuid)
    requires CanRun(Init, steps) && AllClean(steps)
    requires id in Exec(Init, steps).place && Unacked(Exec(Init, steps).acks, id)
    ensures
      var s := Exec(Init, steps);
      id in s.status && s.status[id] == Expected(s.place[id], s.work, s, id)
  {
    RunKeepsInv([], steps);
    assert Agrees(Exec(Init, steps), id);
  }

  /** At a step boundary: no worker holds the message and the loop is not between writing its
      status and recording it in the entry. */
  predicate AtBoundary(s: State, id: Uuid) {
    && C.NotHeld(s, id)
    && (id in s.entryOf ==> Unrecorded(s.loops, s.entryOf[id]) == Waiting)
  }

  predicate EntryAt(s: State, id: Uuid, g: EntryStatus) {
    exists e | e in s.entries && e in s.progress :: s.entries[e].payload.id == id && s.progress[e].status == g
  }

  lemma EntryStatusKnown(s: State, id: Uuid, g: EntryStatus)
    requires C.EntryInv(s.entries, s.entryOf) && C.EntryKeys(s.entries, s.progress, s.refused)
    ensures EntryAt(s, id, g) <==> id in s.entryOf && s.progress[s.entryOf[id]].status == g
  {
    if id in s.entryOf {
      assert s.entries[s.entryOf[id]].payload.id == id;
    }
  }

  /** At step boundaries of a clean run, an unacknowledged message whose `Send` succeeded is
      `pending` iff it is queued, `dead_letter` iff its entry waits, `failed` iff its entry is
      exhausted, and `sent` iff it has no entry after routing or its entry is processed. */
  lemma StatusAtBoundary(steps: seq<Step>, id: Uuid)
    requires CanRun(Init, steps) && AllClean(steps)
    requires
      var s := Exec(Init, steps);
      id in s.accepted && Unacked(s.acks, id) && AtBoundary(s, id)
    ensures
      var s := Exec(Init, steps);
      && id in s.status
      && (s.status[id] == Pending <==> C.QueuedOnce(s, id))
      && (s.status[id] == DeadLetter <==> EntryAt(s, id, Waiting))
      && (s.status[id] == Failed <==> EntryAt(s, id, Exhausted))
      && (s.status[id] == Sent <==> EntryAt(s, id, Republished) || (C.NoEntry(s, id) && C.NotQueued(s, id)))
  {
    var s := Exec(Init, steps);
    C.MessagesConserved(steps, id);
    RunKeepsInv([], steps);
    assert Agrees(s, id);
    Facts(steps);
    BoundaryCases(s, id);
  }

  lemma BoundaryCases(s: State, id: Uuid)
    requires id in s.place && !C.Unpushed(s.place[id]) && C.Located(s, id) && Agrees(s, id)
    requires Unacked(s.acks, id) && AtBoundary(s, id)
    requires C.EntryInv(s.entries, s.entryOf) && C.EntryKeys(s.entries, s.progress, s.refused)
    requires C.DeadInv(s.place, s.entryOf)
    ensures
      && id in s.status
      && (s.status[id] == Pending <==> C.QueuedOnce(s, id))
      && (s.status[id] == DeadLetter <==> EntryAt(s, id, Waiting))
      && (s.status[id] == Failed <==> EntryAt(s, id, Exhausted))
      && (s.status[id] == Sent <==> EntryAt(s, id, Republished) || (C.NoEntry(s, id) && C.NotQueued(s, id)))
  {
    EntryStatusKnown(s, id, Waiting);
    EntryStatusKnown(s, id, Republished);
    EntryStatusKnown(s, id, Exhausted);
    C.EntryMembership(s, id);
  }
}
