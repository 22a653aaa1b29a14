/** Which status writes can hide an acknowledgement, and which messages are out of reach of all of
    them: those that no worker is still to handle and no retry loop is still to retry. */
module Overwrites {
  import opened Model
  import opened Pipeline
  import opened Drive
  import C = Conservation
  import E = Entries
  import L = Ledger
  import T = TwoLoops

  const ACK := Ack(T.ID, T.AGENT, AckReceived, "n")

  /** The message has been published to its only recipient, and is about to be marked sent. */
  lemma IsPublished() returns (steps: seq<Step>, s: State)
    ensures T.Reaches(steps, s) && CanWriteSent(s, 0) && s.work[0].payload == T.MESSAGE
    ensures s.rows == map[T.ID := Row([T.AGENT], NIL_UUID)]
    ensures T.ID in s.status && s.acks == map[] && s.handlers == map[]
  {
    steps, s := [], Init;
    Extend(Init, steps, s, Send(Insert(T.MESSAGE, NIL_UUID, Done)));
    steps, s := steps + [Send(Insert(T.MESSAGE, NIL_UUID, Done))], DoInsert(s, T.MESSAGE, NIL_UUID, Done);
    Extend(Init, steps, s, Send(Push(T.ID, Done)));
    steps, s := steps + [Send(Push(T.ID, Done))], DoPush(s, T.ID, Done);
    Extend(Init, steps, s, Work(0, Pop));
    steps, s := steps + [Work(0, Pop)], DoPop(s, 0);
    Extend(Init, steps, s, Work(0, Publish(Done)));
    steps, s := steps + [Work(0, Publish(Done))], DoPublish(s, 0, Done);
  }

  /** Its recipient acknowledges it first. */
  lemma IsDelivered() returns (steps: seq<Step>, s: State)
    ensures T.Reaches(steps, s) && CanWriteSent(s, 0) && s.work[0].payload == T.MESSAGE
    ensures T.ID in s.status && s.status[T.ID] == Delivered
  {
    steps, s := IsPublished();
    Extend(Init, steps, s, Acknowledge(0, Lookup(NIL_UUID, ACK)));
    steps, s := steps + [Acknowledge(0, Lookup(NIL_UUID, ACK))], s.(handlers := s.handlers[0 := AckWork(ACK, false)]);
    Extend(Init, steps, s, Acknowledge(0, InsertAck(Done)));
    steps, s := steps + [Acknowledge(0, InsertAck(Done))], DoInsertAck(s, 0, Done);
    Extend(Init, steps, s, Acknowledge(0, UpdateStatus(Done)));
    steps, s := steps + [Acknowledge(0, UpdateStatus(Done))], DoUpdateStatus(s, 0, Done);
  }

  /** The status of a message does not only move forward: here `sent` replaces `delivered`. */
  lemma SentHidesDelivered() returns (steps: seq<Step>, step: Step)
    ensures CanRun(Init, steps) && Enabled(Exec(Init, steps), step)
    ensures
      var s, t := Exec(Init, steps), Apply(Exec(Init, steps), step);
      && T.ID in s.status && s.status[T.ID] == Delivered
      && T.ID in t.status && t.status[T.ID] == Sent
  {
    var s;
    steps, s := IsDelivered();
    step := Work(0, WriteSent(Done));
    assert DoWriteSent(s, 0, Done).status[T.ID] == Sent;
  }

  // ----- which steps write a status ---------------------------------------------------------------

  /** The step is the status update of an acknowledgement. */
  predicate Updates(step: Step) { step.Acknowledge? && step.aop.UpdateStatus? }

  predicate NoUpdates(steps: seq<Step>) {
    forall i | 0 <= i < |steps| :: !Updates(steps[i])
  }

  function WorkWrites(op: WorkOp): Option<Status> {
    match op
    case WriteSent(out) => if out.Applied() then Some(Sent) else None
    case WriteDead(out) => if out.Applied() then Some(DeadLetter) else None
    case WriteFailed(out) => if out.Applied() then Some(Failed) else None
    case _ => None
  }

  function RetryWrites(op: RetryOp): Option<Status> {
    match op
    case RewriteSent(out) => if out.Applied() then Some(Sent) else None
    case GiveUp(out) => if out.Applied() then Some(Failed) else None
    case _ => None
  }

  /** The status that a step of a worker or a loop writes for message `id`: a worker writes for the
      message it holds, a loop for that of its current entry. */
  function Writes(s: State, step: Step, id: Uuid): Option<Status> {
    match step
    case Work(w, op) => if w in s.work && s.work[w].payload.id == id then WorkWrites(op) else None
    case Retry(l, op) => if Busy(s, l) && Current(s, l).entry.payload.id == id then RetryWrites(op) else None
    case _ => None
  }

  predicate StatusIs(s: State, id: Uuid, v: Status) {
    id in s.status && s.status[id] == v
  }

  function Or(written: Option<Status>, v: Status): Status {
    match written
    case Some(value) => value
    case None => v
  }

  lemma SendStatus(s: State, op: SendOp, id: Uuid, v: Status)
    requires StatusIs(s, id, v) && CanSend(s, op) && s.status.Keys == s.rows.Keys
    ensures StatusIs(DoSend(s, op), id, v)
  {}

  lemma PopStatus(s: State, w: nat)
    requires CanPop(s, w)
    ensures DoPop(s, w).status == s.status
  {}

  lemma PublishStatus(s: State, w: nat, out: Outcome)
    requires CanPublish(s, w)
    ensures DoPublish(s, w, out).status == s.status
  {}

  lemma EnqueueStatus(s: State, w: nat, eid: Uuid, maxRetries: int, createdAt: int, readable: bool, out: Outcome)
    requires CanEnqueue(s, w, eid, out)
    ensures DoEnqueue(s, w, eid, maxRetries, createdAt, readable, out).status == s.status
  {}

  lemma WriteSentStatus(s: State, w: nat, out: Outcome)
    requires CanWriteSent(s, w)
    ensures DoWriteSent(s, w, out).status == SetStatus(s.status, s.work[w].payload.id, Sent, out)
  {}

  lemma WorkStatus(s: State, w: nat, op: WorkOp, id: Uuid, v: Status)
    requires StatusIs(s, id, v) && CanWork(s, w, op)
    ensures StatusIs(DoWork(s, w, op), id, Or(Writes(s, Work(w, op), id), v))
  {
    match op
    case Pop => PopStatus(s, w);
    case FindNoRoutes =>
    case Publish(out) => PublishStatus(s, w, out);
    case WriteSent(out) => WriteSentStatus(s, w, out);
    case WriteDead(out) =>
    case Enqueue(eid, maxRetries, createdAt, readable, out) =>
      EnqueueStatus(s, w, eid, maxRetries, createdAt, readable, out);
    case WriteFailed(out) =>
  }

  lemma RetryStatus(s: State, l: nat, op: RetryOp, id: Uuid, v: Status)
    requires StatusIs(s, id, v) && CanRetry(s, l, op)
    ensures StatusIs(DoRetry(s, l, op), id, Or(Writes(s, Retry(l, op), id), v))
  {
    match op
    case List(_) =>
    case Take => assert DoTake(s, l).status == s.status;
    case FindNoRecipients =>
    case Republish(out) => assert DoRepublish(s, l, out).status == s.status;
    case RewriteSent(out) =>
      assert DoRewriteSent(s, l, out).status == SetStatus(s.status, Current(s, l).entry.payload.id, Sent, out);
    case GiveUp(out) =>
      assert DoGiveUp(s, l, out).status == SetStatus(s.status, Current(s, l).entry.payload.id, Failed, out);
    case Mark(out) => assert DoMark(s, l, out).status == s.status;
  }

  /** What the status of a message is after any step but that of an acknowledgement. */
  lemma StepStatus(s: State, step: Step, id: Uuid, v: Status)
    requires StatusIs(s, id, v) && Enabled(s, step) && !Updates(step) && s.status.Keys == s.rows.Keys
    ensures StatusIs(Apply(s, step), id, Or(Writes(s, step, id), v))
  {
    match step
    case Send(op) => SendStatus(s, op, id, v);
    case Work(w, op) => WorkStatus(s, w, op, id, v);
    case Retry(l, op) => RetryStatus(s, l, op, id, v);
    case Acknowledge(h, Lookup(_, _)) =>
    case Acknowledge(h, InsertAck(out)) => assert DoInsertAck(s, h, out).status == s.status;
  }

  /** The two statuses that only acknowledgements write. */
  predicate Confirmed(v: Status) { v == Delivered || v == Processed }

  lemma RowFacts(steps: seq<Step>)
    requires CanRun(Init, steps)
    ensures Exec(Init, steps).status.Keys == Exec(Init, steps).rows.Keys
  {
    C.RunKeepsInv(Init, steps);
  }

  /** In every reachable state, a step that is no acknowledgement replaces `delivered` or `processed`
      exactly if it is an applied status write of the worker that holds the message, or of a loop at its
      entry. */
  lemma ReplacedIff(steps: seq<Step>, step: Step, id: Uuid)
    requires CanRun(Init, steps) && Enabled(Exec(Init, steps), step) && !Updates(step)
    requires
      var s := Exec(Init, steps);
      id in s.status && Confirmed(s.status[id])
    ensures
      var s, t := Exec(Init, steps), Apply(Exec(Init, steps), step);
      id in t.status && (t.status[id] != s.status[id] <==> Writes(s, step, id).Some?)
  {
    var s := Exec(Init, steps);
    RowFacts(steps);
    StepStatus(s, step, id, s.status[id]);
  }

  // ----- messages that nothing writes any more ----------------------------------------------------

  /** The loop still has entry `e` ahead, and not only the update that makes it terminal. */
  predicate LiveAhead(x: Loop, e: Uuid) {
    exists i | 0 <= i < |x.batch| :: LiveAt(x, i, e)
  }

  predicate LiveAt(x: Loop, i: nat, e: Uuid) {
    && x.index <= i < |x.batch| && x.batch[i].eid == e
    && !(PcAt(x, i).Marking? && PcAt(x, i).status.Terminal())
  }

  predicate SomeLiveAhead(loops: map<nat, Loop>, e: Uuid) {
    exists l | l in loops :: LiveAhead(loops[l], e)
  }

  /** Entry `e` decodes, and some loop can list it or has it ahead. */
  predicate EntryExposed(s: State, e: Uuid) {
    e in s.entries && s.entries[e].readable && (Listable(s, e) || SomeLiveAhead(s.loops, e))
  }

  predicate Unsettled(g: Place) { g == Inserted || g == Queued || C.Held(g) }

  /** The message is still to be pushed, queued or held, or its entry is exposed. */
  predicate Exposed(s: State, id: Uuid) {
    id in s.place && (Unsettled(s.place[id]) || (id in s.entryOf && EntryExposed(s, s.entryOf[id])))
  }

  predicate PlaceSettled(s: State, id: Uuid, g: Place) {
    id in s.place && s.place[id] == g && !Unsettled(g)
  }

  predicate EntryQuiet(s: State, id: Uuid) {
    id in s.entryOf ==> !EntryExposed(s, s.entryOf[id])
  }

  lemma SendKeepsPlace(s: State, op: SendOp, id: Uuid, g: Place)
    requires PlaceSettled(s, id, g) && CanSend(s, op) && s.place.Keys == s.rows.Keys
    ensures PlaceSettled(DoSend(s, op), id, g)
  {}

  lemma PopKeepsPlace(s: State, w: nat, id: Uuid, g: Place)
    requires PlaceSettled(s, id, g) && CanPop(s, w) && C.QueueInv(s.queue, s.pushed, s.popped)
    requires C.OrderInv(s.pushed, s.order) && C.PlaceInv(s.place, s.order, s.popped)
    ensures PlaceSettled(DoPop(s, w), id, g)
  {
    C.QueuePop(s.queue, s.pushed, s.popped);
    assert s.order[s.pushed[s.popped].id] == s.popped;
  }

  /** A worker moves the place of no other message than the one it holds. */
  lemma HolderKeepsPlace(s: State, w: nat, id: Uuid, g: Place, to: Place, t: State)
    requires PlaceSettled(s, id, g) && C.WorkInv(s.place, s.work) && w in s.work
    requires t.place == s.place || t.place == s.place[s.work[w].payload.id := to]
    ensures PlaceSettled(t, id, g)
  {}

  lemma EnqueueKeepsPlace(s: State, w: nat, eid: Uuid, maxRetries: int, createdAt: int, readable: bool, out: Outcome,
      id: Uuid, g: Place)
    requires PlaceSettled(s, id, g) && C.WorkInv(s.place, s.work) && CanEnqueue(s, w, eid, out)
    ensures PlaceSettled(DoEnqueue(s, w, eid, maxRetries, createdAt, readable, out), id, g)
  {}

  lemma WorkKeepsPlace(s: State, w: nat, op: WorkOp, id: Uuid, g: Place)
    requires PlaceSettled(s, id, g) && CanWork(s, w, op) && C.WorkInv(s.place, s.work)
    requires C.QueueInv(s.queue, s.pushed, s.popped) && C.OrderInv(s.pushed, s.order)
    requires C.PlaceInv(s.place, s.order, s.popped)
    ensures PlaceSettled(DoWork(s, w, op), id, g)
  {
    match op
    case Pop => PopKeepsPlace(s, w, id, g);
    case FindNoRoutes =>
    case Publish(out) => HolderKeepsPlace(s, w, id, g, Routed, DoPublish(s, w, out));
    case WriteSent(out) => HolderKeepsPlace(s, w, id, g, Routed, DoWriteSent(s, w, out));
    case WriteDead(out) => HolderKeepsPlace(s, w, id, g, Routed, DoWriteDead(s, w, out));
    case Enqueue(eid, maxRetries, createdAt, readable, out) =>
      EnqueueKeepsPlace(s, w, eid, maxRetries, createdAt, readable, out, id, g);
    case WriteFailed(out) => HolderKeepsPlace(s, w, id, g, EnqueueFailed, DoWriteFailed(s, w, out));
  }

  lemma StepKeepsPlace(s: State, step: Step, id: Uuid, g: Place)
    requires PlaceSettled(s, id, g) && C.Inv(s) && Enabled(s, step)
    ensures PlaceSettled(Apply(s, step), id, g)
  {
    match step
    case Send(op) => SendKeepsPlace(s, op, id, g);
    case Work(w, op) => WorkKeepsPlace(s, w, op, id, g);
    case Retry(l, op) => C.RetryStays(s, l, op);
    case Acknowledge(h, op) => C.AckStays(s, h, op);
  }

  // ----- entries that nothing retries any more ----------------------------------------------------

  lemma ApartKeepsQuiet(s: State, t: State, id: Uuid)
    requires EntryQuiet(s, id) && E.Apart(s, t)
    ensures EntryQuiet(t, id)
  {}

  lemma LoopKeepsQuiet(s: State, l: nat, x: Loop, id: Uuid, t: State)
    requires EntryQuiet(s, id) && id in s.entryOf && (t.loops == s.loops[l := x] || t.loops == s.loops - {l})
    requires t.entries == s.entries && t.entryOf == s.entryOf
    requires var e := s.entryOf[id]; e in s.entries && s.entries[e].readable ==> !Listable(t, e) && !LiveAhead(x, e)
    ensures EntryQuiet(t, id)
  {}

  lemma ListKeepsQuiet(s: State, l: nat, batch: seq<Snapshot>, id: Uuid)
    requires EntryQuiet(s, id) && id in s.entryOf && CanList(s, l, batch)
    ensures EntryQuiet(s.(loops := s.loops[l := Loop(batch, 0, Next)]), id)
  {
    forall i | 0 <= i < |batch| && batch[i].eid == s.entryOf[id]
      ensures Listable(s, s.entryOf[id])
    {
      assert Reads(s, batch[i]);
    }
    LoopKeepsQuiet(s, l, Loop(batch, 0, Next), id, s.(loops := s.loops[l := Loop(batch, 0, Next)]));
  }

  /** A loop that goes on with its entry is not at a quiet one. */
  lemma TurnKeepsQuiet(s: State, l: nat, pc: RetryPc, id: Uuid, t: State)
    requires EntryQuiet(s, id) && id in s.entryOf && Busy(s, l) && !s.loops[l].pc.Marking? && t.loops == Turn(s, l, pc)
    requires t.entries == s.entries && t.progress == s.progress && t.entryOf == s.entryOf
    ensures EntryQuiet(t, id)
  {
    var x, e := s.loops[l], s.entryOf[id];
    if e in s.entries && s.entries[e].readable {
      assert !LiveAhead(x, e) && !LiveAt(x, x.index, e);
      forall i | 0 <= i < |x.batch|
        ensures !LiveAt(x.(pc := pc), i, e)
      {
        assert !LiveAt(x, i, e);
      }
    }
    LoopKeepsQuiet(s, l, x.(pc := pc), id, t);
  }

  /** The update of another entry, or one that makes the entry terminal, does not let it be listed. */
  lemma MarkedIsNotListable(s: State, l: nat, out: Outcome, e: Uuid)
    requires CanMark(s, l) && !Listable(s, e) && !LiveAt(s.loops[l], s.loops[l].index, e)
    ensures !Listable(DoMark(s, l, out), e)
  {}

  /** Going on to the next entry brings none nearer that was not ahead. */
  lemma OnwardKeepsQuiet(s: State, l: nat, id: Uuid, t: State)
    requires EntryQuiet(s, id) && id in s.entryOf && Busy(s, l) && t.loops == Onward(s, l)
    requires t.entries == s.entries && t.entryOf == s.entryOf
    requires var e := s.entryOf[id]; e in s.entries && s.entries[e].readable ==> !Listable(t, e)
    ensures EntryQuiet(t, id)
  {
    var x, e := s.loops[l], s.entryOf[id];
    var y := Loop(x.batch, x.index + 1, Next);
    if e in s.entries && s.entries[e].readable {
      assert !LiveAhead(x, e);
      forall i | 0 <= i < |y.batch|
        ensures !LiveAt(y, i, e)
      {
        assert !LiveAt(x, i, e);
      }
    }
    LoopKeepsQuiet(s, l, y, id, t);
  }

  lemma QuietCurrent(s: State, l: nat, id: Uuid)
    requires EntryQuiet(s, id) && id in s.entryOf && Busy(s, l)
    ensures
      var e := s.entryOf[id];
      e in s.entries && s.entries[e].readable ==> !Listable(s, e) && !LiveAt(s.loops[l], s.loops[l].index, e)
  {
    assert LiveAt(s.loops[l], s.loops[l].index, s.entryOf[id]) ==> LiveAhead(s.loops[l], s.entryOf[id]);
  }

  lemma MarkMoves(s: State, l: nat, out: Outcome)
    requires CanMark(s, l)
    ensures
      var t := DoMark(s, l, out);
      t.loops == Onward(s, l) && t.entries == s.entries && t.entryOf == s.entryOf
  {}

  lemma MarkKeepsQuiet(s: State, l: nat, out: Outcome, id: Uuid)
    requires EntryQuiet(s, id) && id in s.entryOf && CanMark(s, l)
    ensures EntryQuiet(DoMark(s, l, out), id)
  {
    var e := s.entryOf[id];
    QuietCurrent(s, l, id);
    MarkMoves(s, l, out);
    if e in s.entries && s.entries[e].readable {
      MarkedIsNotListable(s, l, out, e);
    }
    OnwardKeepsQuiet(s, l, id, DoMark(s, l, out));
  }

  lemma PublishKeepsQuiet(s: State, l: nat, out: Outcome, id: Uuid)
    requires EntryQuiet(s, id) && id in s.entryOf && CanRepublish(s, l)
    ensures EntryQuiet(DoRepublish(s, l, out), id)
  {
    TurnKeepsQuiet(s, l, AfterPublish(s, l, out), id, DoRepublish(s, l, out));
  }

  lemma WritingKeepsQuiet(s: State, l: nat, op: RetryOp, id: Uuid)
    requires EntryQuiet(s, id) && id in s.entryOf && CanRetry(s, l, op) && (op.RewriteSent? || op.GiveUp?)
    ensures EntryQuiet(DoRetry(s, l, op), id)
  {
    TurnKeepsQuiet(s, l, DoRetry(s, l, op).loops[l].pc, id, DoRetry(s, l, op));
  }

  lemma RetryKeepsQuiet(s: State, l: nat, op: RetryOp, id: Uuid)
    requires EntryQuiet(s, id) && CanRetry(s, l, op)
    ensures EntryQuiet(DoRetry(s, l, op), id)
  {
    C.RetryStays(s, l, op);
    if id in s.entryOf {
      match op
      case List(batch) => ListKeepsQuiet(s, l, batch, id);
      case Take => TurnKeepsQuiet(s, l, Taken(s, l), id, DoTake(s, l));
      case FindNoRecipients =>
        TurnKeepsQuiet(s, l, AfterFailure(Current(s, l)), id, s.(loops := Turn(s, l, AfterFailure(Current(s, l)))));
      case Republish(out) => PublishKeepsQuiet(s, l, out, id);
      case Mark(out) => MarkKeepsQuiet(s, l, out, id);
      case _ => WritingKeepsQuiet(s, l, op, id);
    }
  }

  lemma EnqueueKeepsQuiet(s: State, w: nat, eid: Uuid, maxRetries: int, createdAt: int, readable: bool, out: Outcome,
      id: Uuid)
    requires EntryQuiet(s, id) && CanEnqueue(s, w, eid, out)
    requires C.EntryInv(s.entries, s.entryOf) && s.work[w].payload.id != id
    ensures EntryQuiet(DoEnqueue(s, w, eid, maxRetries, createdAt, readable, out), id)
  {}

  lemma WorkKeepsQuiet(s: State, w: nat, op: WorkOp, id: Uuid, g: Place)
    requires EntryQuiet(s, id) && PlaceSettled(s, id, g) && CanWork(s, w, op)
    requires C.EntryInv(s.entries, s.entryOf) && C.WorkInv(s.place, s.work)
    ensures EntryQuiet(DoWork(s, w, op), id)
  {
    match op
    case Enqueue(eid, maxRetries, createdAt, readable, out) =>
      EnqueueKeepsQuiet(s, w, eid, maxRetries, createdAt, readable, out, id);
    case _ =>
      E.WorkIsApart(s, w, op);
      ApartKeepsQuiet(s, DoWork(s, w, op), id);
  }

  lemma StepKeepsQuiet(s: State, step: Step, id: Uuid, g: Place)
    requires EntryQuiet(s, id) && PlaceSettled(s, id, g) && C.Inv(s) && Enabled(s, step)
    ensures EntryQuiet(Apply(s, step), id)
  {
    match step
    case Send(op) => E.SendIsApart(s, op);
    case Work(w, op) => WorkKeepsQuiet(s, w, op, id, g);
    case Retry(l, op) => RetryKeepsQuiet(s, l, op, id);
    case Acknowledge(h, op) => E.AckIsApart(s, h, op);
  }

  // ----- safety -----------------------------------------------------------------------------------

  /** A loop that is about to write a status has the entry of the message ahead. */
  lemma WritingIsLive(s: State, l: nat, op: RetryOp)
    requires CanRetry(s, l, op) && RetryWrites(op).Some?
    requires C.EntryInv(s.entries, s.entryOf) && L.LoopsGenuine(s.loops, s.entries) && E.LoopsInv(s.loops)
    ensures
      var id := Current(s, l).entry.payload.id;
      id in s.entryOf && EntryExposed(s, s.entryOf[id])
  {
    var x := s.loops[l];
    assert L.Genuine(x, s.entries) && E.SoundLoop(x) && E.SoundTurn(Current(s, l), x.pc);
    assert LiveAt(x, x.index, Current(s, l).eid);
    assert LiveAhead(x, Current(s, l).eid);
  }

  /** Neither a worker nor a loop writes the status of a message that is not exposed. */
  lemma UnexposedIsNotWritten(s: State, step: Step, id: Uuid, g: Place)
    requires EntryQuiet(s, id) && PlaceSettled(s, id, g) && Enabled(s, step)
    requires C.WorkInv(s.place, s.work) && C.EntryInv(s.entries, s.entryOf)
    requires L.LoopsGenuine(s.loops, s.entries) && E.LoopsInv(s.loops)
    ensures Writes(s, step, id).None?
  {
    if step.Retry? && RetryWrites(step.rop).Some? {
      WritingIsLive(s, step.l, step.rop);
    }
  }

  predicate Safe(s: State, id: Uuid, v: Status, g: Place) {
    StatusIs(s, id, v) && PlaceSettled(s, id, g) && EntryQuiet(s, id)
  }

  lemma StepKeepsSafe(s: State, step: Step, id: Uuid, v: Status, g: Place)
    requires Safe(s, id, v, g) && C.Inv(s) && L.LoopsGenuine(s.loops, s.entries) && E.LoopsInv(s.loops)
    requires Enabled(s, step) && !Updates(step)
    ensures Safe(Apply(s, step), id, v, g)
  {
    UnexposedIsNotWritten(s, step, id, g);
    StepStatus(s, step, id, v);
    StepKeepsPlace(s, step, id, g);
    StepKeepsQuiet(s, step, id, g);
  }

  lemma StepFacts(steps: seq<Step>)
    requires CanRun(Init, steps)
    ensures
      var s := Exec(Init, steps);
      C.Inv(s) && L.LoopsGenuine(s.loops, s.entries) && E.LoopsInv(s.loops)
  {
    E.RunKeepsInv(Init, steps);
  }

  lemma StepKeepsSafeAfter(steps: seq<Step>, step: Step, id: Uuid, v: Status, g: Place)
    requires CanRun(Init, steps) && Safe(Exec(Init, steps), id, v, g)
    requires Enabled(Exec(Init, steps), step) && !Updates(step)
    ensures Safe(Apply(Exec(Init, steps), step), id, v, g)
  {
    StepFacts(steps);
    StepKeepsSafe(Exec(Init, steps), step, id, v, g);
  }

  lemma {:induction false} RunKeepsSafe(steps: seq<Step>, more: seq<Step>, id: Uuid, v: Status, g: Place)
    requires CanRun(Init, steps) && CanRun(Exec(Init, steps), more)
    requires NoUpdates(more) && Safe(Exec(Init, steps), id, v, g)
    ensures StatusIs(Exec(Exec(Init, steps), more), id, v)
    decreases |more|
  {
    if |more| > 0 {
      StepKeepsSafeAfter(steps, more[0], id, v, g);
      ExecSnoc(Init, steps, more[0]);
      RunKeepsSafe(steps + [more[0]], more[1..], id, v, g);
    }
  }

  /** With any number of workers and loops and any failures, nothing but acknowledgements changes the
      status of a message that is not exposed. */
  lemma OnlyAcksChangeUnexposed(steps: seq<Step>, more: seq<Step>, id: Uuid)
    requires CanRun(Init, steps) && CanRun(Exec(Init, steps), more) && NoUpdates(more)
    requires id in Exec(Init, steps).status && !Exposed(Exec(Init, steps), id)
    ensures
      var t := Exec(Exec(Init, steps), more);
      id in t.status && t.status[id] == Exec(Init, steps).status[id]
  {
    var s := Exec(Init, steps);
    PlaceKnown(steps, id);
    RunKeepsSafe(steps, more, id, s.status[id], s.place[id]);
  }

  lemma PlaceKnown(steps: seq<Step>, id: Uuid)
    requires CanRun(Init, steps) && id in Exec(Init, steps).status
    ensures id in Exec(Init, steps).place
  {
    C.RunKeepsInv(Init, steps);
  }

  lemma RoutedIsUnexposed(steps: seq<Step>, id: Uuid)
    requires CanRun(Init, steps) && id in Exec(Init, steps).place && Exec(Init, steps).place[id] == Routed
    ensures !Exposed(Exec(Init, steps), id)
  {
    DeadFacts(steps);
  }

  lemma DeadFacts(steps: seq<Step>)
    requires CanRun(Init, steps)
    ensures C.DeadInv(Exec(Init, steps).place, Exec(Init, steps).entryOf)
  {
    C.RunKeepsInv(Init, steps);
  }

  /** In particular, of one that has been routed. */
  lemma OnlyAcksChangeRouted(steps: seq<Step>, more: seq<Step>, id: Uuid)
    requires CanRun(Init, steps) && CanRun(Exec(Init, steps), more) && NoUpdates(more)
    requires
      var s := Exec(Init, steps);
      id in s.place && s.place[id] == Routed && id in s.status
    ensures
      var t := Exec(Exec(Init, steps), more);
      id in t.status && t.status[id] == Exec(Init, steps).status[id]
  {
    RoutedIsUnexposed(steps, id);
    OnlyAcksChangeUnexposed(steps, more, id);
  }
}
