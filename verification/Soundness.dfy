/** What a row's status is worth, in every reachable state: under any interleaving of senders,
    workers, retry loops and acknowledgements, and any store failures. */
module Soundness {
  import opened Model
  import opened Pipeline
  import C = Conservation
  import L = Ledger

  // ----- the invariant --------------------------------------------------------------------------

  /** Some attempt at the message has published to all of its `n` recipients. */
  predicate Completed(runs: seq<Run>, id: Uuid, n: nat) {
    n > 0 && exists r | 0 <= r < |runs| :: runs[r].id == id && runs[r].done >= n
  }

  predicate SentInv(rows: map<Uuid, Row>, status: map<Uuid, Status>, runs: seq<Run>) {
    forall id | id in status && id in rows && status[id] == Sent :: Completed(runs, id, |rows[id].recipients|)
  }

  /** A persisted acknowledgement with status `a` by one of the message's recipients. */
  predicate AckedBy(rows: map<Uuid, Row>, acks: map<string, Ack>, id: Uuid, a: AckStatus)
    requires id in rows
  {
    exists n | n in acks :: acks[n].message == id && acks[n].status == a && acks[n].agent in rows[id].recipients
  }

  predicate AckInv(rows: map<Uuid, Row>, status: map<Uuid, Status>, acks: map<string, Ack>) {
    forall id | id in status && id in rows ::
      && (status[id] == Delivered ==> AckedBy(rows, acks, id, AckReceived))
      && (status[id] == Processed ==> AckedBy(rows, acks, id, AckProcessed))
  }

  predicate Entitled(rows: map<Uuid, Row>, a: Ack) {
    a.message in rows && a.agent in rows[a.message].recipients
  }

  predicate HandlerInv(rows: map<Uuid, Row>, acks: map<string, Ack>, handlers: map<nat, AckWork>) {
    && (forall h | h in handlers :: Entitled(rows, handlers[h].ack))
    && (forall h | h in handlers && handlers[h].inserted :: Recorded(acks, handlers[h].ack))
    && (forall g, h | g in handlers && h in handlers && handlers[g].inserted && handlers[h].inserted && g != h ::
          handlers[g].ack.nonce != handlers[h].ack.nonce)
  }

  predicate Recorded(acks: map<string, Ack>, a: Ack) {
    a.nonce in acks && acks[a.nonce] == a
  }

  /** A nonce whose handler has moved a row is not with any handler that still could. */
  predicate MovesInv(acks: map<string, Ack>, handlers: map<nat, AckWork>, moves: seq<string>) {
    && (forall i | 0 <= i < |moves| :: moves[i] in acks)
    && (forall i, h | 0 <= i < |moves| && h in handlers && handlers[h].inserted :: handlers[h].ack.nonce != moves[i])
    && (forall i, j | 0 <= i < j < |moves| :: moves[i] != moves[j])
  }

  predicate Inv(s: State) {
    && SentInv(s.rows, s.status, s.runs)
    && AckInv(s.rows, s.status, s.acks)
    && HandlerInv(s.rows, s.acks, s.handlers)
    && MovesInv(s.acks, s.handlers, s.moves)
  }

  // ----- how one change affects each part -------------------------------------------------------

  lemma RowAdded(rows: map<Uuid, Row>, status: map<Uuid, Status>, runs: seq<Run>, acks: map<string, Ack>,
      handlers: map<nat, AckWork>, id: Uuid, r: Row)
    requires SentInv(rows, status, runs) && AckInv(rows, status, acks) && HandlerInv(rows, acks, handlers)
    requires id !in rows && status.Keys == rows.Keys
    ensures
      var rows', status' := rows[id := r], status[id := Pending];
      SentInv(rows', status', runs) && AckInv(rows', status', acks) && HandlerInv(rows', acks, handlers)
  {
    forall x | x in status && x in rows && x != id && (status[x] == Delivered || status[x] == Processed)
      ensures forall a :: AckedBy(rows, acks, x, a) ==> AckedBy(rows[id := r], acks, x, a)
    {}
  }

  predicate Extends(runs: seq<Run>, runs': seq<Run>) {
    |runs| <= |runs'| && forall r | 0 <= r < |runs| :: runs'[r].id == runs[r].id && runs'[r].done >= runs[r].done
  }

  lemma RunsExtend(rows: map<Uuid, Row>, status: map<Uuid, Status>, runs: seq<Run>, runs': seq<Run>)
    requires SentInv(rows, status, runs) && Extends(runs, runs')
    ensures SentInv(rows, status, runs')
  {
    forall id | id in status && id in rows && status[id] == Sent
      ensures Completed(runs', id, |rows[id].recipients|)
    {
      var r :| 0 <= r < |runs| && runs[r].id == id && runs[r].done >= |rows[id].recipients|;
      assert runs'[r].id == id;
    }
  }

  /** A status write by a worker or a retry loop; `sent` needs a completed attempt. */
  lemma StatusWritten(s: State, id: Uuid, v: Status, out: Outcome)
    requires SentInv(s.rows, s.status, s.runs) && AckInv(s.rows, s.status, s.acks)
    requires v != Delivered && v != Processed
    requires v == Sent && id in s.rows ==> Completed(s.runs, id, |s.rows[id].recipients|)
    ensures
      var status' := SetStatus(s.status, id, v, out);
      SentInv(s.rows, status', s.runs) && AckInv(s.rows, status', s.acks)
  {}

  lemma AckWritten(s: State, a: Ack, out: Outcome)
    requires SentInv(s.rows, s.status, s.runs) && AckInv(s.rows, s.status, s.acks)
    requires Entitled(s.rows, a) && Recorded(s.acks, a)
    ensures
      var status' := SetStatus(s.status, a.message, AckToStatus(a.status), out);
      SentInv(s.rows, status', s.runs) && AckInv(s.rows, status', s.acks)
  {
    assert AckedBy(s.rows, s.acks, a.message, a.status);
  }

  lemma AckRecorded(rows: map<Uuid, Row>, status: map<Uuid, Status>, acks: map<string, Ack>, a: Ack)
    requires AckInv(rows, status, acks) && a.nonce !in acks
    ensures AckInv(rows, status, acks[a.nonce := a])
  {
    var acks' := acks[a.nonce := a];
    forall id, v | id in rows && AckedBy(rows, acks, id, v)
      ensures AckedBy(rows, acks', id, v)
    {
      var n :| n in acks && acks[n].message == id && acks[n].status == v && acks[n].agent in rows[id].recipients;
      assert acks'[n] == acks[n];
    }
  }

  lemma HandlersRecorded(s: State, h: nat, out: Outcome)
    requires HandlerInv(s.rows, s.acks, s.handlers) && CanInsertAck(s, h, out)
    ensures var t := DoInsertAck(s, h, out); HandlerInv(t.rows, t.acks, t.handlers)
  {}

  lemma MovesRecorded(s: State, h: nat, out: Outcome)
    requires MovesInv(s.acks, s.handlers, s.moves) && CanInsertAck(s, h, out)
    ensures var t := DoInsertAck(s, h, out); MovesInv(t.acks, t.handlers, t.moves)
  {}

  lemma HandlersMoved(s: State, h: nat, out: Outcome)
    requires HandlerInv(s.rows, s.acks, s.handlers) && MovesInv(s.acks, s.handlers, s.moves) && CanUpdateStatus(s, h)
    ensures
      var t := DoUpdateStatus(s, h, out);
      HandlerInv(t.rows, t.acks, t.handlers) && MovesInv(t.acks, t.handlers, t.moves)
  {}

  lemma HandlersStarted(s: State, h: nat, tenant: Uuid, a: Ack)
    requires HandlerInv(s.rows, s.acks, s.handlers)
    requires MovesInv(s.acks, s.handlers, s.moves) && CanLookup(s, h, tenant, a)
    ensures
      var handlers' := s.handlers[h := AckWork(a, false)];
      HandlerInv(s.rows, s.acks, handlers') && MovesInv(s.acks, handlers', s.moves)
  {}

  // ----- steps ----------------------------------------------------------------------------------

  /** At most, an attempt has been started or advanced. */
  predicate Quiet(s: State, t: State) {
    && Extends(s.runs, t.runs) && t.rows == s.rows && t.status == s.status
    && t.acks == s.acks && t.handlers == s.handlers && t.moves == s.moves
  }

  lemma QuietPop(s: State, w: nat)
    requires CanPop(s, w)
    ensures Quiet(s, DoPop(s, w))
  {}

  lemma QuietEnqueue(s: State, w: nat, eid: Uuid, maxRetries: int, createdAt: int, readable: bool, out: Outcome)
    requires CanEnqueue(s, w, eid, out)
    ensures Quiet(s, DoEnqueue(s, w, eid, maxRetries, createdAt, readable, out))
  {}

  lemma QuietTake(s: State, l: nat)
    requires CanTake(s, l)
    ensures Quiet(s, DoTake(s, l))
  {}

  lemma QuietMark(s: State, l: nat, out: Outcome)
    requires CanMark(s, l)
    ensures Quiet(s, DoMark(s, l, out))
  {}

  lemma Unwritten(s: State, t: State)
    requires Inv(s) && Quiet(s, t)
    ensures Inv(t)
  {
    RunsExtend(s.rows, s.status, s.runs, t.runs);
  }

  /** A step whose only effect here is a status write by a worker or a retry loop. */
  lemma Written(s: State, id: Uuid, v: Status, out: Outcome, t: State)
    requires Inv(s) && t.status == SetStatus(s.status, id, v, out) && v != Delivered && v != Processed
    requires v == Sent && id in s.rows ==> Completed(s.runs, id, |s.rows[id].recipients|)
    requires t.rows == s.rows && t.runs == s.runs && t.acks == s.acks && t.handlers == s.handlers && t.moves == s.moves
    ensures Inv(t)
  {
    StatusWritten(s, id, v, out);
  }

  lemma InsertKeepsInv(s: State, p: Payload, tenant: Uuid, out: Outcome)
    requires Inv(s) && CanInsert(s, p, out) && s.status.Keys == s.rows.Keys
    ensures Inv(DoInsert(s, p, tenant, out))
  {
    if out.Applied() {
      RowAdded(s.rows, s.status, s.runs, s.acks, s.handlers, p.id, Row(p.recipients, tenant));
    }
  }

  lemma PushKeepsInv(s: State, id: Uuid, out: Outcome)
    requires Inv(s) && CanPush(s, id)
    ensures Inv(DoPush(s, id, out))
  {
    Unwritten(s, DoPush(s, id, out));
  }

  lemma WriteSentKeepsInv(s: State, w: nat, out: Outcome)
    requires Inv(s) && CanWriteSent(s, w) && L.WorkRuns(s.work, s.runs) && C.WorkKnown(s.rows, s.work)
    ensures Inv(DoWriteSent(s, w, out))
  {
    var x := s.work[w];
    assert L.TaskRun(x, w, s.runs) && C.Known(s.rows, x.payload);
    assert s.runs[x.run].id == x.payload.id;
    Written(s, x.payload.id, Sent, out, DoWriteSent(s, w, out));
  }

  lemma WorkKeepsInv(s: State, w: nat, op: WorkOp)
    requires Inv(s) && CanWork(s, w, op) && L.WorkRuns(s.work, s.runs) && C.WorkKnown(s.rows, s.work)
    ensures Inv(DoWork(s, w, op))
  {
    match op
    case Publish(out) => PublishKeepsInv(s, w, out);
    case WriteSent(out) => WriteSentKeepsInv(s, w, out);
    case WriteDead(out) => Written(s, s.work[w].payload.id, DeadLetter, out, DoWriteDead(s, w, out));
    case WriteFailed(out) => Written(s, s.work[w].payload.id, Failed, out, DoWriteFailed(s, w, out));
    case Pop =>
      QuietPop(s, w);
      Unwritten(s, DoPop(s, w));
    case FindNoRoutes => Unwritten(s, s.(work := Move(s, w, MarkingDead)));
    case Enqueue(eid, maxRetries, createdAt, readable, out) =>
      QuietEnqueue(s, w, eid, maxRetries, createdAt, readable, out);
      Unwritten(s, DoEnqueue(s, w, eid, maxRetries, createdAt, readable, out));
  }

  lemma PublishKeepsInv(s: State, w: nat, out: Outcome)
    requires Inv(s) && CanPublish(s, w) && L.WorkRuns(s.work, s.runs)
    ensures Inv(DoPublish(s, w, out))
  {
    assert L.TaskRun(s.work[w], w, s.runs);
    Unwritten(s, DoPublish(s, w, out));
  }

  lemma RewriteSentKeepsInv(s: State, l: nat, out: Outcome)
    requires Inv(s) && CanRewriteSent(s, l) && L.LoopRuns(s.loops, s.runs)
    requires L.LoopsGenuine(s.loops, s.entries) && C.EntriesKnown(s.rows, s.entries)
    ensures Inv(DoRewriteSent(s, l, out))
  {
    var x := s.loops[l];
    assert L.LoopRun(x, l, s.runs) && L.Genuine(x, s.entries);
    assert C.Known(s.rows, Current(s, l).entry.payload);
    assert s.runs[x.pc.run].id == Current(s, l).entry.payload.id;
    Written(s, Current(s, l).entry.payload.id, Sent, out, DoRewriteSent(s, l, out));
  }

  lemma RepublishKeepsInv(s: State, l: nat, out: Outcome)
    requires Inv(s) && CanRepublish(s, l) && L.LoopRuns(s.loops, s.runs)
    ensures Inv(DoRepublish(s, l, out))
  {
    assert L.LoopRun(s.loops[l], l, s.runs);
    Unwritten(s, DoRepublish(s, l, out));
  }

  lemma RetryKeepsInv(s: State, l: nat, op: RetryOp)
    requires Inv(s) && CanRetry(s, l, op) && L.LoopRuns(s.loops, s.runs)
    requires L.LoopsGenuine(s.loops, s.entries) && C.EntriesKnown(s.rows, s.entries)
    ensures Inv(DoRetry(s, l, op))
  {
    match op
    case Republish(out) => RepublishKeepsInv(s, l, out);
    case RewriteSent(out) => RewriteSentKeepsInv(s, l, out);
    case GiveUp(out) => Written(s, Current(s, l).entry.payload.id, Failed, out, DoGiveUp(s, l, out));
    case List(batch) => Unwritten(s, s.(loops := s.loops[l := Loop(batch, 0, Next)]));
    case Take =>
      QuietTake(s, l);
      Unwritten(s, DoTake(s, l));
    case FindNoRecipients => Unwritten(s, s.(loops := Turn(s, l, AfterFailure(Current(s, l)))));
    case Mark(out) =>
      QuietMark(s, l, out);
      Unwritten(s, DoMark(s, l, out));
  }

  lemma InsertAckKeepsInv(s: State, h: nat, out: Outcome)
    requires Inv(s) && CanInsertAck(s, h, out)
    ensures Inv(DoInsertAck(s, h, out))
  {
    HandlersRecorded(s, h, out);
    MovesRecorded(s, h, out);
    if out.Applied() {
      AckRecorded(s.rows, s.status, s.acks, s.handlers[h].ack);
    }
  }

  lemma AckKeepsInv(s: State, h: nat, op: AckOp)
    requires Inv(s) && CanAck(s, h, op)
    ensures Inv(DoAck(s, h, op))
  {
    match op
    case Lookup(tenant, a) => HandlersStarted(s, h, tenant, a);
    case InsertAck(out) => InsertAckKeepsInv(s, h, out);
    case UpdateStatus(out) =>
      HandlersMoved(s, h, out);
      AckWritten(s, s.handlers[h].ack, out);
  }

  lemma StepKeepsInv(s: State, step: Step)
    requires Inv(s) && L.WorkRuns(s.work, s.runs) && L.LoopRuns(s.loops, s.runs) && L.LoopsGenuine(s.loops, s.entries)
    requires C.RowKeys(s.rows, s.status, s.place) && C.WorkKnown(s.rows, s.work) && C.EntriesKnown(s.rows, s.entries)
    requires Enabled(s, step)
    ensures Inv(Apply(s, step))
  {
    match step
    case Send(Insert(p, tenant, out)) => InsertKeepsInv(s, p, tenant, out);
    case Send(Push(id, out)) => PushKeepsInv(s, id, out);
    case Work(w, op) => WorkKeepsInv(s, w, op);
    case Retry(l, op) => RetryKeepsInv(s, l, op);
    case Acknowledge(h, op) => AckKeepsInv(s, h, op);
  }

  lemma {:induction false} RunKeepsInv(s: State, steps: seq<Step>)
    requires C.Inv(s) && L.Inv(s) && Inv(s) && CanRun(s, steps)
    ensures C.Inv(Exec(s, steps)) && L.Inv(Exec(s, steps)) && Inv(Exec(s, steps))
    decreases |steps|
  {
    if |steps| > 0 {
      C.StepKeepsInv(s, steps[0]);
      L.StepKeepsInv(s, steps[0]);
      StepKeepsInv(s, steps[0]);
      RunKeepsInv(Apply(s, steps[0]), steps[1..]);
    }
  }

  lemma HandlerFacts(steps: seq<Step>)
    requires CanRun(Init, steps)
    ensures var s := Exec(Init, steps); HandlerInv(s.rows, s.acks, s.handlers)
  {
    RunKeepsInv(Init, steps);
  }

  // ----- main results ---------------------------------------------------------------------------

  /** Every recipient of the message has been sent a publication of it. */
  predicate FullyPublished(s: State, id: Uuid)
    requires id in s.rows
  {
    var rs := s.rows[id].recipients;
    |rs| > 0 && forall i | 0 <= i < |rs| :: Publication(id, i, rs[i]) in s.log
  }

  lemma CompletedIsPublished(s: State, id: Uuid)
    requires L.CountInv(s.log, s.runs) && L.LogInv(s.log, s.rows)
    requires id in s.rows && Completed(s.runs, id, |s.rows[id].recipients|)
    ensures FullyPublished(s, id)
  {
    var rs := s.rows[id].recipients;
    var r :| 0 <= r < |s.runs| && s.runs[r].id == id && s.runs[r].done >= |rs|;
    forall i | 0 <= i < |rs|
      ensures Publication(id, i, rs[i]) in s.log
    {
      L.ReachedBy(s.runs, r, i);
      var k := L.PublishedWitness(s.log, id, i);
      assert L.LoggedRight(s.log[k], s.rows);
    }
  }

  /** A row marked `sent` has been published to every recipient given to `Send`; one marked
      `delivered` or `processed` has a persisted acknowledgement that says so by a recipient. */
  lemma StatusIsSound(steps: seq<Step>, id: Uuid)
    requires CanRun(Init, steps) && id in Exec(Init, steps).rows
    ensures
      var s := Exec(Init, steps);
      && id in s.status
      && (s.status[id] == Sent ==> FullyPublished(s, id))
      && (s.status[id] == Delivered ==> AckedBy(s.rows, s.acks, id, AckReceived))
      && (s.status[id] == Processed ==> AckedBy(s.rows, s.acks, id, AckProcessed))
  {
    RunKeepsInv(Init, steps);
    var s := Exec(Init, steps);
    if s.status[id] == Sent {
      CompletedIsPublished(s, id);
    }
  }

  /** What the status that an acknowledgement writes says about it. */
  predicate Says(a: AckStatus, v: Status) {
    && (v == Delivered <==> a == AckReceived)
    && (v == Processed <==> a == AckProcessed)
    && (v == Failed <==> a == AckRejected || a == AckFailed)
    && (v == Pending <==> a.AckOther?)
  }

  /** Between the two states, the acknowledgement `a` has moved the row of its message, and no other. */
  predicate MovedBy(s: map<Uuid, Status>, t: map<Uuid, Status>, a: Ack) {
    && a.message in t && t.Keys == s.Keys && Says(a.status, t[a.message])
    && forall id | id in s && id != a.message :: t[id] == s[id]
  }

  lemma UpdateMovesRow(s: State, h: nat, out: Outcome)
    requires CanUpdateStatus(s, h) && s.handlers[h].ack.message in s.status
    ensures
      var t := DoUpdateStatus(s, h, out);
      if out.Applied() then MovedBy(s.status, t.status, s.handlers[h].ack) else t.status == s.status
  {}

  lemma HandlerRow(steps: seq<Step>, h: nat)
    requires CanRun(Init, steps) && h in Exec(Init, steps).handlers
    ensures Exec(Init, steps).handlers[h].ack.message in Exec(Init, steps).status
  {
    HandlerFacts(steps);
    C.RunKeepsInv(Init, steps);
    assert Entitled(Exec(Init, steps).rows, Exec(Init, steps).handlers[h].ack);
  }

  /** An update by an acknowledgement that is applied moves the row of its message, and no other: to
      `delivered` exactly if it says `received`, to `processed` exactly if it says `processed`, to `failed`
      exactly if it says `rejected` or `failed`, and to `pending` exactly for any other text. */
  lemma AckMovesRow(steps: seq<Step>, h: nat, out: Outcome)
    requires CanRun(Init, steps) && CanUpdateStatus(Exec(Init, steps), h)
    ensures
      var s, t := Exec(Init, steps), Apply(Exec(Init, steps), Acknowledge(h, UpdateStatus(out)));
      if out.Applied() then MovedBy(s.status, t.status, s.handlers[h].ack) else t.status == s.status
  {
    HandlerRow(steps, h);
    UpdateMovesRow(Exec(Init, steps), h, out);
  }

  /** One nonce moves a row's status at most once, and only after the acknowledgement with that nonce
      was persisted. */
  lemma NonceMovesOnce(steps: seq<Step>)
    requires CanRun(Init, steps)
    ensures
      var s := Exec(Init, steps);
      && (forall i, j | 0 <= i < j < |s.moves| :: s.moves[i] != s.moves[j])
      && (forall i | 0 <= i < |s.moves| :: s.moves[i] in s.acks)
  {
    RunKeepsInv(Init, steps);
  }
}
