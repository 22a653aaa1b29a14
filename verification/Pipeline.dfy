/** The delivery pipeline as one concurrent step system.

    Every store call of a sender, worker, retry loop or acknowledgement handler is one step, and
    any thread may take the next one. `Enabled` says when the call can happen with the
    given outcome and `Apply` what it does to the stores and to the caller's position. */
module Pipeline {
  import opened Model

  // ----- positions of the threads -------------------------------------------------------------

  datatype WorkPc =
    | Publishing(next: nat)  // about to publish to recipient `next`, or to write `sent`
    | MarkingDead            // routing failed, about to write `dead_letter`
    | Enqueueing             // about to create the dead-letter entry
    | MarkingFailed          // no entry was reported created, about to write `failed`

  datatype Task = Task(payload: Payload, run: nat, pc: WorkPc)

  datatype RetryPc =
    | Next                                       // about to look at the current entry
    | Republishing(run: nat, next: nat)          // about to publish to recipient `next`, or to write `sent`
    | GivingUp                                   // the last retry failed, about to write `failed`
    | Marking(status: EntryStatus, count: int)   // about to update the entry

  datatype Loop = Loop(batch: seq<Snapshot>, index: nat, pc: RetryPc)

  datatype AckWork = AckWork(ack: Ack, inserted: bool)

  datatype Actor = Sender(id: Uuid) | Worker(w: nat) | Retrier(l: nat) | Handler(h: nat)

  // ----- history ------------------------------------------------------------------------------

  /** Where a message with a row has got to. */
  datatype Place =
    | Inserted               // row written, push still to come
    | Abandoned              // Send gave up after the row was written
    | Queued
    | InFlight(w: nat)
    | Doubted(w: nat)        // in flight, the creation of its entry having reported an error
    | Routed
    | Dead
    | EnqueueFailed

  /** One publishing attempt: its owner has published to `done` recipients so far. */
  datatype Run = Run(id: Uuid, owner: Actor, done: nat)

  datatype State = State(
    rows: map<Uuid, Row>,            // messages, the columns fixed at insertion
    status: map<Uuid, Status>,       // messages, the status column
    queue: seq<Payload>,             // the Redis list: LPush at index 0, RPop at the end
    entries: map<Uuid, Entry>,       // dead_letter_queue, the columns fixed at insertion
    progress: map<Uuid, Progress>,   // dead_letter_queue, the updated columns
    acks: map<string, Ack>,          // acknowledgements, by their unique nonce
    log: seq<Publication>,           // what Redis was told to publish, oldest first
    work: map<nat, Task>,
    loops: map<nat, Loop>,
    handlers: map<nat, AckWork>,
    // history variables: no step's guard or effect on the stores reads them
    accepted: set<Uuid>,             // messages whose Send returned without error
    place: map<Uuid, Place>,
    pushed: seq<Payload>,            // every payload pushed so far, in order
    order: map<Uuid, nat>,           // the position of a message in `pushed`
    popped: nat,
    entryOf: map<Uuid, Uuid>,        // the entry created for a message
    runs: seq<Run>,
    refused: map<Uuid, nat>,         // per entry, the updates by a retry loop that were refused
    moves: seq<string>,              // nonces whose handler moved a row's status
    skew: map<Uuid, int>)            // per entry, how far applied updates set its count back

  const Init := State(map[], map[], [], map[], map[], map[], [], map[], map[], map[],
    {}, map[], [], map[], 0, map[], [], map[], [], map[])

  // ----- store calls --------------------------------------------------------------------------

  /** UPDATE messages SET status: no effect when the row is missing or the call is refused. */
  function SetStatus(status: map<Uuid, Status>, id: Uuid, value: Status, out: Outcome): (r: map<Uuid, Status>)
    ensures r.Keys == status.Keys
  {
    if out.Applied() && id in status then status[id := value] else status
  }

  /** UPDATE dead_letter_queue SET status, retry_count, processed_at. */
  function SetProgress(progress: map<Uuid, Progress>, eid: Uuid, status: EntryStatus, count: int, out: Outcome)
    : (r: map<Uuid, Progress>)
    ensures r.Keys == progress.Keys
  {
    if out.Applied() && eid in progress then progress[eid := Progress(status, count, status.Terminal())] else progress
  }

  function Logged(log: seq<Publication>, p: Payload, pos: nat, out: Outcome): seq<Publication>
    requires pos < |p.recipients|
  {
    if out.Applied() then log + [Publication(p.id, pos, p.recipients[pos])] else log
  }

  const LIST_LIMIT: nat := 100

  predicate Listable(s: State, e: Uuid) {
    e in s.entries && e in s.progress && Retryable(s.entries[e], s.progress[e])
  }

  predicate Reads(s: State, x: Snapshot) {
    Listable(s, x.eid) && x == Snapshot(x.eid, s.entries[x.eid], s.progress[x.eid].retryCount)
  }

  predicate Lists(batch: seq<Snapshot>, e: Uuid) {
    exists i | 0 <= i < |batch| :: batch[i].eid == e
  }

  /** What `... WHERE status = 'pending' AND retry_count < max_retries ORDER BY created_at ASC
      LIMIT 100` may return: ties are broken by the database. */
  predicate IsListing(s: State, batch: seq<Snapshot>) {
    && |batch| <= LIST_LIMIT
    && (forall i | 0 <= i < |batch| :: Reads(s, batch[i]))
    && (forall i, j | 0 <= i < j < |batch| ::
          batch[i].eid != batch[j].eid && batch[i].entry.createdAt <= batch[j].entry.createdAt)
    && (forall e | e in s.entries && Listable(s, e) && !Lists(batch, e) ::
          |batch| == LIST_LIMIT && forall i | 0 <= i < |batch| :: batch[i].entry.createdAt <= s.entries[e].createdAt)
  }

  // ----- history updates ----------------------------------------------------------------------

  function Advanced(runs: seq<Run>, run: nat, next: nat, out: Outcome): seq<Run>
    requires run < |runs|
  {
    if out.Applied() then runs[run := runs[run].(done := next + 1)] else runs
  }

  function Refusals(refused: map<Uuid, nat>, eid: Uuid, out: Outcome): (r: map<Uuid, nat>)
    ensures r.Keys == refused.Keys
  {
    if out.Refused? && eid in refused then refused[eid := refused[eid] + 1] else refused
  }

  /** An update that is applied sets the retry count to one more than that of the snapshot `c`, which
      is one retry more only if the snapshot is current. */
  function Skewed(skew: map<Uuid, int>, progress: map<Uuid, Progress>, c: Snapshot, out: Outcome): map<Uuid, int> {
    var before := if c.eid in skew then skew[c.eid] else 0;
    if out.Applied() && c.eid in progress then skew[c.eid := before + progress[c.eid].retryCount - c.retryCount]
    else skew
  }

  // ----- senders ------------------------------------------------------------------------------

  predicate CanInsert(s: State, p: Payload, out: Outcome) {
    |p.recipients| > 0 && (out.Applied() ==> p.id !in s.rows)
  }

  function DoInsert(s: State, p: Payload, tenant: Uuid, out: Outcome): State {
    var id := p.id;
    s.(rows := if out.Applied() then s.rows[id := Row(p.recipients, tenant)] else s.rows,
       status := if out.Applied() then s.status[id := Pending] else s.status,
       place := if out.Applied() then s.place[id := if out.Done? then Inserted else Abandoned] else s.place)
  }

  predicate CanPush(s: State, id: Uuid) {
    id in s.place && s.place[id] == Inserted && id in s.rows
  }

  function DoPush(s: State, id: Uuid, out: Outcome): State
    requires CanPush(s, id)
  {
    var p := Payload(id, s.rows[id].recipients);
    s.(queue := if out.Applied() then [p] + s.queue else s.queue,
       pushed := if out.Applied() then s.pushed + [p] else s.pushed,
       order := if out.Applied() then s.order[id := |s.pushed|] else s.order,
       place := s.place[id := if out.Applied() then Queued else Abandoned],
       accepted := if out.Done? then s.accepted + {id} else s.accepted)
  }

  // ----- workers ------------------------------------------------------------------------------

  predicate CanPop(s: State, w: nat) {
    w !in s.work && |s.queue| > 0
  }

  function DoPop(s: State, w: nat): State
    requires CanPop(s, w)
  {
    var p := s.queue[|s.queue| - 1];
    s.(queue := s.queue[..|s.queue| - 1], popped := s.popped + 1,
       place := s.place[p.id := InFlight(w)],
       runs := s.runs + [Run(p.id, Worker(w), 0)],
       work := s.work[w := Task(p, |s.runs|, Publishing(0))])
  }

  predicate At(s: State, w: nat, pc: WorkPc) {
    w in s.work && s.work[w].pc == pc
  }

  function Move(s: State, w: nat, pc: WorkPc): map<nat, Task>
    requires w in s.work
  {
    s.work[w := s.work[w].(pc := pc)]
  }

  predicate NoRoutes(s: State, w: nat) {
    At(s, w, Publishing(0)) && |s.work[w].payload.recipients| == 0
  }

  predicate CanPublish(s: State, w: nat) {
    && w in s.work && s.work[w].pc.Publishing?
    && s.work[w].pc.next < |s.work[w].payload.recipients| && s.work[w].run < |s.runs|
  }

  function DoPublish(s: State, w: nat, out: Outcome): State
    requires CanPublish(s, w)
  {
    var k := s.work[w].pc.next;
    s.(log := Logged(s.log, s.work[w].payload, k, out),
       runs := Advanced(s.runs, s.work[w].run, k, out),
       work := Move(s, w, if out.Done? then Publishing(k + 1) else MarkingDead))
  }

  predicate CanWriteSent(s: State, w: nat) {
    w in s.work && s.work[w].pc.Publishing? && 0 < s.work[w].pc.next == |s.work[w].payload.recipients|
  }

  function DoWriteSent(s: State, w: nat, out: Outcome): State
    requires CanWriteSent(s, w)
  {
    var id := s.work[w].payload.id;
    s.(status := SetStatus(s.status, id, Sent, out),
       work := if out.Done? then s.work - {w} else Move(s, w, MarkingDead),
       place := if out.Done? then s.place[id := Routed] else s.place)
  }

  function DoWriteDead(s: State, w: nat, out: Outcome): State
    requires At(s, w, MarkingDead)
  {
    s.(status := SetStatus(s.status, s.work[w].payload.id, DeadLetter, out), work := Move(s, w, Enqueueing))
  }

  /** The entry's foreign key needs the message row. */
  predicate CanEnqueue(s: State, w: nat, eid: Uuid, out: Outcome) {
    At(s, w, Enqueueing) && (out.Applied() ==> eid !in s.entries && s.work[w].payload.id in s.rows)
  }

  function Created(s: State, eid: Uuid, e: Entry): State {
    s.(entries := s.entries[eid := e],
       progress := s.progress[eid := Progress(Waiting, 0, false)],
       refused := s.refused[eid := 0],
       skew := s.skew[eid := 0],
       entryOf := s.entryOf[e.payload.id := eid])
  }

  function DoEnqueue(s: State, w: nat, eid: Uuid, maxRetries: int, createdAt: int, readable: bool, out: Outcome): State
    requires CanEnqueue(s, w, eid, out)
  {
    var p := s.work[w].payload;
    var e := Entry(p, readable, maxRetries, createdAt);
    match out
    case Done =>
      Created(s, eid, e).(work := s.work - {w}, place := s.place[p.id := Dead])
    case Lost =>
      Created(s, eid, e).(work := Move(s, w, MarkingFailed), place := s.place[p.id := Doubted(w)])
    case Refused =>
      s.(work := Move(s, w, MarkingFailed), place := s.place[p.id := Doubted(w)])
  }

  function DoWriteFailed(s: State, w: nat, out: Outcome): State
    requires At(s, w, MarkingFailed)
  {
    var id := s.work[w].payload.id;
    s.(status := SetStatus(s.status, id, Failed, out), work := s.work - {w}, place := s.place[id := EnqueueFailed])
  }

  // ----- retry loops --------------------------------------------------------------------------

  predicate Busy(s: State, l: nat) {
    l in s.loops && s.loops[l].index < |s.loops[l].batch|
  }

  /** The entry, as it was listed, that a retry loop is at. */
  function Current(s: State, l: nat): Snapshot
    requires Busy(s, l)
  {
    s.loops[l].batch[s.loops[l].index]
  }

  function Turn(s: State, l: nat, pc: RetryPc): map<nat, Loop>
    requires Busy(s, l)
  {
    s.loops[l := s.loops[l].(pc := pc)]
  }

  predicate CanList(s: State, l: nat, batch: seq<Snapshot>) {
    l !in s.loops && |batch| > 0 && IsListing(s, batch)
  }

  predicate CanTake(s: State, l: nat) {
    Busy(s, l) && s.loops[l].pc.Next?
  }

  /** An entry whose payload does not decode is exhausted at once; the others are published again. */
  function Taken(s: State, l: nat): RetryPc
    requires Busy(s, l)
  {
    var e := Current(s, l).entry;
    if e.readable then Republishing(|s.runs|, 0) else Marking(Exhausted, e.maxRetries)
  }

  function DoTake(s: State, l: nat): State
    requires CanTake(s, l)
  {
    var e := Current(s, l).entry;
    s.(loops := Turn(s, l, Taken(s, l)),
       runs := if e.readable then s.runs + [Run(e.payload.id, Retrier(l), 0)] else s.runs)
  }

  /** Where a loop goes when its publishing has failed. */
  function AfterFailure(c: Snapshot): RetryPc {
    if c.retryCount + 1 >= c.entry.maxRetries then GivingUp else Marking(Waiting, c.retryCount + 1)
  }

  predicate NoRecipients(s: State, l: nat) {
    && Busy(s, l) && s.loops[l].pc.Republishing? && s.loops[l].pc.next == 0
    && |Current(s, l).entry.payload.recipients| == 0
  }

  predicate CanRepublish(s: State, l: nat) {
    && Busy(s, l) && s.loops[l].pc.Republishing?
    && s.loops[l].pc.next < |Current(s, l).entry.payload.recipients| && s.loops[l].pc.run < |s.runs|
  }

  /** Where a loop goes when a publication has returned. */
  function AfterPublish(s: State, l: nat, out: Outcome): RetryPc
    requires Busy(s, l) && s.loops[l].pc.Republishing?
  {
    var pc := s.loops[l].pc;
    if out.Done? then Republishing(pc.run, pc.next + 1) else AfterFailure(Current(s, l))
  }

  function DoRepublish(s: State, l: nat, out: Outcome): State
    requires CanRepublish(s, l)
  {
    var c := Current(s, l);
    var pc := s.loops[l].pc;
    s.(log := Logged(s.log, c.entry.payload, pc.next, out),
       runs := Advanced(s.runs, pc.run, pc.next, out),
       loops := Turn(s, l, AfterPublish(s, l, out)))
  }

  predicate CanRewriteSent(s: State, l: nat) {
    && Busy(s, l) && s.loops[l].pc.Republishing?
    && 0 < s.loops[l].pc.next == |Current(s, l).entry.payload.recipients|
  }

  function DoRewriteSent(s: State, l: nat, out: Outcome): State
    requires CanRewriteSent(s, l)
  {
    var c := Current(s, l);
    s.(status := SetStatus(s.status, c.entry.payload.id, Sent, out),
       loops := Turn(s, l, Marking(Republished, c.retryCount + 1)))
  }

  predicate CanGiveUp(s: State, l: nat) {
    Busy(s, l) && s.loops[l].pc.GivingUp?
  }

  function DoGiveUp(s: State, l: nat, out: Outcome): State
    requires CanGiveUp(s, l)
  {
    var c := Current(s, l);
    s.(status := SetStatus(s.status, c.entry.payload.id, Failed, out),
       loops := Turn(s, l, Marking(Exhausted, c.retryCount + 1)))
  }

  predicate CanMark(s: State, l: nat) {
    Busy(s, l) && s.loops[l].pc.Marking?
  }

  /** The loop goes on to its next entry, if there is one. */
  function Onward(s: State, l: nat): map<nat, Loop>
    requires Busy(s, l)
  {
    var x := s.loops[l];
    if x.index + 1 == |x.batch| then s.loops - {l} else s.loops[l := Loop(x.batch, x.index + 1, Next)]
  }

  function DoMark(s: State, l: nat, out: Outcome): State
    requires CanMark(s, l)
  {
    var pc := s.loops[l].pc;
    var eid := Current(s, l).eid;
    s.(progress := SetProgress(s.progress, eid, pc.status, pc.count, out),
       refused := Refusals(s.refused, eid, out),
       skew := Skewed(s.skew, s.progress, Current(s, l), out),
       loops := Onward(s, l))
  }

  // ----- acknowledgement handlers -------------------------------------------------------------

  predicate CanLookup(s: State, h: nat, tenant: Uuid, ack: Ack) {
    && h !in s.handlers && ack.message in s.rows
    && s.rows[ack.message].tenant == tenant && ack.agent in s.rows[ack.message].recipients
  }

  predicate CanInsertAck(s: State, h: nat, out: Outcome) {
    h in s.handlers && !s.handlers[h].inserted && (out.Applied() ==> s.handlers[h].ack.nonce !in s.acks)
  }

  function DoInsertAck(s: State, h: nat, out: Outcome): State
    requires CanInsertAck(s, h, out)
  {
    var ack := s.handlers[h].ack;
    s.(acks := if out.Applied() then s.acks[ack.nonce := ack] else s.acks,
       handlers := if out.Done? then s.handlers[h := AckWork(ack, true)] else s.handlers - {h})
  }

  predicate CanUpdateStatus(s: State, h: nat) {
    h in s.handlers && s.handlers[h].inserted
  }

  function DoUpdateStatus(s: State, h: nat, out: Outcome): State
    requires CanUpdateStatus(s, h)
  {
    var ack := s.handlers[h].ack;
    s.(status := SetStatus(s.status, ack.message, AckToStatus(ack.status), out),
       moves := if out.Applied() then s.moves + [ack.nonce] else s.moves,
       handlers := s.handlers - {h})
  }

  // ----- steps --------------------------------------------------------------------------------

  datatype SendOp = Insert(p: Payload, tenant: Uuid, out: Outcome) | Push(id: Uuid, out: Outcome)

  datatype WorkOp =
    | Pop
    | FindNoRoutes
    | Publish(out: Outcome)
    | WriteSent(out: Outcome)
    | WriteDead(out: Outcome)
    | Enqueue(eid: Uuid, maxRetries: int, createdAt: int, readable: bool, out: Outcome)
    | WriteFailed(out: Outcome)

  datatype RetryOp =
    | List(batch: seq<Snapshot>)
    | Take
    | FindNoRecipients
    | Republish(out: Outcome)
    | RewriteSent(out: Outcome)
    | GiveUp(out: Outcome)
    | Mark(out: Outcome)

  datatype AckOp = Lookup(tenant: Uuid, ack: Ack) | InsertAck(out: Outcome) | UpdateStatus(out: Outcome)

  /** One step of one thread. */
  datatype Step =
    | Send(s: SendOp)
    | Work(w: nat, wop: WorkOp)
    | Retry(l: nat, rop: RetryOp)
    | Acknowledge(h: nat, aop: AckOp)

  predicate CanSend(s: State, op: SendOp) {
    match op
    case Insert(p, _, out) => CanInsert(s, p, out)
    case Push(id, _) => CanPush(s, id)
  }

  function DoSend(s: State, op: SendOp): State
    requires CanSend(s, op)
  {
    match op
    case Insert(p, tenant, out) => DoInsert(s, p, tenant, out)
    case Push(id, out) => DoPush(s, id, out)
  }

  predicate CanWork(s: State, w: nat, op: WorkOp) {
    match op
    case Pop => CanPop(s, w)
    case FindNoRoutes => NoRoutes(s, w)
    case Publish(_) => CanPublish(s, w)
    case WriteSent(_) => CanWriteSent(s, w)
    case WriteDead(_) => At(s, w, MarkingDead)
    case Enqueue(eid, _, _, _, out) => CanEnqueue(s, w, eid, out)
    case WriteFailed(_) => At(s, w, MarkingFailed)
  }

  function DoWork(s: State, w: nat, op: WorkOp): State
    requires CanWork(s, w, op)
  {
    match op
    case Pop => DoPop(s, w)
    case FindNoRoutes => s.(work := Move(s, w, MarkingDead))
    case Publish(out) => DoPublish(s, w, out)
    case WriteSent(out) => DoWriteSent(s, w, out)
    case WriteDead(out) => DoWriteDead(s, w, out)
    case Enqueue(eid, maxRetries, createdAt, readable, out) =>
      DoEnqueue(s, w, eid, maxRetries, createdAt, readable, out)
    case WriteFailed(out) => DoWriteFailed(s, w, out)
  }

  predicate CanRetry(s: State, l: nat, op: RetryOp) {
    match op
    case List(batch) => CanList(s, l, batch)
    case Take => CanTake(s, l)
    case FindNoRecipients => NoRecipients(s, l)
    case Republish(_) => CanRepublish(s, l)
    case RewriteSent(_) => CanRewriteSent(s, l)
    case GiveUp(_) => CanGiveUp(s, l)
    case Mark(_) => CanMark(s, l)
  }

  function DoRetry(s: State, l: nat, op: RetryOp): State
    requires CanRetry(s, l, op)
  {
    match op
    case List(batch) => s.(loops := s.loops[l := Loop(batch, 0, Next)])
    case Take => DoTake(s, l)
    case FindNoRecipients => s.(loops := Turn(s, l, AfterFailure(Current(s, l))))
    case Republish(out) => DoRepublish(s, l, out)
    case RewriteSent(out) => DoRewriteSent(s, l, out)
    case GiveUp(out) => DoGiveUp(s, l, out)
    case Mark(out) => DoMark(s, l, out)
  }

  predicate CanAck(s: State, h: nat, op: AckOp) {
    match op
    case Lookup(tenant, ack) => CanLookup(s, h, tenant, ack)
    case InsertAck(out) => CanInsertAck(s, h, out)
    case UpdateStatus(_) => CanUpdateStatus(s, h)
  }

  function DoAck(s: State, h: nat, op: AckOp): State
    requires CanAck(s, h, op)
  {
    match op
    case Lookup(_, ack) => s.(handlers := s.handlers[h := AckWork(ack, false)])
    case InsertAck(out) => DoInsertAck(s, h, out)
    case UpdateStatus(out) => DoUpdateStatus(s, h, out)
  }

  predicate Enabled(s: State, step: Step) {
    match step
    case Send(op) => CanSend(s, op)
    case Work(w, op) => CanWork(s, w, op)
    case Retry(l, op) => CanRetry(s, l, op)
    case Acknowledge(h, op) => CanAck(s, h, op)
  }

  function Apply(s: State, step: Step): State
    requires Enabled(s, step)
  {
    match step
    case Send(op) => DoSend(s, op)
    case Work(w, op) => DoWork(s, w, op)
    case Retry(l, op) => DoRetry(s, l, op)
    case Acknowledge(h, op) => DoAck(s, h, op)
  }

  // ----- runs ---------------------------------------------------------------------------------

  ghost predicate CanRun(s: State, steps: seq<Step>)
    decreases |steps|
  {
    |steps| == 0 || (Enabled(s, steps[0]) && CanRun(Apply(s, steps[0]), steps[1..]))
  }

  ghost function Exec(s: State, steps: seq<Step>): State
    requires CanRun(s, steps)
    decreases |steps|
  {
    if |steps| == 0 then s else Exec(Apply(s, steps[0]), steps[1..])
  }

  lemma ExecCons(s: State, step: Step, steps: seq<Step>)
    requires Enabled(s, step) && CanRun(Apply(s, step), steps)
    ensures CanRun(s, [step] + steps) && Exec(s, [step] + steps) == Exec(Apply(s, step), steps)
  {
    assert ([step] + steps)[1..] == steps;
  }

  lemma {:induction false} ExecAppend(s: State, xs: seq<Step>, ys: seq<Step>)
    requires CanRun(s, xs) && CanRun(Exec(s, xs), ys)
    ensures CanRun(s, xs + ys) && Exec(s, xs + ys) == Exec(Exec(s, xs), ys)
    decreases |xs|
  {
    if |xs| == 0 {
      assert xs + ys == ys;
    } else {
      ExecAppend(Apply(s, xs[0]), xs[1..], ys);
      ExecCons(s, xs[0], xs[1..] + ys);
      assert [xs[0]] + (xs[1..] + ys) == xs + ys;
    }
  }

  lemma ExecSnoc(s: State, steps: seq<Step>, step: Step)
    requires CanRun(s, steps) && Enabled(Exec(s, steps), step)
    ensures CanRun(s, steps + [step]) && Exec(s, steps + [step]) == Apply(Exec(s, steps), step)
  {
    ExecCons(Exec(s, steps), step, []);
    assert [step] + [] == [step];
    ExecAppend(s, steps, [step]);
  }

  ghost predicate Leads(from: State, steps: seq<Step>, s: State) {
    CanRun(from, steps) && Exec(from, steps) == s
  }

  lemma Extend(from: State, steps: seq<Step>, s: State, step: Step)
    requires Leads(from, steps, s) && Enabled(s, step)
    ensures Leads(from, steps + [step], Apply(s, step))
  {
    ExecSnoc(from, steps, step);
  }

  lemma LeadsOn(from: State, xs: seq<Step>, s: State, ys: seq<Step>, t: State)
    requires Leads(from, xs, s) && Leads(s, ys, t)
    ensures Leads(from, xs + ys, t)
  {
    ExecAppend(from, xs, ys);
  }
}
