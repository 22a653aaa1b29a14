/** Dead-letter entries under any number of retry loops, each writing from its own, possibly
    stale, snapshots. */
module Entries {
  import opened Model
  import opened Pipeline
  import C = Conservation
  import L = Ledger

  // ----- the invariant --------------------------------------------------------------------------

  predicate Sane(e: Entry, g: Progress) {
    && 0 <= g.retryCount
    && (g.retryCount <= e.maxRetries || g.retryCount == 0)
    && (g.status == Exhausted ==> g.retryCount == e.maxRetries)
    && (g.status == Waiting ==> g.retryCount < e.maxRetries || e.maxRetries <= 0)
    && (g.stamped <==> g.status.Terminal())
  }

  predicate ProgressInv(entries: map<Uuid, Entry>, progress: map<Uuid, Progress>) {
    forall e | e in progress && e in entries :: Sane(entries[e], progress[e])
  }

  /** The retries that entry `e` has left, if it is pending. */
  function RetriesLeft(entries: map<Uuid, Entry>, progress: map<Uuid, Progress>, e: Uuid): nat {
    if e in entries && e in progress && Retryable(entries[e], progress[e])
    then entries[e].maxRetries - progress[e].retryCount else 0
  }

  /** Only entries with retries left are listed. */
  predicate Retriable(c: Snapshot) {
    0 <= c.retryCount < c.entry.maxRetries
  }

  /** What a loop is about to write follows from its snapshot: one retry more if the payload
      decoded, exhausted otherwise. */
  predicate SoundTurn(c: Snapshot, pc: RetryPc) {
    match pc
    case Next => true
    case Republishing(_, _) => c.entry.readable
    case GivingUp => c.entry.readable && c.retryCount + 1 == c.entry.maxRetries
    case Marking(status, count) =>
      && Sane(c.entry, Progress(status, count, status.Terminal()))
      && (if c.entry.readable then count == c.retryCount + 1 else status == Exhausted)
  }

  predicate SoundLoop(x: Loop) {
    && (forall i | 0 <= i < |x.batch| :: Retriable(x.batch[i]))
    && (x.index < |x.batch| ==> SoundTurn(x.batch[x.index], x.pc))
  }

  predicate LoopsInv(loops: map<nat, Loop>) {
    forall l | l in loops :: SoundLoop(loops[l])
  }

  predicate Inv(s: State) {
    ProgressInv(s.entries, s.progress) && LoopsInv(s.loops)
  }

  // ----- steps ----------------------------------------------------------------------------------

  lemma EnqueueKeepsInv(s: State, w: nat, eid: Uuid, maxRetries: int, createdAt: int, readable: bool, out: Outcome)
    requires Inv(s) && CanEnqueue(s, w, eid, out)
    ensures Inv(DoEnqueue(s, w, eid, maxRetries, createdAt, readable, out))
  {}

  lemma TurnKeepsInv(s: State, l: nat, pc: RetryPc, t: State)
    requires Inv(s) && Busy(s, l) && SoundTurn(Current(s, l), pc)
    requires t.loops == Turn(s, l, pc) && t.entries == s.entries && t.progress == s.progress
    ensures Inv(t)
  {
    assert SoundLoop(s.loops[l]);
  }

  lemma ListKeepsInv(s: State, l: nat, batch: seq<Snapshot>, t: State)
    requires Inv(s) && CanList(s, l, batch)
    requires t.loops == s.loops[l := Loop(batch, 0, Next)] && t.entries == s.entries && t.progress == s.progress
    ensures Inv(t)
  {
    forall i | 0 <= i < |batch|
      ensures Retriable(batch[i])
    {
      assert Reads(s, batch[i]) && Sane(s.entries[batch[i].eid], s.progress[batch[i].eid]);
    }
  }

  lemma TakeKeepsInv(s: State, l: nat)
    requires Inv(s) && CanTake(s, l)
    ensures Inv(DoTake(s, l))
  {
    assert SoundTurn(Current(s, l), Taken(s, l)) by {
      assert SoundLoop(s.loops[l]) && Retriable(Current(s, l));
    }
    TurnKeepsInv(s, l, Taken(s, l), DoTake(s, l));
  }

  lemma FailureIsSound(s: State, l: nat)
    requires LoopsInv(s.loops) && Busy(s, l) && s.loops[l].pc.Republishing?
    ensures SoundTurn(Current(s, l), AfterFailure(Current(s, l)))
  {
    assert SoundLoop(s.loops[l]) && Retriable(Current(s, l));
  }

  lemma RepublishKeepsInv(s: State, l: nat, out: Outcome)
    requires Inv(s) && CanRepublish(s, l)
    ensures Inv(DoRepublish(s, l, out))
  {
    FailureIsSound(s, l);
    TurnKeepsInv(s, l, AfterPublish(s, l, out), DoRepublish(s, l, out));
  }

  lemma RewriteSentKeepsInv(s: State, l: nat, out: Outcome)
    requires Inv(s) && CanRewriteSent(s, l)
    ensures Inv(DoRewriteSent(s, l, out))
  {
    assert SoundLoop(s.loops[l]) && Retriable(Current(s, l));
    TurnKeepsInv(s, l, Marking(Republished, Current(s, l).retryCount + 1), DoRewriteSent(s, l, out));
  }

  lemma GiveUpKeepsInv(s: State, l: nat, out: Outcome)
    requires Inv(s) && CanGiveUp(s, l)
    ensures Inv(DoGiveUp(s, l, out))
  {
    assert SoundLoop(s.loops[l]) && Retriable(Current(s, l));
    TurnKeepsInv(s, l, Marking(Exhausted, Current(s, l).retryCount + 1), DoGiveUp(s, l, out));
  }

  lemma MarkKeepsInv(s: State, l: nat, out: Outcome)
    requires Inv(s) && CanMark(s, l) && L.LoopsGenuine(s.loops, s.entries)
    ensures Inv(DoMark(s, l, out))
  {
    var x := s.loops[l];
    assert SoundLoop(x) && L.Genuine(x, s.entries);
    assert SoundTurn(Current(s, l), x.pc);
  }

  lemma RetryKeepsInv(s: State, l: nat, op: RetryOp)
    requires Inv(s) && CanRetry(s, l, op) && L.LoopsGenuine(s.loops, s.entries)
    ensures Inv(DoRetry(s, l, op))
  {
    match op
    case List(batch) => ListKeepsInv(s, l, batch, DoRetry(s, l, op));
    case Take => TakeKeepsInv(s, l);
    case FindNoRecipients =>
      FailureIsSound(s, l);
      TurnKeepsInv(s, l, AfterFailure(Current(s, l)), DoRetry(s, l, op));
    case Republish(out) => RepublishKeepsInv(s, l, out);
    case RewriteSent(out) => RewriteSentKeepsInv(s, l, out);
    case GiveUp(out) => GiveUpKeepsInv(s, l, out);
    case Mark(out) => MarkKeepsInv(s, l, out);
  }

  /** A step that has nothing to do with entries. */
  predicate Apart(s: State, t: State) {
    && t.entries == s.entries && t.progress == s.progress && t.loops == s.loops
    && t.skew == s.skew && t.entryOf == s.entryOf
  }

  lemma ApartKeepsInv(s: State, t: State)
    requires Inv(s) && Apart(s, t)
    ensures Inv(t)
  {}

  lemma PopIsApart(s: State, w: nat)
    requires CanPop(s, w)
    ensures Apart(s, DoPop(s, w))
  {}

  lemma PublishIsApart(s: State, w: nat, out: Outcome)
    requires CanPublish(s, w)
    ensures Apart(s, DoPublish(s, w, out))
  {}

  lemma WriteSentIsApart(s: State, w: nat, out: Outcome)
    requires CanWriteSent(s, w)
    ensures Apart(s, DoWriteSent(s, w, out))
  {}

  lemma GivingUpIsApart(s: State, w: nat, out: Outcome)
    ensures At(s, w, MarkingDead) ==> Apart(s, DoWriteDead(s, w, out))
    ensures At(s, w, MarkingFailed) ==> Apart(s, DoWriteFailed(s, w, out))
  {}

  lemma SendingIsApart(s: State, p: Payload, tenant: Uuid, out: Outcome)
    ensures CanInsert(s, p, out) ==> Apart(s, DoInsert(s, p, tenant, out))
    ensures CanPush(s, p.id) ==> Apart(s, DoPush(s, p.id, out))
  {}

  lemma HandlingIsApart(s: State, h: nat, out: Outcome)
    ensures CanInsertAck(s, h, out) ==> Apart(s, DoInsertAck(s, h, out))
    ensures CanUpdateStatus(s, h) ==> Apart(s, DoUpdateStatus(s, h, out))
  {}

  lemma WorkKeepsInv(s: State, w: nat, op: WorkOp)
    requires Inv(s) && CanWork(s, w, op)
    ensures Inv(DoWork(s, w, op))
  {
    match op
    case Enqueue(eid, maxRetries, createdAt, readable, out) =>
      EnqueueKeepsInv(s, w, eid, maxRetries, createdAt, readable, out);
    case _ =>
      WorkIsApart(s, w, op);
      ApartKeepsInv(s, DoWork(s, w, op));
  }

  lemma WorkIsApart(s: State, w: nat, op: WorkOp)
    requires CanWork(s, w, op) && !op.Enqueue?
    ensures Apart(s, DoWork(s, w, op))
  {
    match op
    case Pop => PopIsApart(s, w);
    case FindNoRoutes => assert Apart(s, s.(work := Move(s, w, MarkingDead)));
    case Publish(out) => PublishIsApart(s, w, out);
    case WriteSent(out) => WriteSentIsApart(s, w, out);
    case WriteDead(out) => GivingUpIsApart(s, w, out);
    case WriteFailed(out) => GivingUpIsApart(s, w, out);
  }

  lemma SendIsApart(s: State, op: SendOp)
    requires CanSend(s, op)
    ensures Apart(s, DoSend(s, op))
  {
    match op
    case Insert(p, tenant, out) => SendingIsApart(s, p, tenant, out);
    case Push(id, out) => SendingIsApart(s, Payload(id, []), id, out);
  }

  lemma AckIsApart(s: State, h: nat, op: AckOp)
    requires CanAck(s, h, op)
    ensures Apart(s, DoAck(s, h, op))
  {
    match op
    case Lookup(tenant, a) => assert Apart(s, s.(handlers := s.handlers[h := AckWork(a, false)]));
    case InsertAck(out) => HandlingIsApart(s, h, out);
    case UpdateStatus(out) => HandlingIsApart(s, h, out);
  }

  lemma StepKeepsInv(s: State, step: Step)
    requires Inv(s) && L.LoopsGenuine(s.loops, s.entries) && Enabled(s, step)
    ensures Inv(Apply(s, step))
  {
    match step
    case Send(op) =>
      SendIsApart(s, op);
      ApartKeepsInv(s, DoSend(s, op));
    case Work(w, op) => WorkKeepsInv(s, w, op);
    case Retry(l, op) => RetryKeepsInv(s, l, op);
    case Acknowledge(h, op) =>
      AckIsApart(s, h, op);
      ApartKeepsInv(s, DoAck(s, h, op));
  }

  lemma {:induction false} RunKeepsInv(s: State, steps: seq<Step>)
    requires C.Inv(s) && L.Inv(s) && Inv(s) && CanRun(s, steps)
    ensures C.Inv(Exec(s, steps)) && L.Inv(Exec(s, steps)) && Inv(Exec(s, steps))
    decreases |steps|
  {
    if |steps| > 0 {
      C.StepKeepsInv(s, steps[0]);
      L.StepKeepsInv(s, steps[0]);
      StepKeepsInv(s, steps[0]);
      RunKeepsInv(Apply(s, steps[0]), steps[1..]);
    }
  }

  // ----- main result ----------------------------------------------------------------------------

  /** However many retry loops write from stale snapshots, in every reachable state each entry has
      0 <= retry_count <= max(0, max_retries), is exhausted only with retry_count = max_retries,
      waits only with retries left or none to begin with, and is stamped iff it is terminal. */
  lemma EntriesStaySane(steps: seq<Step>, e: Uuid)
    requires CanRun(Init, steps) && e in Exec(Init, steps).entries
    ensures
      var s := Exec(Init, steps);
      e in s.progress && Sane(s.entries[e], s.progress[e])
  {
    RunKeepsInv(Init, steps);
  }
}
