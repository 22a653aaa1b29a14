/** Every publishing attempt at a message is accounted for, with any number of retry loops: one by a
    worker, and one for each retry counted in its entry, each refused update of the entry, each retry
    that an update from a stale snapshot has set the count back by, and each retry under way. */
module Accounting {
  import opened Model
  import opened Pipeline
  import C = Conservation
  import L = Ledger
  import E = Entries
  import O = OneLoop

  // ----- the account ----------------------------------------------------------------------------

  /** Whether a loop is between taking entry `e` and updating it. */
  predicate Active(x: Loop, e: Uuid) {
    x.index < |x.batch| && x.batch[x.index].eid == e && !x.pc.Next?
  }

  function Attempting(loops: map<nat, Loop>, e: Uuid): set<nat> {
    set l | l in loops && Active(loops[l], e)
  }

  /** How many loops are between taking entry `e` and updating it. */
  function Underway(loops: map<nat, Loop>, e: Uuid): nat {
    |Attempting(loops, e)|
  }

  function SkewOf(skew: map<Uuid, int>, e: Uuid): int {
    if e in skew then skew[e] else 0
  }

  /** Retries of entry `e` so far, by any number of loops. */
  function Retries(s: State, e: Uuid): int {
    if e in s.entries && e in s.progress && e in s.refused && s.entries[e].readable
    then s.progress[e].retryCount + s.refused[e] + SkewOf(s.skew, e) + Underway(s.loops, e)
    else 0
  }

  function Pops(place: map<Uuid, Place>, id: Uuid): int {
    if id in place && !C.Unpushed(place[id]) && place[id] != Queued then 1 else 0
  }

  function Retried(s: State, id: Uuid): int {
    if id in s.entryOf then Retries(s, s.entryOf[id]) else 0
  }

  function Account(s: State, id: Uuid): int {
    Pops(s.place, id) + Retried(s, id)
  }

  ghost predicate Balanced(s: State) {
    forall id: Uuid :: L.Attempts(s.runs, id) == Account(s, id)
  }

  // ----- counting loops -------------------------------------------------------------------------

  /** Loop `l` counts for itself only. */
  lemma LoopMoves(loops: map<nat, Loop>, l: nat, x: Loop, e: Uuid)
    ensures Underway(loops[l := x], e) == Underway(loops - {l}, e) + if Active(x, e) then 1 else 0
  {
    var rest := Attempting(loops - {l}, e);
    assert Attempting(loops[l := x], e) == rest + if Active(x, e) then {l} else {};
    assert l !in rest;
  }

  lemma LoopCounts(loops: map<nat, Loop>, l: nat, e: Uuid)
    ensures Underway(loops, e) == Underway(loops - {l}, e) + if l in loops && Active(loops[l], e) then 1 else 0
  {
    if l in loops {
      LoopMoves(loops, l, loops[l], e);
      assert loops[l := loops[l]] == loops;
    } else {
      assert loops - {l} == loops;
    }
  }

  /** Loop `l` becomes `x`, which is at the same entry as before or at none. */
  lemma SameUnderway(loops: map<nat, Loop>, l: nat, x: Loop, e: Uuid)
    requires Active(x, e) <==> l in loops && Active(loops[l], e)
    ensures Underway(loops[l := x], e) == Underway(loops, e)
  {
    LoopMoves(loops, l, x, e);
    LoopCounts(loops, l, e);
  }

  // ----- steps ----------------------------------------------------------------------------------

  /** A step that neither starts an attempt nor changes any account. */
  lemma Neutral(s: State, t: State)
    requires Balanced(s)
    requires forall id: Uuid :: L.Attempts(t.runs, id) == L.Attempts(s.runs, id)
    requires forall id: Uuid :: Account(t, id) == Account(s, id)
    ensures Balanced(t)
  {}

  lemma InsertBalanced(s: State, p: Payload, tenant: Uuid, out: Outcome)
    requires Balanced(s) && CanInsert(s, p, out) && C.RowKeys(s.rows, s.status, s.place)
    ensures Balanced(DoInsert(s, p, tenant, out))
  {
    var t := DoInsert(s, p, tenant, out);
    forall id: Uuid
      ensures Account(t, id) == Account(s, id)
    {}
    Neutral(s, t);
  }

  lemma PushBalanced(s: State, id: Uuid, out: Outcome)
    requires Balanced(s) && CanPush(s, id)
    ensures Balanced(DoPush(s, id, out))
  {
    var t := DoPush(s, id, out);
    forall x: Uuid
      ensures Account(t, x) == Account(s, x)
    {}
    Neutral(s, t);
  }

  lemma PopBalanced(s: State, w: nat)
    requires Balanced(s) && CanPop(s, w) && C.QueueInv(s.queue, s.pushed, s.popped)
    requires C.OrderInv(s.pushed, s.order) && C.PlaceInv(s.place, s.order, s.popped)
    ensures Balanced(DoPop(s, w))
  {
    var p := s.queue[|s.queue| - 1];
    C.QueuePop(s.queue, s.pushed, s.popped);
    assert s.order[p.id] == s.popped && s.place[p.id] == Queued;
    var t := DoPop(s, w);
    forall id: Uuid
      ensures L.Attempts(t.runs, id) == Account(t, id)
    {
      L.RunsAppend(s.runs, Run(p.id, Worker(w), 0), id, 0);
      RetriedSame(s, t, id);
      PopsOneMore(s.place, p.id, w, id);
    }
  }

  lemma PopsOneMore(place: map<Uuid, Place>, popped: Uuid, w: nat, id: Uuid)
    requires popped in place && place[popped] == Queued
    ensures Pops(place[popped := InFlight(w)], id) == Pops(place, id) + if id == popped then 1 else 0
  {}

  lemma RetriedSame(s: State, t: State, id: Uuid)
    requires t.entries == s.entries && t.progress == s.progress && t.refused == s.refused
    requires t.skew == s.skew && t.loops == s.loops && t.entryOf == s.entryOf
    ensures Retried(t, id) == Retried(s, id)
  {}

  lemma PublishBalanced(s: State, w: nat, out: Outcome)
    requires Balanced(s) && CanPublish(s, w) && L.WorkRuns(s.work, s.runs)
    ensures Balanced(DoPublish(s, w, out))
  {
    var x := s.work[w];
    assert L.TaskRun(x, w, s.runs);
    var t := DoPublish(s, w, out);
    forall id: Uuid
      ensures L.Attempts(t.runs, id) == L.Attempts(s.runs, id) && Account(t, id) == Account(s, id)
    {
      L.RunsAdvance(s.runs, x.run, id, 0);
    }
    Neutral(s, t);
  }

  /** A message that a worker holds, and is done with or still holds. */
  predicate Left(before: Place, after: Place) {
    C.Held(before) && (after == Routed || after == EnqueueFailed || C.Held(after))
  }

  lemma LeaveBalanced(s: State, t: State)
    requires Balanced(s) && t.runs == s.runs && t.entryOf == s.entryOf && t.entries == s.entries
    requires t.progress == s.progress && t.refused == s.refused && t.skew == s.skew && t.loops == s.loops
    requires t.place.Keys == s.place.Keys
    requires forall id | id in s.place :: t.place[id] == s.place[id] || Left(s.place[id], t.place[id])
    ensures Balanced(t)
  {
    forall id: Uuid
      ensures Account(t, id) == Account(s, id)
    {}
    Neutral(s, t);
  }

  /** A new entry starts with no retries, and no loop is at it. */
  lemma CreatedRetries(s: State, eid: Uuid, e: Entry, d: Uuid)
    requires eid !in s.entries && L.LoopsGenuine(s.loops, s.entries)
    ensures Retries(Created(s, eid, e), d) == if d == eid then 0 else Retries(s, d)
  {
    if d == eid {
      NobodyAt(s.loops, s.entries, eid);
    }
  }

  lemma NobodyAt(loops: map<nat, Loop>, entries: map<Uuid, Entry>, eid: Uuid)
    requires eid !in entries && L.LoopsGenuine(loops, entries)
    ensures Underway(loops, eid) == 0
  {
    forall l | l in loops
      ensures !Active(loops[l], eid)
    {
      assert L.Genuine(loops[l], entries);
    }
    assert Attempting(loops, eid) == {};
  }

  lemma CreatedRetried(s: State, eid: Uuid, e: Entry, id: Uuid)
    requires eid !in s.entries && L.LoopsGenuine(s.loops, s.entries)
    requires e.payload.id !in s.entryOf && (id in s.entryOf ==> s.entryOf[id] in s.entries)
    ensures Retried(Created(s, eid, e), id) == Retried(s, id)
  {
    var entryOf' := Created(s, eid, e).entryOf;
    if id == e.payload.id {
      CreatedRetries(s, eid, e, eid);
    } else if id in s.entryOf {
      CreatedRetries(s, eid, e, s.entryOf[id]);
    } else {
      assert id !in entryOf';
    }
  }

  lemma CreatedAccount(s: State, eid: Uuid, e: Entry, g: Place, t: State, id: Uuid)
    requires eid !in s.entries && L.LoopsGenuine(s.loops, s.entries) && C.EntryInv(s.entries, s.entryOf)
    requires e.payload.id in s.place && s.place[e.payload.id].InFlight?
    requires e.payload.id !in s.entryOf && C.MayHaveEntry(g)
    requires
      var c := Created(s, eid, e);
      && t.entries == c.entries && t.progress == c.progress && t.refused == c.refused && t.skew == c.skew
      && t.loops == c.loops && t.entryOf == c.entryOf && t.place == s.place[e.payload.id := g]
    ensures Account(t, id) == Account(s, id)
  {
    CreatedRetried(s, eid, e, id);
    RetriedSame(Created(s, eid, e), t, id);
    PopsSame(s.place, e.payload.id, g, id);
  }

  lemma PopsSame(place: map<Uuid, Place>, changed: Uuid, g: Place, id: Uuid)
    requires changed in place && place[changed].InFlight? && C.MayHaveEntry(g)
    ensures Pops(place[changed := g], id) == Pops(place, id)
  {}

  lemma CreateBalanced(s: State, eid: Uuid, e: Entry, g: Place, t: State)
    requires Balanced(s) && eid !in s.entries && L.LoopsGenuine(s.loops, s.entries) && C.EntryInv(s.entries, s.entryOf)
    requires e.payload.id in s.place && s.place[e.payload.id].InFlight?
    requires e.payload.id !in s.entryOf && C.MayHaveEntry(g)
    requires t == Created(s, eid, e).(place := s.place[e.payload.id := g], work := t.work)
    ensures Balanced(t)
  {
    forall id: Uuid
      ensures Account(t, id) == Account(s, id)
    {
      CreatedAccount(s, eid, e, g, t, id);
    }
    Neutral(s, t);
  }

  lemma TakeRetries(s: State, l: nat, e: Uuid)
    requires CanTake(s, l) && L.LoopsGenuine(s.loops, s.entries) && C.EntryKeys(s.entries, s.progress, s.refused)
    ensures
      var c := Current(s, l);
      Retries(DoTake(s, l), e) == Retries(s, e) + if e == c.eid && c.entry.readable then 1 else 0
  {
    assert L.Genuine(s.loops[l], s.entries);
    LoopCounts(s.loops, l, e);
    LoopMoves(s.loops, l, s.loops[l].(pc := Taken(s, l)), e);
  }

  lemma TakeBalanced(s: State, l: nat)
    requires Balanced(s) && CanTake(s, l) && C.EntryInv(s.entries, s.entryOf) && L.LoopsGenuine(s.loops, s.entries)
    requires C.EntryKeys(s.entries, s.progress, s.refused)
    ensures Balanced(DoTake(s, l))
  {
    var c := Current(s, l);
    var t := DoTake(s, l);
    assert L.Genuine(s.loops[l], s.entries);
    forall id: Uuid
      ensures L.Attempts(t.runs, id) == Account(t, id)
    {
      L.RunsAppend(s.runs, Run(c.entry.payload.id, Retrier(l), 0), id, 0);
      if id in s.entryOf {
        TakeRetries(s, l, s.entryOf[id]);
        assert s.entryOf[id] == c.eid <==> id == c.entry.payload.id;
      }
    }
  }

  /** What an update, applied or refused, changes in the account of its entry cancels out: the retry
      under way has become one that is counted, refused, or made up for in the skew. */
  lemma MarkRetries(s: State, l: nat, out: Outcome, e: Uuid)
    requires CanMark(s, l) && E.LoopsInv(s.loops) && L.LoopsGenuine(s.loops, s.entries)
    requires C.EntryKeys(s.entries, s.progress, s.refused)
    ensures Retries(DoMark(s, l, out), e) == Retries(s, e)
  {
    var c := Current(s, l);
    var t := DoMark(s, l, out);
    assert E.SoundLoop(s.loops[l]) && L.Genuine(s.loops[l], s.entries);
    assert E.SoundTurn(c, s.loops[l].pc);
    OnwardUnderway(s, l, e);
  }

  lemma OnwardUnderway(s: State, l: nat, e: Uuid)
    requires Busy(s, l) && !s.loops[l].pc.Next?
    ensures Underway(s.loops, e) == Underway(Onward(s, l), e) + if e == Current(s, l).eid then 1 else 0
  {
    var x := s.loops[l];
    LoopCounts(s.loops, l, e);
    LoopMoves(s.loops, l, Loop(x.batch, x.index + 1, Next), e);
  }

  /** A step of loop `l` that starts no attempt and leaves what is counted as it is. */
  lemma LoopBalanced(s: State, l: nat, x: Loop, t: State)
    requires Balanced(s) && t.loops == s.loops[l := x]
    requires forall e: Uuid :: Active(x, e) <==> l in s.loops && Active(s.loops[l], e)
    requires t.place == s.place && t.entryOf == s.entryOf && t.entries == s.entries
    requires t.progress == s.progress && t.refused == s.refused && t.skew == s.skew
    requires forall id: Uuid :: L.Attempts(t.runs, id) == L.Attempts(s.runs, id)
    ensures Balanced(t)
  {
    forall id: Uuid
      ensures Account(t, id) == Account(s, id)
    {
      if id in s.entryOf {
        SameUnderway(s.loops, l, x, s.entryOf[id]);
      }
    }
    Neutral(s, t);
  }

  lemma TurnBalanced(s: State, l: nat, pc: RetryPc, t: State)
    requires Balanced(s) && Busy(s, l) && !s.loops[l].pc.Next? && !pc.Next? && t.loops == Turn(s, l, pc)
    requires t.place == s.place && t.entryOf == s.entryOf && t.entries == s.entries
    requires t.progress == s.progress && t.refused == s.refused && t.skew == s.skew
    requires forall id: Uuid :: L.Attempts(t.runs, id) == L.Attempts(s.runs, id)
    ensures Balanced(t)
  {
    LoopBalanced(s, l, s.loops[l].(pc := pc), t);
  }

  lemma MarkBalanced(s: State, l: nat, out: Outcome)
    requires Balanced(s) && CanMark(s, l) && E.LoopsInv(s.loops) && L.LoopsGenuine(s.loops, s.entries)
    requires C.EntryKeys(s.entries, s.progress, s.refused)
    ensures Balanced(DoMark(s, l, out))
  {
    var t := DoMark(s, l, out);
    forall id: Uuid
      ensures Account(t, id) == Account(s, id)
    {
      if id in s.entryOf {
        MarkRetries(s, l, out, s.entryOf[id]);
      }
    }
    Neutral(s, t);
  }

  lemma WriteSentBalanced(s: State, w: nat, out: Outcome)
    requires Balanced(s) && CanWriteSent(s, w) && C.WorkInv(s.place, s.work)
    ensures Balanced(DoWriteSent(s, w, out))
  {
    LeaveBalanced(s, DoWriteSent(s, w, out));
  }

  lemma RefusedEnqueueBalanced(s: State, w: nat, t: State)
    requires Balanced(s) && At(s, w, Enqueueing) && C.WorkInv(s.place, s.work)
    requires t == s.(work := Move(s, w, MarkingFailed), place := s.place[s.work[w].payload.id := Doubted(w)])
    ensures Balanced(t)
  {
    LeaveBalanced(s, t);
  }

  lemma InFlightHasNoEntry(s: State, w: nat)
    requires At(s, w, Enqueueing) && C.WorkInv(s.place, s.work) && C.DeadInv(s.place, s.entryOf)
    ensures
      var id := s.work[w].payload.id;
      id in s.place && s.place[id].InFlight? && id !in s.entryOf
  {}

  lemma EnqueueBalanced(s: State, w: nat, eid: Uuid, maxRetries: int, createdAt: int, readable: bool, out: Outcome)
    requires Balanced(s) && CanEnqueue(s, w, eid, out) && L.LoopsGenuine(s.loops, s.entries)
    requires C.WorkInv(s.place, s.work) && C.DeadInv(s.place, s.entryOf) && C.EntryInv(s.entries, s.entryOf)
    ensures Balanced(DoEnqueue(s, w, eid, maxRetries, createdAt, readable, out))
  {
    var t := DoEnqueue(s, w, eid, maxRetries, createdAt, readable, out);
    var e := Entry(s.work[w].payload, readable, maxRetries, createdAt);
    InFlightHasNoEntry(s, w);
    match out
    case Done => CreateBalanced(s, eid, e, Dead, t);
    case Lost => CreateBalanced(s, eid, e, Doubted(w), t);
    case Refused => RefusedEnqueueBalanced(s, w, t);
  }

  lemma WriteDeadBalanced(s: State, w: nat, out: Outcome)
    requires Balanced(s) && At(s, w, MarkingDead)
    ensures Balanced(DoWriteDead(s, w, out))
  {
    LeaveBalanced(s, DoWriteDead(s, w, out));
  }

  lemma WriteFailedBalanced(s: State, w: nat, out: Outcome)
    requires Balanced(s) && At(s, w, MarkingFailed) && C.WorkInv(s.place, s.work)
    ensures Balanced(DoWriteFailed(s, w, out))
  {
    LeaveBalanced(s, DoWriteFailed(s, w, out));
  }

  lemma WorkBalanced(s: State, w: nat, op: WorkOp)
    requires Balanced(s) && CanWork(s, w, op) && L.WorkRuns(s.work, s.runs) && L.LoopsGenuine(s.loops, s.entries)
    requires C.QueueInv(s.queue, s.pushed, s.popped) && C.OrderInv(s.pushed, s.order)
    requires C.PlaceInv(s.place, s.order, s.popped)
    requires C.WorkInv(s.place, s.work) && C.DeadInv(s.place, s.entryOf) && C.EntryInv(s.entries, s.entryOf)
    ensures Balanced(DoWork(s, w, op))
  {
    match op
    case Pop => PopBalanced(s, w);
    case FindNoRoutes => LeaveBalanced(s, s.(work := Move(s, w, MarkingDead)));
    case Publish(out) => PublishBalanced(s, w, out);
    case WriteSent(out) => WriteSentBalanced(s, w, out);
    case WriteDead(out) => WriteDeadBalanced(s, w, out);
    case Enqueue(eid, maxRetries, createdAt, readable, out) =>
      EnqueueBalanced(s, w, eid, maxRetries, createdAt, readable, out);
    case WriteFailed(out) => WriteFailedBalanced(s, w, out);
  }

  lemma RepublishAttempts(s: State, l: nat, out: Outcome, id: Uuid)
    requires CanRepublish(s, l) && L.LoopRuns(s.loops, s.runs)
    ensures L.Attempts(DoRepublish(s, l, out).runs, id) == L.Attempts(s.runs, id)
  {
    assert L.LoopRun(s.loops[l], l, s.runs);
    L.RunsAdvance(s.runs, s.loops[l].pc.run, id, 0);
  }

  lemma RepublishBalanced(s: State, l: nat, out: Outcome)
    requires Balanced(s) && CanRepublish(s, l) && L.LoopRuns(s.loops, s.runs)
    ensures Balanced(DoRepublish(s, l, out))
  {
    forall id: Uuid
      ensures L.Attempts(DoRepublish(s, l, out).runs, id) == L.Attempts(s.runs, id)
    {
      RepublishAttempts(s, l, out, id);
    }
    TurnBalanced(s, l, AfterPublish(s, l, out), DoRepublish(s, l, out));
  }

  lemma FindNoRecipientsBalanced(s: State, l: nat)
    requires Balanced(s) && NoRecipients(s, l)
    ensures Balanced(s.(loops := Turn(s, l, AfterFailure(Current(s, l)))))
  {
    TurnBalanced(s, l, AfterFailure(Current(s, l)), s.(loops := Turn(s, l, AfterFailure(Current(s, l)))));
  }

  lemma RewriteSentBalanced(s: State, l: nat, out: Outcome)
    requires Balanced(s) && CanRewriteSent(s, l)
    ensures Balanced(DoRewriteSent(s, l, out))
  {
    TurnBalanced(s, l, Marking(Republished, Current(s, l).retryCount + 1), DoRewriteSent(s, l, out));
  }

  lemma GiveUpBalanced(s: State, l: nat, out: Outcome)
    requires Balanced(s) && CanGiveUp(s, l)
    ensures Balanced(DoGiveUp(s, l, out))
  {
    TurnBalanced(s, l, Marking(Exhausted, Current(s, l).retryCount + 1), DoGiveUp(s, l, out));
  }

  lemma ListBalanced(s: State, l: nat, batch: seq<Snapshot>)
    requires Balanced(s) && CanList(s, l, batch)
    ensures Balanced(s.(loops := s.loops[l := Loop(batch, 0, Next)]))
  {
    LoopBalanced(s, l, Loop(batch, 0, Next), s.(loops := s.loops[l := Loop(batch, 0, Next)]));
  }

  lemma RetryBalanced(s: State, l: nat, op: RetryOp)
    requires Balanced(s) && CanRetry(s, l, op)
    requires L.LoopRuns(s.loops, s.runs) && L.LoopsGenuine(s.loops, s.entries) && E.LoopsInv(s.loops)
    requires C.EntryInv(s.entries, s.entryOf) && C.EntryKeys(s.entries, s.progress, s.refused)
    ensures Balanced(DoRetry(s, l, op))
  {
    match op
    case List(batch) => ListBalanced(s, l, batch);
    case Take => TakeBalanced(s, l);
    case FindNoRecipients => FindNoRecipientsBalanced(s, l);
    case Republish(out) => RepublishBalanced(s, l, out);
    case RewriteSent(out) => RewriteSentBalanced(s, l, out);
    case GiveUp(out) => GiveUpBalanced(s, l, out);
    case Mark(out) => MarkBalanced(s, l, out);
  }

  // ----- runs -----------------------------------------------------------------------------------

  lemma WorkBalancedAfter(steps: seq<Step>, w: nat, op: WorkOp)
    requires CanRun(Init, steps) && CanWork(Exec(Init, steps), w, op) && Balanced(Exec(Init, steps))
    ensures Balanced(DoWork(Exec(Init, steps), w, op))
  {
    L.RunKeepsInv(Init, steps);
    WorkBalanced(Exec(Init, steps), w, op);
  }

  lemma TableFacts(steps: seq<Step>)
    requires CanRun(Init, steps)
    ensures
      var s := Exec(Init, steps);
      && L.LoopRuns(s.loops, s.runs) && L.LoopsGenuine(s.loops, s.entries)
      && C.EntryInv(s.entries, s.entryOf) && C.EntryKeys(s.entries, s.progress, s.refused)
      && C.RowKeys(s.rows, s.status, s.place)
  {
    L.RunKeepsInv(Init, steps);
  }

  lemma RetryBalancedAfter(steps: seq<Step>, l: nat, op: RetryOp)
    requires CanRun(Init, steps) && CanRetry(Exec(Init, steps), l, op) && Balanced(Exec(Init, steps))
    ensures Balanced(DoRetry(Exec(Init, steps), l, op))
  {
    TableFacts(steps);
    SoundLoops(steps);
    RetryBalanced(Exec(Init, steps), l, op);
  }

  lemma SoundLoops(steps: seq<Step>)
    requires CanRun(Init, steps)
    ensures E.LoopsInv(Exec(Init, steps).loops) && E.ProgressInv(Exec(Init, steps).entries, Exec(Init, steps).progress)
  {
    E.RunKeepsInv(Init, steps);
  }

  lemma StepBalanced(steps: seq<Step>, step: Step)
    requires CanRun(Init, steps) && Enabled(Exec(Init, steps), step) && Balanced(Exec(Init, steps))
    ensures Balanced(Apply(Exec(Init, steps), step))
  {
    var s := Exec(Init, steps);
    match step
    case Send(Insert(p, tenant, out)) =>
      TableFacts(steps);
      InsertBalanced(s, p, tenant, out);
    case Send(Push(id, out)) => PushBalanced(s, id, out);
    case Work(w, op) => WorkBalancedAfter(steps, w, op);
    case Retry(l, op) => RetryBalancedAfter(steps, l, op);
    case Acknowledge(h, op) => AckBalanced(s, h, op);
  }

  lemma AckBalanced(s: State, h: nat, op: AckOp)
    requires Balanced(s) && CanAck(s, h, op)
    ensures Balanced(DoAck(s, h, op))
  {
    match op
    case Lookup(tenant, a) => LeaveBalanced(s, s.(handlers := s.handlers[h := AckWork(a, false)]));
    case InsertAck(out) => LeaveBalanced(s, DoInsertAck(s, h, out));
    case UpdateStatus(out) => LeaveBalanced(s, DoUpdateStatus(s, h, out));
  }

  /** The account after a run can be drawn up one step at a time. */
  lemma {:induction false} RunBalanced(steps: seq<Step>, more: seq<Step>)
    requires CanRun(Init, steps) && CanRun(Exec(Init, steps), more) && Balanced(Exec(Init, steps))
    ensures Balanced(Exec(Exec(Init, steps), more))
    decreases |more|
  {
    if |more| > 0 {
      StepBalanced(steps, more[0]);
      ExecSnoc(Init, steps, more[0]);
      RunBalanced(steps + [more[0]], more[1..]);
    }
  }

  // ----- main results ---------------------------------------------------------------------------

  /** However many retry loops there are: one attempt once the message was popped and, if its entry
      decodes, one for each retry that the entry counts, each refused update of it, each retry that an
      update from a stale snapshot has set its count back by, and each retry under way. */
  lemma AttemptsAccountedFor(steps: seq<Step>, id: Uuid)
    requires CanRun(Init, steps)
    ensures L.Attempts(Exec(Init, steps).runs, id) == Account(Exec(Init, steps), id)
  {
    RunBalanced([], steps);
  }

  /** How many attempts at message `id` failed before they got past position `pos`. */
  function Stopped(runs: seq<Run>, id: Uuid, pos: nat): nat {
    if |runs| == 0 then 0
    else
      var r := runs[|runs| - 1];
      Stopped(runs[..|runs| - 1], id, pos) + if r.id == id && r.done <= pos then 1 else 0
  }

  lemma {:induction false} ReachedOrStopped(runs: seq<Run>, id: Uuid, pos: nat)
    ensures L.Reached(runs, id, pos) + Stopped(runs, id, pos) == L.Attempts(runs, id)
  {
    if |runs| > 0 {
      ReachedOrStopped(runs[..|runs| - 1], id, pos);
    }
  }

  /** The exact number of publications of a message to one position of its recipient list, with any
      number of loops: its attempts, as accounted for, less those that stopped at or before it. */
  lemma PublicationsAccountedFor(steps: seq<Step>, id: Uuid, pos: nat)
    requires CanRun(Init, steps)
    ensures
      var s := Exec(Init, steps);
      L.Published(s.log, id, pos) == Account(s, id) - Stopped(s.runs, id, pos)
  {
    AttemptsAccountedFor(steps, id);
    ReachedOrStopped(Exec(Init, steps).runs, id, pos);
    CountsAgree(steps, id, pos);
  }

  lemma CountsAgree(steps: seq<Step>, id: Uuid, pos: nat)
    requires CanRun(Init, steps)
    ensures L.Published(Exec(Init, steps).log, id, pos) == L.Reached(Exec(Init, steps).runs, id, pos)
  {
    L.RunKeepsInv(Init, steps);
  }

  /** What a single loop may add to the first publication: the retry limit and the entry updates that
      were refused. */
  function Budget(s: State, id: Uuid): int {
    if id in s.entryOf && s.entryOf[id] in s.entries && s.entryOf[id] in s.refused
    then Limit(s.entries[s.entryOf[id]]) + s.refused[s.entryOf[id]]
    else 0
  }

  function Limit(e: Entry): nat { if e.maxRetries > 0 then e.maxRetries else 0 }

  /** What several loops may add: retries that stale updates have set the count back by, and retries
      under way. */
  function Excess(s: State, id: Uuid): int {
    if id in s.entryOf && s.entryOf[id] in s.entries && s.entries[s.entryOf[id]].readable
    then SkewOf(s.skew, s.entryOf[id]) + Underway(s.loops, s.entryOf[id]) else 0
  }

  lemma AccountBounded(s: State, id: Uuid)
    requires C.EntryInv(s.entries, s.entryOf) && C.EntryKeys(s.entries, s.progress, s.refused)
    requires E.ProgressInv(s.entries, s.progress)
    ensures Account(s, id) <= 1 + Budget(s, id) + Excess(s, id)
  {
    if id in s.entryOf {
      assert E.Sane(s.entries[s.entryOf[id]], s.progress[s.entryOf[id]]);
    }
  }

  /** With any number of loops, a message is published to each position of its recipient list at most
      1 + max_retries times, plus once for every refused update of its entry, every retry that stale
      updates have set its count back by, and every retry under way. */
  lemma PublicationsBounded(steps: seq<Step>, id: Uuid, pos: nat)
    requires CanRun(Init, steps)
    ensures L.Published(Exec(Init, steps).log, id, pos)
      <= 1 + Budget(Exec(Init, steps), id) + Excess(Exec(Init, steps), id)
  {
    PublicationsAccountedFor(steps, id, pos);
    TableFacts(steps);
    SoundLoops(steps);
    AccountBounded(Exec(Init, steps), id);
  }

  /** The retries counted, set back and under way exceed the limit by no more than the attempts that
      stopped at or before `pos`. */
  predicate WithinLimit(s: State, id: Uuid, pos: nat) {
    var e := s.entryOf;
    id in e && e[id] in s.entries && e[id] in s.progress ==>
      s.progress[e[id]].retryCount + Excess(s, id) <= Limit(s.entries[e[id]]) + Stopped(s.runs, id, pos)
  }

  /** Exactly when the bound of a single loop, 1 + max_retries + refused updates, holds, however many
      loops there are. */
  lemma BoundHoldsIff(steps: seq<Step>, id: Uuid, pos: nat)
    requires CanRun(Init, steps)
    ensures
      var s := Exec(Init, steps);
      L.Published(s.log, id, pos) <= 1 + Budget(s, id) <==> WithinLimit(s, id, pos)
  {
    PublicationsAccountedFor(steps, id, pos);
    TableFacts(steps);
    SoundLoops(steps);
    var s := Exec(Init, steps);
    if id in s.entryOf {
      PlaceFacts(steps, id);
      assert E.Sane(s.entries[s.entryOf[id]], s.progress[s.entryOf[id]]);
    }
  }

  lemma PlaceFacts(steps: seq<Step>, id: Uuid)
    requires CanRun(Init, steps) && id in Exec(Init, steps).entryOf
    ensures Pops(Exec(Init, steps).place, id) == 1
  {
    C.RunKeepsInv(Init, steps);
  }

  // ----- a single loop --------------------------------------------------------------------------

  /** A single loop's snapshots are current, so that no update sets a count back. */
  predicate Unskewed(skew: map<Uuid, int>) {
    forall e | e in skew :: skew[e] == 0
  }

  lemma MarkKeepsUnskewed(s: State, out: Outcome)
    requires CanMark(s, 0) && O.Fresh(s) && Unskewed(s.skew)
    ensures Unskewed(DoMark(s, 0, out).skew)
  {
    assert O.Current0(Current(s, 0), s.progress);
  }

  lemma EnqueueKeepsUnskewed(s: State, w: nat, eid: Uuid, maxRetries: int, createdAt: int, readable: bool, out: Outcome)
    requires CanEnqueue(s, w, eid, out) && Unskewed(s.skew)
    ensures Unskewed(DoEnqueue(s, w, eid, maxRetries, createdAt, readable, out).skew)
  {}

  lemma WorkKeepsUnskewed(s: State, w: nat, op: WorkOp)
    requires CanWork(s, w, op) && Unskewed(s.skew)
    ensures Unskewed(DoWork(s, w, op).skew)
  {
    match op
    case Enqueue(eid, maxRetries, createdAt, readable, out) =>
      EnqueueKeepsUnskewed(s, w, eid, maxRetries, createdAt, readable, out);
    case _ => E.WorkIsApart(s, w, op);
  }

  lemma TakeKeepsSkew(s: State)
    requires CanTake(s, 0)
    ensures DoTake(s, 0).skew == s.skew
  {}

  lemma RepublishKeepsSkew(s: State, out: Outcome)
    requires CanRepublish(s, 0)
    ensures DoRepublish(s, 0, out).skew == s.skew
  {}

  lemma RewriteSentKeepsSkew(s: State, out: Outcome)
    requires CanRewriteSent(s, 0)
    ensures DoRewriteSent(s, 0, out).skew == s.skew
  {}

  lemma GiveUpKeepsSkew(s: State, out: Outcome)
    requires CanGiveUp(s, 0)
    ensures DoGiveUp(s, 0, out).skew == s.skew
  {}

  lemma RetryKeepsUnskewed(s: State, op: RetryOp)
    requires CanRetry(s, 0, op) && O.Fresh(s) && Unskewed(s.skew)
    ensures Unskewed(DoRetry(s, 0, op).skew)
  {
    match op
    case List(_) =>
    case Take => TakeKeepsSkew(s);
    case FindNoRecipients =>
    case Republish(out) => RepublishKeepsSkew(s, out);
    case RewriteSent(out) => RewriteSentKeepsSkew(s, out);
    case GiveUp(out) => GiveUpKeepsSkew(s, out);
    case Mark(out) => MarkKeepsUnskewed(s, out);
  }

  lemma StepKeepsUnskewed(s: State, step: Step)
    requires Enabled(s, step) && O.Single(step) && O.Fresh(s) && Unskewed(s.skew)
    ensures Unskewed(Apply(s, step).skew)
  {
    match step
    case Send(op) => E.SendIsApart(s, op);
    case Work(w, op) => WorkKeepsUnskewed(s, w, op);
    case Retry(_, op) => RetryKeepsUnskewed(s, op);
    case Acknowledge(h, op) => E.AckIsApart(s, h, op);
  }

  lemma {:induction false} RunKeepsUnskewed(steps: seq<Step>, more: seq<Step>)
    requires CanRun(Init, steps) && O.AllSingle(steps) && CanRun(Exec(Init, steps), more) && O.AllSingle(more)
    requires Unskewed(Exec(Init, steps).skew)
    ensures Unskewed(Exec(Exec(Init, steps), more).skew)
    decreases |more|
  {
    if |more| > 0 {
      O.LoopFacts(steps);
      StepKeepsUnskewed(Exec(Init, steps), more[0]);
      ExecSnoc(Init, steps, more[0]);
      RunKeepsUnskewed(steps + [more[0]], more[1..]);
    }
  }

  lemma OneUnderway(loops: map<nat, Loop>, e: Uuid)
    requires loops.Keys <= {0}
    ensures Underway(loops, e) == if 0 in loops && Active(loops[0], e) then 1 else 0
  {
    if 0 in loops && Active(loops[0], e) {
      assert Attempting(loops, e) == {0};
    } else {
      assert Attempting(loops, e) == {};
    }
  }

  /** With a single loop nothing is set back, at most one retry is under way, and it is one that the
      limit still allows. */
  lemma SingleExcess(s: State, id: Uuid)
    requires O.Fresh(s) && Unskewed(s.skew) && E.LoopsInv(s.loops) && L.LoopsGenuine(s.loops, s.entries)
    requires C.EntryKeys(s.entries, s.progress, s.refused) && E.ProgressInv(s.entries, s.progress)
    requires C.EntryInv(s.entries, s.entryOf)
    ensures 0 <= Excess(s, id) <= 1 && forall pos: nat :: WithinLimit(s, id, pos)
  {
    if id in s.entryOf {
      var e := s.entryOf[id];
      OneUnderway(s.loops, e);
      assert E.Sane(s.entries[e], s.progress[e]);
      if 0 in s.loops && Active(s.loops[0], e) {
        var c := Current(s, 0);
        assert L.Genuine(s.loops[0], s.entries) && E.SoundLoop(s.loops[0]);
        assert E.Retriable(c) && O.Current0(c, s.progress);
      }
    }
  }

  lemma SingleFacts(steps: seq<Step>, id: Uuid)
    requires CanRun(Init, steps) && O.AllSingle(steps)
    ensures 0 <= Excess(Exec(Init, steps), id) <= 1 && forall pos: nat :: WithinLimit(Exec(Init, steps), id, pos)
  {
    RunKeepsUnskewed([], steps);
    O.LoopFacts(steps);
    SoundLoops(steps);
    TableFacts(steps);
    SingleExcess(Exec(Init, steps), id);
  }

  /** With one retry loop the condition always holds: a message is published to each position of its
      recipient list at most 1 + max_retries times, plus once for every refused update of its entry. */
  lemma SingleLoopBound(steps: seq<Step>, id: Uuid, pos: nat)
    requires CanRun(Init, steps) && O.AllSingle(steps)
    ensures L.Published(Exec(Init, steps).log, id, pos) <= 1 + Budget(Exec(Init, steps), id)
  {
    SingleFacts(steps, id);
    BoundHoldsIff(steps, id, pos);
  }
}
