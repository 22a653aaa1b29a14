/** Termination: once sends stop, a clean run has only finitely many worker and retry steps, and it
    can only come to rest when every message has been dealt with. */
module Termination {
  import opened Model
  import opened Pipeline
  import opened Sums
  import C = Conservation
  import L = Ledger
  import E = Entries
  import O = OneLoop
  import A = Agreement

  // ----- what is counted ------------------------------------------------------------------------

  /** The work of the engine: a clean worker or retry step, entries being created with the
      configured retry limit. */
  predicate Engine(step: Step, limit: int) {
    && A.Clean(step) && (step.Work? || step.Retry?)
    && (step.Work? && step.wop.Enqueue? ==> step.wop.maxRetries == limit)
  }

  /** With no sends going on, the engine shares the stores with acknowledgement handlers only. */
  predicate Allowed(step: Step, limit: int) {
    step.Acknowledge? || Engine(step, limit)
  }

  predicate AllAllowed(steps: seq<Step>, limit: int) {
    forall i | 0 <= i < |steps| :: Allowed(steps[i], limit)
  }

  /** The steps that begin a worker's handling of a message or end a retry of an entry. */
  predicate Counts(step: Step) {
    match step
    case Work(_, op) => op.Pop?
    case Retry(_, op) => op.Mark?
    case _ => false
  }

  /** What a step costs when all engine steps are counted, or only those that `Counts` picks. */
  function Cost(all: bool, step: Step): nat {
    if Counts(step) || (all && !step.Acknowledge?) then 1 else 0
  }

  function TotalCost(all: bool, steps: seq<Step>): nat {
    if |steps| == 0 then 0 else Cost(all, steps[0]) + TotalCost(all, steps[1..])
  }

  // ----- what is left to do ---------------------------------------------------------------------

  function Extra(all: bool, n: nat): nat { if all then n else 0 }

  /** One retry of a message with `n` recipients. */
  function Trip(all: bool, n: nat): nat { 1 + Extra(all, n + 4) }

  function Retries(limit: int): nat { if limit > 0 then limit else 0 }

  function WorkLeft(all: bool, pc: WorkPc, n: nat): nat {
    match pc
    case Publishing(k) => Extra(all, if k <= n then n - k + 3 else 0)
    case MarkingDead => Extra(all, 2)
    case Enqueueing => Extra(all, 1)
    case MarkingFailed => 0
  }

  function TurnSpent(all: bool, pc: RetryPc, n: nat): nat {
    match pc
    case Next => Extra(all, 1)
    case Republishing(_, k) => Extra(all, k + 2)
    case GivingUp => Extra(all, n + 3)
    case Marking(_, _) => Extra(all, n + 4)
  }

  /** What the loop has already done of the next retry of entry `e`. */
  function Spent(all: bool, loops: map<nat, Loop>, e: Uuid, n: nat): nat {
    if 0 !in loops || loops[0].index >= |loops[0].batch| then 0
    else if loops[0].batch[loops[0].index].eid == e then TurnSpent(all, loops[0].pc, n)
    else if exists i | loops[0].index < i < |loops[0].batch| :: loops[0].batch[i].eid == e then Extra(all, 1)
    else 0
  }

  function EntryLeft(all: bool, entries: map<Uuid, Entry>, progress: map<Uuid, Progress>,
      loops: map<nat, Loop>, e: Uuid, n: nat): nat
  {
    if e in entries && e in progress && Retryable(entries[e], progress[e]) then
      var left := (entries[e].maxRetries - progress[e].retryCount) * Trip(all, n) - Spent(all, loops, e, n);
      if left < 0 then 0 else left
    else 0
  }

  /** What the engine still has to do for message `id`, counting all steps or only those that
      `Counts` picks. */
  function Left(all: bool, limit: int, s: State, id: Uuid): nat {
    if id !in s.place || id !in s.rows then 0
    else
      var n := |s.rows[id].recipients|;
      match s.place[id]
      case Queued => 1 + Extra(all, n + 3) + Retries(limit) * Trip(all, n)
      case InFlight(w) => if w in s.work then WorkLeft(all, s.work[w].pc, n) + Retries(limit) * Trip(all, n) else 0
      case Dead => if id in s.entryOf then EntryLeft(all, s.entries, s.progress, s.loops, s.entryOf[id], n) else 0
      case _ => 0
  }

  ghost function TotalLeft(all: bool, limit: int, s: State): nat {
    Sum(s.place.Keys, id => Left(all, limit, s, id))
  }

  // ----- steps ----------------------------------------------------------------------------------

  /** A step at a cost to message `x`: no message has more left, and `x` has `cost` less. */
  ghost predicate Pays(all: bool, limit: int, s: State, t: State, x: Uuid, cost: nat) {
    && t.place.Keys == s.place.Keys && x in s.place
    && forall id: Uuid :: Left(all, limit, t, id) + (if id == x then cost else 0) <= Left(all, limit, s, id)
  }

  lemma PayTotal(all: bool, limit: int, s: State, t: State, x: Uuid, cost: nat)
    requires Pays(all, limit, s, t, x, cost)
    ensures TotalLeft(all, limit, t) + cost <= TotalLeft(all, limit, s)
  {
    SumFalls(s.place.Keys, id => Left(all, limit, t, id), id => Left(all, limit, s, id), x, cost);
  }

  lemma PopPays(all: bool, limit: int, s: State, w: nat)
    requires CanPop(s, w) && C.WorkInv(s.place, s.work)
    requires
      var p := s.queue[|s.queue| - 1];
      p.id in s.place && s.place[p.id] == Queued && p.id in s.rows
    ensures Pays(all, limit, s, DoPop(s, w), s.queue[|s.queue| - 1].id, 1)
  {}

  /** A worker moves on with the message it holds. */
  lemma MovePays(all: bool, limit: int, s: State, w: nat, pc: WorkPc, cost: nat, t: State)
    requires w in s.work && C.WorkInv(s.place, s.work) && C.WorkKnown(s.rows, s.work) && s.work[w].pc != MarkingFailed
    requires t.work == Move(s, w, pc)
    requires t.place == s.place && t.rows == s.rows && t.entryOf == s.entryOf
    requires t.entries == s.entries && t.progress == s.progress && t.loops == s.loops
    requires
      var n := |s.work[w].payload.recipients|;
      WorkLeft(all, pc, n) + cost <= WorkLeft(all, s.work[w].pc, n)
    ensures Pays(all, limit, s, t, s.work[w].payload.id, cost)
  {
    assert C.Known(s.rows, s.work[w].payload);
  }

  /** What is left to do for a message that a step does not concern. */
  lemma Untouched(all: bool, limit: int, s: State, t: State, w: nat, id: Uuid)
    requires w in s.work && C.WorkInv(s.place, s.work) && id != s.work[w].payload.id
    requires t.rows == s.rows && t.entryOf == s.entryOf
    requires t.entries == s.entries && t.progress == s.progress && t.loops == s.loops
    requires id in t.place <==> id in s.place
    requires id in s.place ==> t.place[id] == s.place[id]
    requires forall v | v in s.work && v != w :: v in t.work && t.work[v] == s.work[v]
    ensures Left(all, limit, t, id) <= Left(all, limit, s, id)
  {}

  lemma WriteSentPays(all: bool, limit: int, s: State, w: nat)
    requires CanWriteSent(s, w) && C.WorkInv(s.place, s.work) && C.WorkKnown(s.rows, s.work)
    ensures Pays(all, limit, s, DoWriteSent(s, w, Done), s.work[w].payload.id, Extra(all, 1))
  {
    var p := s.work[w].payload;
    var t := DoWriteSent(s, w, Done);
    assert C.Known(s.rows, p);
    forall id: Uuid
      ensures Left(all, limit, t, id) + (if id == p.id then Extra(all, 1) else 0) <= Left(all, limit, s, id)
    {
      if id != p.id {
        Untouched(all, limit, s, t, w, id);
      }
    }
  }

  lemma NewEntryLeft(all: bool, limit: int, s: State, eid: Uuid, e: Entry, n: nat)
    requires eid !in s.entries && L.LoopsGenuine(s.loops, s.entries) && e.maxRetries == limit
    ensures EntryLeft(all, s.entries[eid := e], s.progress[eid := Progress(Waiting, 0, false)], s.loops, eid, n)
      == Retries(limit) * Trip(all, n)
  {
    assert Spent(all, s.loops, eid, n) == 0 by {
      assert 0 in s.loops ==> L.Genuine(s.loops[0], s.entries);
    }
  }

  /** A new entry is a matter of its own message only. */
  lemma OthersUnmoved(all: bool, limit: int, s: State, eid: Uuid, e: Entry, g: Place, work: map<nat, Task>, id: Uuid)
    requires eid !in s.entries && C.EntryInv(s.entries, s.entryOf) && id != e.payload.id
    requires forall w | w in s.work && s.work[w].payload.id == id :: w in work && work[w] == s.work[w]
    requires C.WorkInv(s.place, s.work)
    ensures Left(all, limit, Created(s, eid, e).(work := work, place := s.place[e.payload.id := g]), id)
      <= Left(all, limit, s, id)
  {}

  /** Its own message goes from the worker to the retries of the entry. */
  lemma NewEntryPays(all: bool, limit: int, s: State, w: nat, eid: Uuid, e: Entry)
    requires At(s, w, Enqueueing) && e.payload == s.work[w].payload && e.maxRetries == limit
    requires eid !in s.entries && C.WorkInv(s.place, s.work)
    requires C.WorkKnown(s.rows, s.work) && L.LoopsGenuine(s.loops, s.entries)
    ensures
      var id := e.payload.id;
      Left(all, limit, Created(s, eid, e).(work := s.work - {w}, place := s.place[id := Dead]), id) + Extra(all, 1)
        <= Left(all, limit, s, id)
  {
    assert C.Known(s.rows, e.payload);
    NewEntryLeft(all, limit, s, eid, e, |e.payload.recipients|);
  }

  lemma EnqueuePays(all: bool, limit: int, s: State, w: nat, eid: Uuid, createdAt: int, readable: bool)
    requires CanEnqueue(s, w, eid, Done) && C.WorkInv(s.place, s.work) && C.WorkKnown(s.rows, s.work)
    requires C.EntryInv(s.entries, s.entryOf) && L.LoopsGenuine(s.loops, s.entries)
    ensures
      Pays(all, limit, s, DoEnqueue(s, w, eid, limit, createdAt, readable, Done), s.work[w].payload.id, Extra(all, 1))
  {
    var p := s.work[w].payload;
    var e := Entry(p, readable, limit, createdAt);
    var t := DoEnqueue(s, w, eid, limit, createdAt, readable, Done);
    forall id: Uuid
      ensures Left(all, limit, t, id) + (if id == p.id then Extra(all, 1) else 0) <= Left(all, limit, s, id)
    {
      if id == p.id {
        NewEntryPays(all, limit, s, w, eid, e);
      } else {
        OthersUnmoved(all, limit, s, eid, e, Dead, s.work - {w}, id);
      }
    }
  }

  /** The loop's current entry, and what is known of it. */
  predicate CurrentKnown(s: State) {
    Busy(s, 0) &&
    var c := Current(s, 0);
    && c.eid in s.entries && s.entries[c.eid] == c.entry && O.Current0(c, s.progress) && E.Retriable(c)
    && C.Known(s.rows, c.entry.payload) && c.entry.payload.id in s.entryOf && s.entryOf[c.entry.payload.id] == c.eid
  }

  /** The message of the current entry has nothing but retries left. */
  predicate CurrentDead(s: State) {
    CurrentKnown(s) &&
    var id := Current(s, 0).entry.payload.id;
    && id in s.place && s.place[id] == Dead && C.EntryInv(s.entries, s.entryOf)
  }

  lemma TripsLeft(k: int, trip: nat)
    requires k >= 1
    ensures k * trip >= trip && k * trip - trip == (k - 1) * trip
  {
    assert (k - 1) * trip + trip == k * trip;
    assert (k - 1) * trip >= 0;
  }

  /** What has to hold of entry `e` when a step of the loop costs `cost` to the entry `x`. */
  predicate EntryPays(all: bool, s: State, t: State, x: Uuid, cost: nat, e: Uuid, n: nat) {
    EntryLeft(all, t.entries, t.progress, t.loops, e, n) + (if e == x then cost else 0)
      <= EntryLeft(all, s.entries, s.progress, s.loops, e, n)
  }

  /** What a step of the loop costs is a matter of entries. `c` is the entry it works on. */
  lemma LoopPays(all: bool, limit: int, s: State, c: Snapshot, cost: nat, t: State)
    requires t.place == s.place && t.rows == s.rows && t.entryOf == s.entryOf && t.work == s.work
    requires C.EntryInv(s.entries, s.entryOf)
    requires
      var p := c.entry.payload;
      && C.Known(s.rows, p) && p.id in s.entryOf && s.entryOf[p.id] == c.eid && p.id in s.place && s.place[p.id] == Dead
      && EntryPays(all, s, t, c.eid, cost, c.eid, |p.recipients|)
    requires forall e, n: nat | e != c.eid :: EntryPays(all, s, t, c.eid, cost, e, n)
    ensures Pays(all, limit, s, t, c.entry.payload.id, cost)
  {
    forall id: Uuid
      ensures Left(all, limit, t, id) + (if id == c.entry.payload.id then cost else 0) <= Left(all, limit, s, id)
    {
      if id in s.entryOf && id != c.entry.payload.id {
        assert s.entryOf[id] != c.eid;
        assert forall n: nat :: EntryPays(all, s, t, c.eid, cost, s.entryOf[id], n);
        OtherPays(all, limit, s, c.eid, cost, t, id);
      }
    }
  }

  lemma OtherPays(all: bool, limit: int, s: State, x: Uuid, cost: nat, t: State, id: Uuid)
    requires t.place == s.place && t.rows == s.rows && t.entryOf == s.entryOf && t.work == s.work
    requires id in s.entryOf && s.entryOf[id] != x
    requires forall n: nat :: EntryPays(all, s, t, x, cost, s.entryOf[id], n)
    ensures Left(all, limit, t, id) <= Left(all, limit, s, id)
  {
    if id in s.rows {
      assert EntryPays(all, s, t, x, cost, s.entryOf[id], |s.rows[id].recipients|);
    }
  }

  /** The loop goes on with its current entry. */
  lemma TurnPays(all: bool, limit: int, s: State, pc: RetryPc, cost: nat, t: State)
    requires CurrentDead(s) && t.loops == Turn(s, 0, pc)
    requires t.place == s.place && t.rows == s.rows && t.entryOf == s.entryOf
    requires t.entries == s.entries && t.progress == s.progress && t.work == s.work
    requires
      var n := |Current(s, 0).entry.payload.recipients|;
      TurnSpent(all, s.loops[0].pc, n) + cost <= TurnSpent(all, pc, n) < Trip(all, n)
    ensures Pays(all, limit, s, t, Current(s, 0).entry.payload.id, cost)
  {
    var c := Current(s, 0);
    TripsLeft(c.entry.maxRetries - c.retryCount, Trip(all, |c.entry.payload.recipients|));
    LoopPays(all, limit, s, c, cost, t);
  }

  /** Listing takes the first step of a retry of each listed entry. */
  lemma ListPays(all: bool, limit: int, s: State, batch: seq<Snapshot>, t: State)
    requires CanList(s, 0, batch) && t.loops == s.loops[0 := Loop(batch, 0, Next)] && CurrentDead(t)
    requires t.place == s.place && t.rows == s.rows && t.entryOf == s.entryOf
    requires t.entries == s.entries && t.progress == s.progress && t.work == s.work
    ensures Pays(all, limit, s, t, batch[0].entry.payload.id, Extra(all, 1))
  {
    var c := batch[0];
    TripsLeft(c.entry.maxRetries - c.retryCount, Trip(all, |c.entry.payload.recipients|));
    LoopPays(all, limit, s, c, Extra(all, 1), t);
  }

  /** Going on to the next entry takes nothing back from the others. */
  lemma SpentOnward(all: bool, s: State, e: Uuid, n: nat)
    requires Busy(s, 0) && e != Current(s, 0).eid
    ensures Spent(all, Onward(s, 0), e, n) == Spent(all, s.loops, e, n)
  {}

  lemma MarkedEntryPays(all: bool, s: State)
    requires CanMark(s, 0) && CurrentKnown(s) && E.LoopsInv(s.loops) && Current(s, 0).entry.readable
    ensures
      var c := Current(s, 0);
      EntryPays(all, s, DoMark(s, 0, Done), c.eid, 1, c.eid, |c.entry.payload.recipients|)
  {
    var c := Current(s, 0);
    assert E.SoundLoop(s.loops[0]) && E.SoundTurn(c, s.loops[0].pc);
    TripsLeft(c.entry.maxRetries - c.retryCount, Trip(all, |c.entry.payload.recipients|));
  }

  lemma MarkPays(all: bool, limit: int, s: State)
    requires CanMark(s, 0) && CurrentDead(s) && E.LoopsInv(s.loops) && Current(s, 0).entry.readable
    ensures Pays(all, limit, s, DoMark(s, 0, Done), Current(s, 0).entry.payload.id, 1)
  {
    var c := Current(s, 0);
    var t := DoMark(s, 0, Done);
    MarkedEntryPays(all, s);
    forall e, n: nat | e != c.eid
      ensures EntryPays(all, s, t, c.eid, 1, e, n)
    {
      SpentOnward(all, s, e, n);
    }
    LoopPays(all, limit, s, c, 1, t);
  }

  // ----- runs -----------------------------------------------------------------------------------

  /** In a clean run, the loop's current entry is as the loop knows it, and its message is only
      waiting for retries. */
  lemma CurrentIsKnown(s: State)
    requires Busy(s, 0) && O.Fresh(s) && E.LoopsInv(s.loops) && L.LoopsGenuine(s.loops, s.entries)
    requires C.EntriesKnown(s.rows, s.entries) && C.EntryInv(s.entries, s.entryOf)
    ensures CurrentKnown(s)
  {
    assert L.Genuine(s.loops[0], s.entries) && E.SoundLoop(s.loops[0]);
  }

  lemma CurrentIsDead(s: State)
    requires CurrentKnown(s) && C.EntryInv(s.entries, s.entryOf) && C.DeadInv(s.place, s.entryOf) && A.Inv(s)
    ensures CurrentDead(s)
  {
    assert A.Agrees(s, Current(s, 0).entry.payload.id);
  }

  lemma CleanFacts(steps: seq<Step>)
    requires CanRun(Init, steps) && A.AllClean(steps)
    ensures O.Good(Exec(Init, steps)) && A.Inv(Exec(Init, steps))
  {
    O.RunKeepsGood(Init, steps);
    A.RunKeepsInv([], steps);
  }

  lemma CurrentFacts(steps: seq<Step>)
    requires CanRun(Init, steps) && A.AllClean(steps) && Busy(Exec(Init, steps), 0)
    ensures
      var s := Exec(Init, steps);
      CurrentDead(s) && E.LoopsInv(s.loops) && Current(s, 0).entry.readable
  {
    CleanFacts(steps);
    var s := Exec(Init, steps);
    CurrentIsKnown(s);
    CurrentIsDead(s);
  }

  lemma WorkFacts(steps: seq<Step>)
    requires CanRun(Init, steps) && A.AllClean(steps)
    ensures
      var s := Exec(Init, steps);
      && C.WorkInv(s.place, s.work) && C.WorkKnown(s.rows, s.work) && C.EntryInv(s.entries, s.entryOf)
      && L.LoopsGenuine(s.loops, s.entries)
      && forall w | w in s.work :: s.work[w].pc != MarkingFailed
  {
    CleanFacts(steps);
    A.NeverMarksFailed(Exec(Init, steps));
  }

  lemma PopFacts(steps: seq<Step>)
    requires CanRun(Init, steps) && |Exec(Init, steps).queue| > 0
    ensures
      var s := Exec(Init, steps);
      var id := s.queue[|s.queue| - 1].id;
      id in s.place && s.place[id] == Queued && id in s.rows
  {
    A.QueueFacts(steps);
    C.RunKeepsInv(Init, steps);
  }

  lemma NoRoutesPays(all: bool, limit: int, s: State, w: nat)
    requires C.WorkInv(s.place, s.work) && C.WorkKnown(s.rows, s.work) && NoRoutes(s, w)
    ensures Pays(all, limit, s, DoWork(s, w, FindNoRoutes), s.work[w].payload.id, Extra(all, 1))
  {
    MovePays(all, limit, s, w, MarkingDead, Extra(all, 1), DoWork(s, w, FindNoRoutes));
  }

  lemma PublishPays(all: bool, limit: int, s: State, w: nat, out: Outcome)
    requires C.WorkInv(s.place, s.work) && C.WorkKnown(s.rows, s.work) && CanPublish(s, w)
    ensures Pays(all, limit, s, DoPublish(s, w, out), s.work[w].payload.id, Extra(all, 1))
  {
    var t := DoPublish(s, w, out);
    MovePays(all, limit, s, w, t.work[w].pc, Extra(all, 1), t);
  }

  lemma WriteDeadPays(all: bool, limit: int, s: State, w: nat, out: Outcome)
    requires C.WorkInv(s.place, s.work) && C.WorkKnown(s.rows, s.work) && At(s, w, MarkingDead)
    ensures Pays(all, limit, s, DoWriteDead(s, w, out), s.work[w].payload.id, Extra(all, 1))
  {
    MovePays(all, limit, s, w, Enqueueing, Extra(all, 1), DoWriteDead(s, w, out));
  }

  lemma WorkPays(steps: seq<Step>, all: bool, limit: int, w: nat, op: WorkOp)
    requires CanRun(Init, steps) && A.AllClean(steps) && CanWork(Exec(Init, steps), w, op) && Engine(Work(w, op), limit)
    ensures TotalLeft(all, limit, DoWork(Exec(Init, steps), w, op)) + Cost(all, Work(w, op))
      <= TotalLeft(all, limit, Exec(Init, steps))
  {
    var s := Exec(Init, steps);
    WorkFacts(steps);
    var t := DoWork(s, w, op);
    match op
    case Pop =>
      PopFacts(steps);
      PopPays(all, limit, s, w);
      PayTotal(all, limit, s, t, s.queue[|s.queue| - 1].id, 1);
    case FindNoRoutes =>
      NoRoutesPays(all, limit, s, w);
      PayTotal(all, limit, s, t, s.work[w].payload.id, Extra(all, 1));
    case Publish(out) =>
      PublishPays(all, limit, s, w, out);
      PayTotal(all, limit, s, t, s.work[w].payload.id, Extra(all, 1));
    case WriteSent(out) =>
      WriteSentPays(all, limit, s, w);
      PayTotal(all, limit, s, t, s.work[w].payload.id, Extra(all, 1));
    case WriteDead(out) =>
      WriteDeadPays(all, limit, s, w, out);
      PayTotal(all, limit, s, t, s.work[w].payload.id, Extra(all, 1));
    case Enqueue(eid, maxRetries, createdAt, readable, out) =>
      EnqueuePays(all, limit, s, w, eid, createdAt, readable);
      PayTotal(all, limit, s, t, s.work[w].payload.id, Extra(all, 1));
    case WriteFailed(out) =>
  }

  lemma TakePays(s: State, all: bool, limit: int)
    requires CurrentDead(s) && CanTake(s, 0) && Current(s, 0).entry.readable
    ensures Pays(all, limit, s, DoTake(s, 0), Current(s, 0).entry.payload.id, Extra(all, 1))
  {
    TurnPays(all, limit, s, Taken(s, 0), Extra(all, 1), DoTake(s, 0));
  }

  lemma PublishingPays(s: State, all: bool, limit: int, op: RetryOp)
    requires CurrentDead(s) && CanRetry(s, 0, op) && (op.FindNoRecipients? || op.Republish?)
    ensures Pays(all, limit, s, DoRetry(s, 0, op), Current(s, 0).entry.payload.id, Extra(all, 1))
  {
    var c := Current(s, 0);
    if op.Republish? {
      TurnPays(all, limit, s, AfterPublish(s, 0, op.out), Extra(all, 1), DoRepublish(s, 0, op.out));
    } else {
      TurnPays(all, limit, s, AfterFailure(c), Extra(all, 1), DoRetry(s, 0, op));
    }
  }

  lemma WritingPays(s: State, all: bool, limit: int, op: RetryOp)
    requires CurrentDead(s) && CanRetry(s, 0, op) && (op.RewriteSent? || op.GiveUp?)
    ensures Pays(all, limit, s, DoRetry(s, 0, op), Current(s, 0).entry.payload.id, Extra(all, 1))
  {
    var c := Current(s, 0);
    if op.RewriteSent? {
      TurnPays(all, limit, s, Marking(Republished, c.retryCount + 1), Extra(all, 1), DoRewriteSent(s, 0, op.out));
    } else {
      TurnPays(all, limit, s, Marking(Exhausted, c.retryCount + 1), Extra(all, 1), DoGiveUp(s, 0, op.out));
    }
  }

  lemma OpPays(s: State, all: bool, limit: int, op: RetryOp)
    requires CurrentDead(s) && E.LoopsInv(s.loops) && Current(s, 0).entry.readable
    requires CanRetry(s, 0, op) && A.Clean(Retry(0, op)) && !op.List?
    ensures Pays(all, limit, s, DoRetry(s, 0, op), Current(s, 0).entry.payload.id, Cost(all, Retry(0, op)))
  {
    if op.Mark? {
      MarkPays(all, limit, s);
    } else if op.Take? {
      TakePays(s, all, limit);
    } else if op.RewriteSent? || op.GiveUp? {
      WritingPays(s, all, limit, op);
    } else {
      PublishingPays(s, all, limit, op);
    }
  }

  lemma RetryPays(steps: seq<Step>, all: bool, limit: int, op: RetryOp)
    requires CanRun(Init, steps) && A.AllClean(steps) && CanRetry(Exec(Init, steps), 0, op) && A.Clean(Retry(0, op))
    ensures TotalLeft(all, limit, DoRetry(Exec(Init, steps), 0, op)) + Cost(all, Retry(0, op))
      <= TotalLeft(all, limit, Exec(Init, steps))
  {
    var s := Exec(Init, steps);
    if op.List? {
      ListPaysAfter(steps, all, limit, op.batch);
    } else {
      CurrentFacts(steps);
      OpPays(s, all, limit, op);
      PayTotal(all, limit, s, DoRetry(s, 0, op), Current(s, 0).entry.payload.id, Cost(all, Retry(0, op)));
    }
  }

  lemma ListPaysAfter(steps: seq<Step>, all: bool, limit: int, batch: seq<Snapshot>)
    requires CanRun(Init, steps) && A.AllClean(steps) && CanList(Exec(Init, steps), 0, batch)
    ensures
      var s := Exec(Init, steps);
      TotalLeft(all, limit, s.(loops := s.loops[0 := Loop(batch, 0, Next)])) + Cost(all, Retry(0, List(batch)))
        <= TotalLeft(all, limit, s)
  {
    var s := Exec(Init, steps);
    var t := s.(loops := s.loops[0 := Loop(batch, 0, Next)]);
    ExecSnoc(Init, steps, Retry(0, List(batch)));
    CurrentFacts(steps + [Retry(0, List(batch))]);
    ListPays(all, limit, s, batch, t);
    PayTotal(all, limit, s, t, batch[0].entry.payload.id, Extra(all, 1));
  }

  /** Acknowledgements leave everything that the engine still has to do. */
  lemma AckKeepsLeft(all: bool, limit: int, s: State, h: nat, op: AckOp)
    requires CanAck(s, h, op)
    ensures TotalLeft(all, limit, DoAck(s, h, op)) <= TotalLeft(all, limit, s)
  {
    var t := DoAck(s, h, op);
    C.AckStays(s, h, op);
    E.AckIsApart(s, h, op);
    forall id: Uuid
      ensures Left(all, limit, t, id) <= Left(all, limit, s, id)
    {}
    SumMonotone(s.place.Keys, id => Left(all, limit, t, id), id => Left(all, limit, s, id));
  }

  lemma StepPays(steps: seq<Step>, all: bool, limit: int, step: Step)
    requires CanRun(Init, steps) && A.AllClean(steps) && Enabled(Exec(Init, steps), step) && Allowed(step, limit)
    ensures TotalLeft(all, limit, Apply(Exec(Init, steps), step)) + Cost(all, step)
      <= TotalLeft(all, limit, Exec(Init, steps))
  {
    match step
    case Work(w, op) => WorkPays(steps, all, limit, w, op);
    case Retry(_, op) => RetryPays(steps, all, limit, op);
    case Acknowledge(h, op) => AckKeepsLeft(all, limit, Exec(Init, steps), h, op);
  }

  lemma {:induction false} RunPays(steps: seq<Step>, more: seq<Step>, all: bool, limit: int)
    requires CanRun(Init, steps) && A.AllClean(steps) && CanRun(Exec(Init, steps), more) && AllAllowed(more, limit)
    ensures TotalCost(all, more) + TotalLeft(all, limit, Exec(Exec(Init, steps), more))
      <= TotalLeft(all, limit, Exec(Init, steps))
    decreases |more|
  {
    if |more| > 0 {
      assert A.Clean(more[0]) by { assert Allowed(more[0], limit); }
      StepPays(steps, all, limit, more[0]);
      ExecSnoc(Init, steps, more[0]);
      RunPays(steps + [more[0]], more[1..], all, limit);
    }
  }

  // ----- coming to rest -------------------------------------------------------------------------

  /** Nothing is left for the engine: the queue is empty, the workers and the loop are idle, and no
      entry can be retried. */
  ghost predicate AtRest(s: State) {
    |s.queue| == 0 && s.work == map[] && 0 !in s.loops && forall e :: !Listable(s, e)
  }

  lemma {:induction false} Oldest(s: State, some: set<Uuid>) returns (e: Uuid)
    requires some != {} && forall x | x in some :: x in s.entries
    ensures e in some && forall x | x in some :: s.entries[e].createdAt <= s.entries[x].createdAt
    decreases |some|
  {
    var first :| first in some;
    e := first;
    if some != {first} {
      assert some - {first} != {};
      var other := Oldest(s, some - {first});
      if s.entries[other].createdAt < s.entries[first].createdAt {
        e := other;
      }
    }
  }

  /** The `k` oldest entries of `some`, as a listing returns them. */
  ghost predicate Picked(s: State, some: set<Uuid>, k: nat, batch: seq<Snapshot>) {
    && |batch| <= k
    && (forall i | 0 <= i < |batch| :: Reads(s, batch[i]) && batch[i].eid in some)
    && (forall i, j | 0 <= i < j < |batch| ::
          batch[i].eid != batch[j].eid && batch[i].entry.createdAt <= batch[j].entry.createdAt)
    && (forall e | e in some && e in s.entries && !Lists(batch, e) ::
          |batch| == k && forall i | 0 <= i < |batch| :: batch[i].entry.createdAt <= s.entries[e].createdAt)
  }

  lemma {:induction false} Pick(s: State, some: set<Uuid>, k: nat) returns (batch: seq<Snapshot>)
    requires forall e | e in some :: Listable(s, e)
    ensures Picked(s, some, k, batch) && (k > 0 && some != {} ==> |batch| > 0)
    decreases k
  {
    batch := [];
    if k > 0 && some != {} {
      var e := Oldest(s, some);
      var rest := Pick(s, some - {e}, k - 1);
      var first := Snapshot(e, s.entries[e], s.progress[e].retryCount);
      batch := [first] + rest;
      OldestFirst(s, some, k, first, rest);
    }
  }

  lemma OldestFirst(s: State, some: set<Uuid>, k: nat, first: Snapshot, rest: seq<Snapshot>)
    requires k > 0 && first.eid in some && Reads(s, first) && Picked(s, some - {first.eid}, k - 1, rest)
    requires forall x | x in some :: x in s.entries && s.entries[first.eid].createdAt <= s.entries[x].createdAt
    ensures Picked(s, some, k, [first] + rest)
  {
    var batch := [first] + rest;
    assert batch[0] == first && forall i | 0 < i < |batch| :: batch[i] == rest[i - 1];
    forall x | x in some && !Lists(batch, x)
      ensures !Lists(rest, x) && x != first.eid
    {
      assert batch[0].eid == first.eid;
      forall i | 0 <= i < |rest|
        ensures rest[i].eid != x
      {
        assert batch[i + 1] == rest[i];
      }
    }
  }

  /** A listing is possible as soon as one entry can be retried. */
  lemma CanAlwaysList(s: State, l: nat, e: Uuid) returns (batch: seq<Snapshot>)
    requires Listable(s, e) && l !in s.loops
    ensures CanList(s, l, batch)
  {
    var some := set x | x in s.entries && Listable(s, x);
    assert e in some;
    batch := Pick(s, some, LIST_LIMIT);
  }
}
