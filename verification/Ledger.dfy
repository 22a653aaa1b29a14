/** The publish ledger: what the log of publications says about publishing attempts. */
module Ledger {
  import opened Model
  import opened Pipeline
  import C = Conservation

  // ----- counting -------------------------------------------------------------------------------

  /** How often message `id` has been published to the recipient at position `pos`. */
  function Published(log: seq<Publication>, id: Uuid, pos: nat): nat {
    if |log| == 0 then 0
    else
      var x := log[|log| - 1];
      Published(log[..|log| - 1], id, pos) + if x.id == id && x.pos == pos then 1 else 0
  }

  /** How many attempts at message `id` have got past position `pos`. */
  function Reached(runs: seq<Run>, id: Uuid, pos: nat): nat {
    if |runs| == 0 then 0
    else
      var r := runs[|runs| - 1];
      Reached(runs[..|runs| - 1], id, pos) + if r.id == id && r.done > pos then 1 else 0
  }

  /** How many attempts have been made at message `id`. */
  function Attempts(runs: seq<Run>, id: Uuid): nat {
    if |runs| == 0 then 0
    else Attempts(runs[..|runs| - 1], id) + if runs[|runs| - 1].id == id then 1 else 0
  }

  lemma PublishedAppend(log: seq<Publication>, x: Publication, id: Uuid, pos: nat)
    ensures Published(log + [x], id, pos) == Published(log, id, pos) + if x.id == id && x.pos == pos then 1 else 0
  {
    assert (log + [x])[..|log|] == log;
  }

  lemma {:induction false} PublishedWitness(log: seq<Publication>, id: Uuid, pos: nat) returns (k: nat)
    requires Published(log, id, pos) > 0
    ensures k < |log| && log[k].id == id && log[k].pos == pos
  {
    k := |log| - 1;
    if !(log[k].id == id && log[k].pos == pos) {
      k := PublishedWitness(log[..k], id, pos);
    }
  }

  lemma RunsAppend(runs: seq<Run>, r: Run, id: Uuid, pos: nat)
    ensures Reached(runs + [r], id, pos) == Reached(runs, id, pos) + if r.id == id && r.done > pos then 1 else 0
    ensures Attempts(runs + [r], id) == Attempts(runs, id) + if r.id == id then 1 else 0
  {
    assert (runs + [r])[..|runs|] == runs;
  }

  /** An attempt that gets one position further. */
  lemma {:induction false} RunsAdvance(runs: seq<Run>, k: nat, id: Uuid, pos: nat)
    requires k < |runs|
    ensures
      var runs' := runs[k := runs[k].(done := runs[k].done + 1)];
      && Reached(runs', id, pos) == Reached(runs, id, pos) + (if runs[k].id == id && runs[k].done == pos then 1 else 0)
      && Attempts(runs', id) == Attempts(runs, id)
  {
    var n := |runs| - 1;
    var runs' := runs[k := runs[k].(done := runs[k].done + 1)];
    if k == n {
      assert runs'[..n] == runs[..n];
    } else {
      assert runs'[..n] == runs[..n][k := runs[k].(done := runs[k].done + 1)];
      RunsAdvance(runs[..n], k, id, pos);
    }
  }

  lemma {:induction false} ReachedDecreases(runs: seq<Run>, id: Uuid, pos: nat)
    ensures Reached(runs, id, pos + 1) <= Reached(runs, id, pos) <= Attempts(runs, id)
  {
    if |runs| > 0 {
      ReachedDecreases(runs[..|runs| - 1], id, pos);
    }
  }

  lemma {:induction false} ReachedBy(runs: seq<Run>, k: nat, pos: nat)
    requires k < |runs| && pos < runs[k].done
    ensures Reached(runs, runs[k].id, pos) > 0
  {
    if k < |runs| - 1 {
      ReachedBy(runs[..|runs| - 1], k, pos);
    }
  }

  // ----- the invariant --------------------------------------------------------------------------

  ghost predicate CountInv(log: seq<Publication>, runs: seq<Run>) {
    forall id: Uuid, pos: nat :: Published(log, id, pos) == Reached(runs, id, pos)
  }

  predicate TaskRun(x: Task, w: nat, runs: seq<Run>) {
    x.pc.Publishing? ==>
      x.run < |runs| && runs[x.run] == Run(x.payload.id, Worker(w), x.pc.next) && x.pc.next <= |x.payload.recipients|
  }

  predicate WorkRuns(work: map<nat, Task>, runs: seq<Run>) {
    forall w | w in work :: TaskRun(work[w], w, runs)
  }

  predicate LoopRun(x: Loop, l: nat, runs: seq<Run>) {
    && x.index < |x.batch|
    && (x.pc.Republishing? ==>
          var p := x.batch[x.index].entry.payload;
          x.pc.run < |runs| && runs[x.pc.run] == Run(p.id, Retrier(l), x.pc.next) && x.pc.next <= |p.recipients|)
  }

  predicate LoopRuns(loops: map<nat, Loop>, runs: seq<Run>) {
    forall l | l in loops :: LoopRun(loops[l], l, runs)
  }

  /** A loop's snapshots agree with the table in the columns that never change. */
  predicate Genuine(x: Loop, entries: map<Uuid, Entry>) {
    forall i | 0 <= i < |x.batch| :: x.batch[i].eid in entries && entries[x.batch[i].eid] == x.batch[i].entry
  }

  predicate LoopsGenuine(loops: map<nat, Loop>, entries: map<Uuid, Entry>) {
    forall l | l in loops :: Genuine(loops[l], entries)
  }

  predicate LoggedRight(x: Publication, rows: map<Uuid, Row>) {
    x.id in rows && x.pos < |rows[x.id].recipients| && x.agent == rows[x.id].recipients[x.pos]
  }

  predicate LogInv(log: seq<Publication>, rows: map<Uuid, Row>) {
    forall k | 0 <= k < |log| :: LoggedRight(log[k], rows)
  }

  ghost predicate Inv(s: State) {
    && CountInv(s.log, s.runs)
    && WorkRuns(s.work, s.runs)
    && LoopRuns(s.loops, s.runs)
    && LoopsGenuine(s.loops, s.entries)
    && LogInv(s.log, s.rows)
  }

  // ----- how one change affects each part -------------------------------------------------------

  lemma RunStarts(s: State, r: Run)
    requires CountInv(s.log, s.runs) && WorkRuns(s.work, s.runs) && LoopRuns(s.loops, s.runs) && r.done == 0
    ensures
      var runs' := s.runs + [r];
      CountInv(s.log, runs') && WorkRuns(s.work, runs') && LoopRuns(s.loops, runs')
  {
    forall id: Uuid, pos: nat
      ensures Published(s.log, id, pos) == Reached(s.runs + [r], id, pos)
    {
      RunsAppend(s.runs, r, id, pos);
    }
  }

  lemma CountAdvance(log: seq<Publication>, runs: seq<Run>, k: nat, p: Payload, out: Outcome)
    requires CountInv(log, runs) && k < |runs| && runs[k].id == p.id && runs[k].done < |p.recipients|
    ensures CountInv(Logged(log, p, runs[k].done, out), Advanced(runs, k, runs[k].done, out))
  {
    if out.Applied() {
      var x := Publication(p.id, runs[k].done, p.recipients[runs[k].done]);
      forall id: Uuid, pos: nat
        ensures Published(log + [x], id, pos) == Reached(Advanced(runs, k, runs[k].done, out), id, pos)
      {
        PublishedAppend(log, x, id, pos);
        RunsAdvance(runs, k, id, pos);
      }
    }
  }

  lemma LogGrows(log: seq<Publication>, rows: map<Uuid, Row>, p: Payload, pos: nat, out: Outcome)
    requires LogInv(log, rows) && C.Known(rows, p) && pos < |p.recipients|
    ensures LogInv(Logged(log, p, pos, out), rows)
  {}

  /** Advancing one thread's run leaves the runs of the others alone. */
  lemma OthersUnmoved(s: State, k: nat, next: nat, out: Outcome)
    requires WorkRuns(s.work, s.runs) && LoopRuns(s.loops, s.runs) && k < |s.runs|
    ensures
      var runs' := Advanced(s.runs, k, next, out);
      && (forall w | w in s.work && s.runs[k].owner != Worker(w) :: TaskRun(s.work[w], w, runs'))
      && (forall l | l in s.loops && s.runs[k].owner != Retrier(l) :: LoopRun(s.loops[l], l, runs'))
  {}

  lemma WorkTurns(work: map<nat, Task>, runs: seq<Run>, w: nat, x: Task)
    requires (forall v | v in work && v != w :: TaskRun(work[v], v, runs)) && TaskRun(x, w, runs)
    ensures WorkRuns(work[w := x], runs) && WorkRuns(work - {w}, runs)
  {}

  lemma LoopTurns(loops: map<nat, Loop>, entries: map<Uuid, Entry>, runs: seq<Run>, l: nat, x: Loop)
    requires (forall m | m in loops && m != l :: LoopRun(loops[m], m, runs)) && LoopRun(x, l, runs)
    requires LoopsGenuine(loops, entries) && Genuine(x, entries)
    ensures LoopRuns(loops[l := x], runs) && LoopsGenuine(loops[l := x], entries)
  {}

  lemma SameBatch(loops: map<nat, Loop>, entries: map<Uuid, Entry>, runs: seq<Run>, l: nat, x: Loop)
    requires LoopRuns(loops, runs) && LoopsGenuine(loops, entries) && l in loops
    requires x.batch == loops[l].batch && x.index < |x.batch| && !x.pc.Republishing?
    ensures LoopRun(x, l, runs) && Genuine(x, entries)
  {
    assert Genuine(loops[l], entries);
  }

  lemma LoopStops(loops: map<nat, Loop>, entries: map<Uuid, Entry>, runs: seq<Run>, l: nat)
    requires LoopRuns(loops, runs) && LoopsGenuine(loops, entries)
    ensures LoopRuns(loops - {l}, runs) && LoopsGenuine(loops - {l}, entries)
  {}

  lemma LoopsSeeNewEntry(loops: map<nat, Loop>, entries: map<Uuid, Entry>, eid: Uuid, e: Entry)
    requires LoopsGenuine(loops, entries) && eid !in entries
    ensures LoopsGenuine(loops, entries[eid := e])
  {}

  // ----- steps ----------------------------------------------------------------------------------

  lemma RowAdded(s: State, id: Uuid, r: Row, t: State)
    requires Inv(s) && id !in s.rows && t.rows == s.rows[id := r]
    requires t.log == s.log && t.runs == s.runs && t.work == s.work && t.loops == s.loops && t.entries == s.entries
    ensures Inv(t)
  {}

  /** Worker `w` moves to `x` or goes idle. */
  lemma TaskChanged(s: State, w: nat, x: Task, t: State)
    requires Inv(s) && TaskRun(x, w, s.runs) && (t.work == s.work[w := x] || t.work == s.work - {w})
    requires t.log == s.log && t.runs == s.runs && t.loops == s.loops && t.entries == s.entries && t.rows == s.rows
    ensures Inv(t)
  {
    WorkTurns(s.work, s.runs, w, x);
  }

  /** Loop `l` moves to `x`. */
  lemma LoopChanged(s: State, l: nat, x: Loop, t: State)
    requires Inv(s) && LoopRun(x, l, s.runs) && Genuine(x, s.entries) && t.loops == s.loops[l := x]
    requires t.log == s.log && t.runs == s.runs && t.work == s.work && t.entries == s.entries && t.rows == s.rows
    ensures Inv(t)
  {
    LoopTurns(s.loops, s.entries, s.runs, l, x);
  }

  lemma PopKeepsInv(s: State, w: nat)
    requires Inv(s) && CanPop(s, w)
    ensures Inv(DoPop(s, w))
  {
    var p := s.queue[|s.queue| - 1];
    RunStarts(s, Run(p.id, Worker(w), 0));
    WorkTurns(s.work, s.runs + [Run(p.id, Worker(w), 0)], w, Task(p, |s.runs|, Publishing(0)));
  }

  lemma PublishKeepsInv(s: State, w: nat, out: Outcome)
    requires Inv(s) && CanPublish(s, w) && C.Known(s.rows, s.work[w].payload)
    ensures Inv(DoPublish(s, w, out))
  {
    var x := s.work[w];
    assert TaskRun(x, w, s.runs);
    CountAdvance(s.log, s.runs, x.run, x.payload, out);
    LogGrows(s.log, s.rows, x.payload, x.pc.next, out);
    OthersUnmoved(s, x.run, x.pc.next, out);
    WorkTurns(s.work, Advanced(s.runs, x.run, x.pc.next, out), w,
      x.(pc := if out.Done? then Publishing(x.pc.next + 1) else MarkingDead));
  }

  lemma EnqueueKeepsInv(s: State, w: nat, eid: Uuid, maxRetries: int, createdAt: int, readable: bool, out: Outcome)
    requires Inv(s) && CanEnqueue(s, w, eid, out)
    ensures Inv(DoEnqueue(s, w, eid, maxRetries, createdAt, readable, out))
  {
    WorkTurns(s.work, s.runs, w, s.work[w].(pc := MarkingFailed));
    if out.Applied() {
      LoopsSeeNewEntry(s.loops, s.entries, eid, Entry(s.work[w].payload, readable, maxRetries, createdAt));
    }
  }

  lemma WriteSentKeepsInv(s: State, w: nat, out: Outcome)
    requires Inv(s) && CanWriteSent(s, w)
    ensures Inv(DoWriteSent(s, w, out))
  {
    TaskChanged(s, w, s.work[w].(pc := MarkingDead), DoWriteSent(s, w, out));
  }

  lemma WorkKeepsInv(s: State, w: nat, op: WorkOp)
    requires C.WorkKnown(s.rows, s.work) && Inv(s) && CanWork(s, w, op)
    ensures Inv(DoWork(s, w, op))
  {
    match op
    case Pop => PopKeepsInv(s, w);
    case Publish(out) => PublishKeepsInv(s, w, out);
    case FindNoRoutes => TaskChanged(s, w, s.work[w].(pc := MarkingDead), DoWork(s, w, op));
    case WriteSent(out) => WriteSentKeepsInv(s, w, out);
    case WriteDead(out) => TaskChanged(s, w, s.work[w].(pc := Enqueueing), DoWriteDead(s, w, out));
    case Enqueue(eid, maxRetries, createdAt, readable, out) =>
      EnqueueKeepsInv(s, w, eid, maxRetries, createdAt, readable, out);
    case WriteFailed(out) => TaskChanged(s, w, s.work[w], DoWriteFailed(s, w, out));
  }

  lemma TakeKeepsInv(s: State, l: nat)
    requires Inv(s) && CanTake(s, l) && Current(s, l).entry.readable
    ensures Inv(DoTake(s, l))
  {
    var r := Run(Current(s, l).entry.payload.id, Retrier(l), 0);
    assert LoopRun(s.loops[l], l, s.runs) && Genuine(s.loops[l], s.entries);
    RunStarts(s, r);
    LoopTurns(s.loops, s.entries, s.runs + [r], l, s.loops[l].(pc := Republishing(|s.runs|, 0)));
  }

  lemma RepublishKeepsInv(s: State, l: nat, out: Outcome)
    requires Inv(s) && CanRepublish(s, l) && C.EntriesKnown(s.rows, s.entries)
    ensures Inv(DoRepublish(s, l, out))
  {
    var c := Current(s, l);
    var pc := s.loops[l].pc;
    assert LoopRun(s.loops[l], l, s.runs) && Genuine(s.loops[l], s.entries);
    CountAdvance(s.log, s.runs, pc.run, c.entry.payload, out);
    LogGrows(s.log, s.rows, c.entry.payload, pc.next, out);
    OthersUnmoved(s, pc.run, pc.next, out);
    LoopTurns(s.loops, s.entries, Advanced(s.runs, pc.run, pc.next, out), l,
      s.loops[l].(pc := AfterPublish(s, l, out)));
  }

  /** A loop turns from publishing to another position on the same entry. */
  lemma TurnKeepsInv(s: State, l: nat, pc: RetryPc, t: State)
    requires Inv(s) && Busy(s, l) && !pc.Republishing? && t.loops == Turn(s, l, pc)
    requires t.log == s.log && t.runs == s.runs && t.work == s.work && t.entries == s.entries && t.rows == s.rows
    ensures Inv(t)
  {
    SameBatch(s.loops, s.entries, s.runs, l, s.loops[l].(pc := pc));
    LoopChanged(s, l, s.loops[l].(pc := pc), t);
  }

  lemma ListKeepsInv(s: State, l: nat, batch: seq<Snapshot>)
    requires Inv(s) && CanList(s, l, batch)
    ensures Inv(DoRetry(s, l, List(batch)))
  {
    assert Genuine(Loop(batch, 0, Next), s.entries) by {
      assert forall i | 0 <= i < |batch| :: Reads(s, batch[i]);
    }
    LoopChanged(s, l, Loop(batch, 0, Next), DoRetry(s, l, List(batch)));
  }

  /** Loop `l` is done with its batch. */
  lemma LoopGone(s: State, l: nat, t: State)
    requires Inv(s) && t.loops == s.loops - {l}
    requires t.log == s.log && t.runs == s.runs && t.work == s.work && t.entries == s.entries && t.rows == s.rows
    ensures Inv(t)
  {
    LoopStops(s.loops, s.entries, s.runs, l);
  }

  lemma OnwardKeepsInv(s: State, l: nat, t: State)
    requires Inv(s) && Busy(s, l) && t.loops == Onward(s, l)
    requires t.log == s.log && t.runs == s.runs && t.work == s.work && t.entries == s.entries && t.rows == s.rows
    ensures Inv(t)
  {
    var x := s.loops[l];
    if x.index + 1 == |x.batch| {
      LoopGone(s, l, t);
    } else {
      SameBatch(s.loops, s.entries, s.runs, l, Loop(x.batch, x.index + 1, Next));
      LoopChanged(s, l, Loop(x.batch, x.index + 1, Next), t);
    }
  }

  lemma RetryKeepsInv(s: State, l: nat, op: RetryOp)
    requires C.EntriesKnown(s.rows, s.entries) && Inv(s) && CanRetry(s, l, op)
    ensures Inv(DoRetry(s, l, op))
  {
    match op
    case List(batch) => ListKeepsInv(s, l, batch);
    case Take =>
      if Current(s, l).entry.readable {
        TakeKeepsInv(s, l);
      } else {
        TurnKeepsInv(s, l, Marking(Exhausted, Current(s, l).entry.maxRetries), DoTake(s, l));
      }
    case FindNoRecipients => TurnKeepsInv(s, l, AfterFailure(Current(s, l)), DoRetry(s, l, op));
    case Republish(out) => RepublishKeepsInv(s, l, out);
    case RewriteSent(out) =>
      TurnKeepsInv(s, l, Marking(Republished, Current(s, l).retryCount + 1), DoRewriteSent(s, l, out));
    case GiveUp(out) => TurnKeepsInv(s, l, Marking(Exhausted, Current(s, l).retryCount + 1), DoGiveUp(s, l, out));
    case Mark(out) => OnwardKeepsInv(s, l, DoMark(s, l, out));
  }

  lemma AckKeepsInv(s: State, h: nat, op: AckOp)
    requires Inv(s) && CanAck(s, h, op)
    ensures Inv(DoAck(s, h, op))
  {}

  lemma InsertKeepsInv(s: State, p: Payload, tenant: Uuid, out: Outcome)
    requires Inv(s) && CanInsert(s, p, out)
    ensures Inv(DoInsert(s, p, tenant, out))
  {
    if out.Applied() {
      RowAdded(s, p.id, Row(p.recipients, tenant), DoInsert(s, p, tenant, out));
    }
  }

  lemma PushKeepsInv(s: State, id: Uuid, out: Outcome)
    requires Inv(s) && CanPush(s, id)
    ensures Inv(DoPush(s, id, out))
  {}

  lemma StepKeepsInv(s: State, step: Step)
    requires C.WorkKnown(s.rows, s.work) && C.EntriesKnown(s.rows, s.entries) && Inv(s) && Enabled(s, step)
    ensures Inv(Apply(s, step))
  {
    match step
    case Send(Insert(p, tenant, out)) => InsertKeepsInv(s, p, tenant, out);
    case Send(Push(id, out)) => PushKeepsInv(s, id, out);
    case Work(w, op) => WorkKeepsInv(s, w, op);
    case Retry(l, op) => RetryKeepsInv(s, l, op);
    case Acknowledge(h, op) => AckKeepsInv(s, h, op);
  }

  lemma {:induction false} RunKeepsInv(s: State, steps: seq<Step>)
    requires C.Inv(s) && Inv(s) && CanRun(s, steps)
    ensures C.Inv(Exec(s, steps)) && Inv(Exec(s, steps))
    decreases |steps|
  {
    if |steps| > 0 {
      C.StepKeepsInv(s, steps[0]);
      StepKeepsInv(s, steps[0]);
      RunKeepsInv(Apply(s, steps[0]), steps[1..]);
    }
  }

  // ----- main results ---------------------------------------------------------------------------

  /** In every reachable state, whatever fails and however threads interleave, a message has been
      published to each recipient at least as often as to the next one on its list, and every
      publication went to the recipient that the row lists at that position. */
  lemma EarlierRecipientsFirst(steps: seq<Step>, id: Uuid, pos: nat)
    requires CanRun(Init, steps)
    ensures
      var s := Exec(Init, steps);
      && Published(s.log, id, pos + 1) <= Published(s.log, id, pos)
      && LogInv(s.log, s.rows)
  {
    RunKeepsInv(Init, steps);
    ReachedDecreases(Exec(Init, steps).runs, id, pos);
  }
}
