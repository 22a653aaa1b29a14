/** What a single retry loop adds: entries move forward only, and the number of attempts at a
    message is accounted for. The loop has number 0. */
module OneLoop {
  import opened Model
  import opened Pipeline
  import C = Conservation
  import L = Ledger
  import E = Entries

  /** At most the loop 0 takes this step. */
  predicate Single(step: Step) {
    step.Retry? ==> step.l == 0
  }

  predicate AllSingle(steps: seq<Step>) {
    forall i | 0 <= i < |steps| :: Single(steps[i])
  }

  // ----- the loop's snapshots are up to date ------------------------------------------------------

  predicate Current0(c: Snapshot, progress: map<Uuid, Progress>) {
    c.eid in progress && progress[c.eid] == Progress(Waiting, c.retryCount, false)
  }

  predicate FreshLoop(x: Loop, progress: map<Uuid, Progress>) {
    && (forall i | x.index <= i < |x.batch| :: Current0(x.batch[i], progress))
    && (forall i, j | 0 <= i < j < |x.batch| :: x.batch[i].eid != x.batch[j].eid)
  }

  predicate FreshInv(loops: map<nat, Loop>, progress: map<Uuid, Progress>) {
    loops.Keys <= {0} && (0 in loops ==> FreshLoop(loops[0], progress))
  }

  predicate Fresh(s: State) {
    FreshInv(s.loops, s.progress)
  }

  lemma ListIsFresh(s: State, batch: seq<Snapshot>)
    requires E.ProgressInv(s.entries, s.progress) && Fresh(s) && CanList(s, 0, batch)
    ensures Fresh(DoRetry(s, 0, List(batch)))
  {
    forall i | 0 <= i < |batch|
      ensures Current0(batch[i], s.progress)
    {
      assert Reads(s, batch[i]) && E.Sane(s.entries[batch[i].eid], s.progress[batch[i].eid]);
    }
    assert FreshInv(s.loops[0 := Loop(batch, 0, Next)], s.progress);
  }

  lemma TurnIsFresh(s: State, pc: RetryPc, t: State)
    requires Fresh(s) && Busy(s, 0) && t.loops == Turn(s, 0, pc) && t.progress == s.progress
    ensures Fresh(t)
  {}

  /** The batch's entries are distinct, so marking one leaves the remaining snapshots up to date. */
  lemma OnwardIsFresh(x: Loop, progress: map<Uuid, Progress>, status: EntryStatus, count: int, out: Outcome)
    requires FreshLoop(x, progress) && x.index < |x.batch|
    ensures FreshLoop(Loop(x.batch, x.index + 1, Next), SetProgress(progress, x.batch[x.index].eid, status, count, out))
  {
    var progress' := SetProgress(progress, x.batch[x.index].eid, status, count, out);
    forall i | x.index < i < |x.batch|
      ensures Current0(x.batch[i], progress')
    {
      assert Current0(x.batch[i], progress) && x.batch[i].eid != x.batch[x.index].eid;
    }
  }

  lemma MarkIsFresh(s: State, out: Outcome)
    requires Fresh(s) && CanMark(s, 0)
    ensures Fresh(DoMark(s, 0, out))
  {
    var x := s.loops[0];
    OnwardIsFresh(x, s.progress, x.pc.status, x.pc.count, out);
    assert Onward(s, 0).Keys <= {0};
  }

  lemma RetryKeepsFresh(s: State, op: RetryOp)
    requires E.ProgressInv(s.entries, s.progress) && Fresh(s) && CanRetry(s, 0, op)
    ensures Fresh(DoRetry(s, 0, op))
  {
    match op
    case List(batch) => ListIsFresh(s, batch);
    case Take => TurnIsFresh(s, Taken(s, 0), DoTake(s, 0));
    case FindNoRecipients => TurnIsFresh(s, AfterFailure(Current(s, 0)), DoRetry(s, 0, op));
    case Republish(out) => TurnIsFresh(s, AfterPublish(s, 0, out), DoRepublish(s, 0, out));
    case RewriteSent(out) =>
      TurnIsFresh(s, Marking(Republished, Current(s, 0).retryCount + 1), DoRewriteSent(s, 0, out));
    case GiveUp(out) => TurnIsFresh(s, Marking(Exhausted, Current(s, 0).retryCount + 1), DoGiveUp(s, 0, out));
    case Mark(out) => MarkIsFresh(s, out);
  }

  lemma EnqueueKeepsFresh(s: State, w: nat, eid: Uuid, maxRetries: int, createdAt: int, readable: bool, out: Outcome)
    requires Fresh(s) && CanEnqueue(s, w, eid, out) && C.EntryKeys(s.entries, s.progress, s.refused)
    ensures Fresh(DoEnqueue(s, w, eid, maxRetries, createdAt, readable, out))
  {}

  lemma ApartKeepsFresh(s: State, t: State)
    requires Fresh(s) && E.Apart(s, t)
    ensures Fresh(t)
  {}

  lemma WorkKeepsFresh(s: State, w: nat, op: WorkOp)
    requires Fresh(s) && CanWork(s, w, op) && C.EntryKeys(s.entries, s.progress, s.refused)
    ensures Fresh(DoWork(s, w, op))
  {
    match op
    case Enqueue(eid, maxRetries, createdAt, readable, out) =>
      EnqueueKeepsFresh(s, w, eid, maxRetries, createdAt, readable, out);
    case _ =>
      E.WorkIsApart(s, w, op);
      ApartKeepsFresh(s, DoWork(s, w, op));
  }

  lemma StepKeepsFresh(s: State, step: Step)
    requires E.ProgressInv(s.entries, s.progress) && C.EntryKeys(s.entries, s.progress, s.refused)
    requires Fresh(s) && Enabled(s, step) && Single(step)
    ensures Fresh(Apply(s, step))
  {
    match step
    case Send(op) =>
      E.SendIsApart(s, op);
      ApartKeepsFresh(s, DoSend(s, op));
    case Work(w, op) => WorkKeepsFresh(s, w, op);
    case Retry(_, op) => RetryKeepsFresh(s, op);
    case Acknowledge(h, op) =>
      E.AckIsApart(s, h, op);
      ApartKeepsFresh(s, DoAck(s, h, op));
  }

  // ----- entries move forward only ----------------------------------------------------------------

  /** An entry stays as it is, or it was waiting and has one retry more or, its payload being
      unreadable, is exhausted. In particular a terminal entry stays as it is. */
  predicate Forward(e: Entry, g: Progress, g': Progress) {
    || g' == g
    || (g.status == Waiting && if e.readable then g'.retryCount == g.retryCount + 1
                               else g'.status == Exhausted && g'.retryCount == e.maxRetries)
  }

  predicate ProgressKnown(s: State, e: Uuid) {
    e in s.entries && e in s.progress && E.Sane(s.entries[e], s.progress[e])
  }

  /** With any number of loops, an update that is applied moves its entry forward exactly if the entry
      says already what is written, or it is still waiting and, if its payload decodes, the snapshot that
      the update was computed from has its current retry count. In particular, an update leaves a
      terminal entry alone exactly if it writes what the entry says. */
  lemma MarkForwardIffCurrent(s: State, l: nat, out: Outcome)
    requires E.LoopsInv(s.loops) && L.LoopsGenuine(s.loops, s.entries) && CanMark(s, l) && out.Applied()
    requires Current(s, l).eid in s.progress && ProgressKnown(s, Current(s, l).eid)
    ensures
      var c := Current(s, l);
      var g := s.progress[c.eid];
      var g' := DoMark(s, l, out).progress[c.eid];
      && (Forward(s.entries[c.eid], g, g') <==>
           || s.loops[l].pc == Marking(g.status, g.retryCount)
           || (g.status == Waiting && (c.entry.readable ==> g.retryCount == c.retryCount)))
      && (g' == g <==> s.loops[l].pc == Marking(g.status, g.retryCount))
  {
    assert E.SoundLoop(s.loops[l]) && L.Genuine(s.loops[l], s.entries);
    assert E.SoundTurn(Current(s, l), s.loops[l].pc);
  }

  predicate Moved(s: State, t: State, e: Uuid) {
    && e in s.entries && e in s.progress && e in t.entries && e in t.progress
    && t.entries[e] == s.entries[e] && Forward(s.entries[e], s.progress[e], t.progress[e])
  }

  lemma MarkMovesForward(s: State, out: Outcome, e: Uuid)
    requires Fresh(s) && E.LoopsInv(s.loops) && L.LoopsGenuine(s.loops, s.entries) && CanMark(s, 0)
    requires e in s.progress && e in s.entries
    ensures Moved(s, DoMark(s, 0, out), e)
  {
    var c := Current(s, 0);
    assert E.SoundLoop(s.loops[0]) && L.Genuine(s.loops[0], s.entries);
    assert E.SoundTurn(c, s.loops[0].pc);
    assert Current0(c, s.progress);
  }

  lemma EnqueueMovesForward(s: State, w: nat, eid: Uuid, maxRetries: int, createdAt: int, readable: bool, out: Outcome,
      e: Uuid)
    requires CanEnqueue(s, w, eid, out) && e in s.progress && e in s.entries
    ensures Moved(s, DoEnqueue(s, w, eid, maxRetries, createdAt, readable, out), e)
  {}

  lemma SameTablesMove(s: State, t: State, e: Uuid)
    requires t.entries == s.entries && t.progress == s.progress && e in s.progress && e in s.entries
    ensures Moved(s, t, e)
  {}

  /** Everything the single-loop results build on. */
  ghost predicate Good(s: State) {
    C.Inv(s) && L.Inv(s) && E.Inv(s) && Fresh(s)
  }

  lemma StepKeepsGood(s: State, step: Step)
    requires Good(s) && Enabled(s, step) && Single(step)
    ensures Good(Apply(s, step))
  {
    C.StepKeepsInv(s, step);
    L.StepKeepsInv(s, step);
    E.StepKeepsInv(s, step);
    StepKeepsFresh(s, step);
  }

  lemma {:induction false} RunKeepsGood(s: State, steps: seq<Step>)
    requires Good(s) && CanRun(s, steps) && AllSingle(steps)
    ensures Good(Exec(s, steps))
    decreases |steps|
  {
    if |steps| > 0 {
      StepKeepsGood(s, steps[0]);
      RunKeepsGood(Apply(s, steps[0]), steps[1..]);
    }
  }

  lemma RetryMovesForward(s: State, op: RetryOp, e: Uuid)
    requires Fresh(s) && E.LoopsInv(s.loops) && L.LoopsGenuine(s.loops, s.entries) && CanRetry(s, 0, op)
    requires e in s.progress && e in s.entries
    ensures Moved(s, DoRetry(s, 0, op), e)
  {
    match op
    case List(batch) => SameTablesMove(s, s.(loops := s.loops[0 := Loop(batch, 0, Next)]), e);
    case Take => SameTablesMove(s, DoTake(s, 0), e);
    case FindNoRecipients => SameTablesMove(s, s.(loops := Turn(s, 0, AfterFailure(Current(s, 0)))), e);
    case Republish(out) => SameTablesMove(s, DoRepublish(s, 0, out), e);
    case RewriteSent(out) => SameTablesMove(s, DoRewriteSent(s, 0, out), e);
    case GiveUp(out) => SameTablesMove(s, DoGiveUp(s, 0, out), e);
    case Mark(out) => MarkMovesForward(s, out, e);
  }

  lemma WorkMovesForward(s: State, w: nat, op: WorkOp, e: Uuid)
    requires CanWork(s, w, op) && e in s.progress && e in s.entries
    ensures Moved(s, DoWork(s, w, op), e)
  {
    match op
    case Enqueue(eid, maxRetries, createdAt, readable, out) =>
      EnqueueMovesForward(s, w, eid, maxRetries, createdAt, readable, out, e);
    case _ =>
      E.WorkIsApart(s, w, op);
      SameTablesMove(s, DoWork(s, w, op), e);
  }

  /** With one retry loop, every step moves every entry forward or leaves it alone. */
  lemma StepMovesForward(s: State, step: Step, e: Uuid)
    requires Fresh(s) && E.LoopsInv(s.loops) && L.LoopsGenuine(s.loops, s.entries)
    requires Enabled(s, step) && Single(step) && e in s.entries && e in s.progress
    ensures Moved(s, Apply(s, step), e)
  {
    match step
    case Send(op) =>
      E.SendIsApart(s, op);
      SameTablesMove(s, DoSend(s, op), e);
    case Work(w, op) => WorkMovesForward(s, w, op, e);
    case Retry(_, op) => RetryMovesForward(s, op, e);
    case Acknowledge(h, op) =>
      E.AckIsApart(s, h, op);
      SameTablesMove(s, DoAck(s, h, op), e);
  }

  lemma LoopFacts(steps: seq<Step>)
    requires CanRun(Init, steps) && AllSingle(steps)
    ensures
      var s := Exec(Init, steps);
      Fresh(s) && E.LoopsInv(s.loops) && L.LoopsGenuine(s.loops, s.entries) && s.progress.Keys == s.entries.Keys
  {
    RunKeepsGood(Init, steps);
  }

  /** With one retry loop, every step after every run moves every entry forward or leaves it alone. */
  lemma EntriesMoveForward(steps: seq<Step>, step: Step, e: Uuid)
    requires CanRun(Init, steps) && AllSingle(steps) && Enabled(Exec(Init, steps), step) && Single(step)
    requires e in Exec(Init, steps).entries
    ensures Moved(Exec(Init, steps), Apply(Exec(Init, steps), step), e)
  {
    LoopFacts(steps);
    StepMovesForward(Exec(Init, steps), step, e);
  }

  lemma EntryKnown(steps: seq<Step>, e: Uuid)
    requires CanRun(Init, steps) && e in Exec(Init, steps).progress
    ensures e in Exec(Init, steps).entries
  {
    C.RunKeepsInv(Init, steps);
  }
}
