/** When a processed or exhausted entry can still change, with any number of retry loops: exactly if
    some loop has it ahead and is not already bound to write what it says. */
module Reopening {
  import opened Model
  import opened Pipeline
  import opened Drive
  import E = Entries
  import O = OneLoop

  /** Position `i` of the loop's batch is still to be written, is for entry `e`, and what will be
      written there is open or differs from `g`. */
  predicate Threat(x: Loop, i: nat, e: Uuid, g: Progress) {
    && x.index <= i < |x.batch| && x.batch[i].eid == e
    && FateOf(x.batch[i], PcAt(x, i)) != Bound(g.status, g.retryCount)
  }

  predicate ThreatensFrom(x: Loop, e: Uuid, g: Progress) {
    exists i | 0 <= i < |x.batch| :: Threat(x, i, e, g)
  }

  predicate Threatened(loops: map<nat, Loop>, e: Uuid, g: Progress) {
    exists l | l in loops :: ThreatensFrom(loops[l], e, g)
  }

  // ----- no threat, no change ---------------------------------------------------------------------

  /** Entry `e` is terminal, as `g` says, and nothing threatens it. */
  predicate Safe(s: State, e: Uuid, g: Progress) {
    && e in s.entries && e in s.progress && s.progress[e] == g && g.status.Terminal() && g.stamped
    && !Threatened(s.loops, e, g)
  }

  lemma LoopKeepsSafe(s: State, l: nat, x: Loop, e: Uuid, g: Progress, t: State)
    requires Safe(s, e, g) && !ThreatensFrom(x, e, g) && (t.loops == s.loops[l := x] || t.loops == s.loops - {l})
    requires e in t.entries && e in t.progress && t.progress[e] == g
    ensures Safe(t, e, g)
  {}

  /** A terminal entry is not listed. */
  lemma ListKeepsSafe(s: State, l: nat, batch: seq<Snapshot>, e: Uuid, g: Progress)
    requires Safe(s, e, g) && CanList(s, l, batch)
    ensures Safe(s.(loops := s.loops[l := Loop(batch, 0, Next)]), e, g)
  {
    forall i | 0 <= i < |batch|
      ensures batch[i].eid != e
    {
      assert Reads(s, batch[i]);
    }
    LoopKeepsSafe(s, l, Loop(batch, 0, Next), e, g, s.(loops := s.loops[l := Loop(batch, 0, Next)]));
  }

  /** A loop that is bound to a fate keeps it while it goes on with its entry. */
  lemma TurnKeepsSafe(s: State, l: nat, pc: RetryPc, e: Uuid, g: Progress, t: State)
    requires Safe(s, e, g) && Busy(s, l) && t.loops == Turn(s, l, pc)
    requires t.entries == s.entries && t.progress == s.progress
    requires FateOf(Current(s, l), s.loops[l].pc).Bound? ==>
      FateOf(Current(s, l), pc) == FateOf(Current(s, l), s.loops[l].pc)
    ensures Safe(t, e, g)
  {
    var x := s.loops[l];
    assert !ThreatensFrom(x, e, g);
    forall i | 0 <= i < |x.batch|
      ensures !Threat(x.(pc := pc), i, e, g)
    {
      assert !Threat(x, i, e, g);
    }
    LoopKeepsSafe(s, l, x.(pc := pc), e, g, t);
  }

  lemma OnwardKeepsSafe(s: State, l: nat, e: Uuid, g: Progress, t: State)
    requires Safe(s, e, g) && Busy(s, l) && t.loops == Onward(s, l)
    requires e in t.entries && e in t.progress && t.progress[e] == g
    ensures Safe(t, e, g)
  {
    var x := s.loops[l];
    var y := Loop(x.batch, x.index + 1, Next);
    assert !ThreatensFrom(x, e, g);
    forall i | 0 <= i < |y.batch|
      ensures !Threat(y, i, e, g)
    {
      assert !Threat(x, i, e, g);
    }
    LoopKeepsSafe(s, l, y, e, g, t);
  }

  lemma MarkKeepsSafe(s: State, l: nat, out: Outcome, e: Uuid, g: Progress)
    requires Safe(s, e, g) && CanMark(s, l)
    ensures Safe(DoMark(s, l, out), e, g)
  {
    assert !ThreatensFrom(s.loops[l], e, g);
    assert !Threat(s.loops[l], s.loops[l].index, e, g);
    OnwardKeepsSafe(s, l, e, g, DoMark(s, l, out));
  }

  lemma RepublishKeepsSafe(s: State, l: nat, out: Outcome, e: Uuid, g: Progress)
    requires Safe(s, e, g) && CanRepublish(s, l)
    ensures Safe(DoRepublish(s, l, out), e, g)
  {
    TurnKeepsSafe(s, l, AfterPublish(s, l, out), e, g, DoRepublish(s, l, out));
  }

  lemma RewriteSentKeepsSafe(s: State, l: nat, out: Outcome, e: Uuid, g: Progress)
    requires Safe(s, e, g) && CanRewriteSent(s, l)
    ensures Safe(DoRewriteSent(s, l, out), e, g)
  {
    TurnKeepsSafe(s, l, Marking(Republished, Current(s, l).retryCount + 1), e, g, DoRewriteSent(s, l, out));
  }

  lemma GiveUpKeepsSafe(s: State, l: nat, out: Outcome, e: Uuid, g: Progress)
    requires Safe(s, e, g) && CanGiveUp(s, l)
    ensures Safe(DoGiveUp(s, l, out), e, g)
  {
    TurnKeepsSafe(s, l, Marking(Exhausted, Current(s, l).retryCount + 1), e, g, DoGiveUp(s, l, out));
  }

  lemma RetryKeepsSafe(s: State, l: nat, op: RetryOp, e: Uuid, g: Progress)
    requires Safe(s, e, g) && CanRetry(s, l, op)
    ensures Safe(DoRetry(s, l, op), e, g)
  {
    match op
    case List(batch) => ListKeepsSafe(s, l, batch, e, g);
    case Take => TurnKeepsSafe(s, l, Taken(s, l), e, g, DoTake(s, l));
    case FindNoRecipients =>
      TurnKeepsSafe(s, l, AfterFailure(Current(s, l)), e, g, s.(loops := Turn(s, l, AfterFailure(Current(s, l)))));
    case Republish(out) => RepublishKeepsSafe(s, l, out, e, g);
    case RewriteSent(out) => RewriteSentKeepsSafe(s, l, out, e, g);
    case GiveUp(out) => GiveUpKeepsSafe(s, l, out, e, g);
    case Mark(out) => MarkKeepsSafe(s, l, out, e, g);
  }

  lemma EnqueueKeepsSafe(s: State, w: nat, eid: Uuid, maxRetries: int, createdAt: int, readable: bool, out: Outcome,
      e: Uuid, g: Progress)
    requires Safe(s, e, g) && CanEnqueue(s, w, eid, out)
    ensures Safe(DoEnqueue(s, w, eid, maxRetries, createdAt, readable, out), e, g)
  {}

  lemma WorkKeepsSafe(s: State, w: nat, op: WorkOp, e: Uuid, g: Progress)
    requires Safe(s, e, g) && CanWork(s, w, op)
    ensures Safe(DoWork(s, w, op), e, g)
  {
    match op
    case Enqueue(eid, maxRetries, createdAt, readable, out) =>
      EnqueueKeepsSafe(s, w, eid, maxRetries, createdAt, readable, out, e, g);
    case _ => E.WorkIsApart(s, w, op);
  }

  /** With any number of loops, no step changes a terminal entry that nothing threatens, and none
      makes a threat to it. */
  lemma StepKeepsSafe(s: State, step: Step, e: Uuid, g: Progress)
    requires Safe(s, e, g) && Enabled(s, step)
    ensures Safe(Apply(s, step), e, g)
  {
    match step
    case Send(op) => E.SendIsApart(s, op);
    case Work(w, op) => WorkKeepsSafe(s, w, op, e, g);
    case Retry(l, op) => RetryKeepsSafe(s, l, op, e, g);
    case Acknowledge(h, op) => E.AckIsApart(s, h, op);
  }

  lemma {:induction false} RunKeepsSafe(s: State, steps: seq<Step>, e: Uuid, g: Progress)
    requires Safe(s, e, g) && CanRun(s, steps)
    ensures Safe(Exec(s, steps), e, g)
    decreases |steps|
  {
    if |steps| > 0 {
      StepKeepsSafe(s, steps[0], e, g);
      RunKeepsSafe(Apply(s, steps[0]), steps[1..], e, g);
    }
  }

  // ----- a threat can be carried out --------------------------------------------------------------

  /** A loop that is free to write something else, or bound to, goes on and does. */
  lemma ThreatIsReal(s: State, l: nat, i: nat, e: Uuid, g: Progress) returns (steps: seq<Step>, t: State)
    requires Steady(s, l) && Threat(s.loops[l], i, e, g) && e in s.progress
    ensures Leads(s, steps, t) && e in t.progress && t.progress[e] != g
  {
    var first, u := Reach(s, l, i);
    var c := Current(u, l);
    var success := FateOf(c, u.loops[l].pc).Open? && Failing(c) == Bound(g.status, g.retryCount);
    var more;
    more, t := Finish(u, l, success);
    LeadsOn(s, first, u, more, t);
    steps := first + more;
  }

  // ----- main results -----------------------------------------------------------------------------

  /** The run `more` ends with entry `e` being otherwise than it was. */
  ghost predicate Changes(s: State, more: seq<Step>, e: Uuid)
    requires e in s.progress
  {
    CanRun(s, more) && !(e in Exec(s, more).progress && Exec(s, more).progress[e] == s.progress[e])
  }

  lemma TerminalFacts(steps: seq<Step>, e: Uuid)
    requires CanRun(Init, steps) && e in Exec(Init, steps).progress && Exec(Init, steps).progress[e].status.Terminal()
    ensures e in Exec(Init, steps).entries && Exec(Init, steps).progress[e].stamped
  {
    O.EntryKnown(steps, e);
    E.EntriesStaySane(steps, e);
  }

  /** In every reachable state with any number of loops, a terminal entry can still change exactly if
      some loop has it ahead and is not bound to write the values that it has. */
  lemma TerminalCanChangeIff(steps: seq<Step>, e: Uuid)
    requires CanRun(Init, steps) && e in Exec(Init, steps).progress && Exec(Init, steps).progress[e].status.Terminal()
    ensures
      var s := Exec(Init, steps);
      (exists more :: Changes(s, more, e)) <==> Threatened(s.loops, e, s.progress[e])
  {
    var s := Exec(Init, steps);
    var g := s.progress[e];
    TerminalFacts(steps, e);
    if Threatened(s.loops, e, g) {
      var l :| l in s.loops && ThreatensFrom(s.loops[l], e, g);
      var i :| 0 <= i < |s.loops[l].batch| && Threat(s.loops[l], i, e, g);
      SteadyLoops(steps, l);
      var more, t := ThreatIsReal(s, l, i, e, g);
      assert Changes(s, more, e);
    } else {
      NothingChanges(s, e, g);
    }
  }

  lemma NothingChanges(s: State, e: Uuid, g: Progress)
    requires Safe(s, e, g)
    ensures forall more :: !Changes(s, more, e)
  {
    forall more | CanRun(s, more)
      ensures !Changes(s, more, e)
    {
      RunKeepsSafe(s, more, e, g);
    }
  }

  /** A single loop knows its remaining entries as they are, so none of them is terminal. */
  lemma SingleLoopThreatensNone(s: State, e: Uuid, g: Progress)
    requires O.Fresh(s) && e in s.progress && s.progress[e] == g && g.status.Terminal()
    ensures !Threatened(s.loops, e, g)
  {
    if 0 in s.loops {
      var x := s.loops[0];
      forall i | 0 <= i < |x.batch|
        ensures !Threat(x, i, e, g)
      {
        assert i >= x.index ==> O.Current0(x.batch[i], s.progress);
      }
    }
  }

  /** After a run with a single loop, nothing changes an entry that is processed or exhausted, not even
      other loops that begin to work later. */
  lemma TerminalIsAbsorbing(steps: seq<Step>, more: seq<Step>, e: Uuid)
    requires CanRun(Init, steps) && O.AllSingle(steps) && CanRun(Exec(Init, steps), more)
    requires e in Exec(Init, steps).progress && Exec(Init, steps).progress[e].status.Terminal()
    ensures e in Exec(Exec(Init, steps), more).progress
    ensures Exec(Exec(Init, steps), more).progress[e] == Exec(Init, steps).progress[e]
  {
    var s := Exec(Init, steps);
    TerminalFacts(steps, e);
    O.LoopFacts(steps);
    SingleLoopThreatensNone(s, e, s.progress[e]);
    RunKeepsSafe(s, more, e, s.progress[e]);
  }
}
