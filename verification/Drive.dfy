/** What a single retry loop can go on to do while every other thread stands still: finish its current
    entry one way or the other, and get to any entry that is still ahead in its batch. */
module Drive {
  import opened Model
  import opened Pipeline
  import L = Ledger

  // ----- how an entry can end ---------------------------------------------------------------------

  /** What a loop is going to write to an entry, if that is settled already. */
  datatype Fate = Open | Bound(status: EntryStatus, count: int)

  /** What it writes when publishing fails. */
  function Failing(c: Snapshot): Fate {
    Bound(if c.retryCount + 1 >= c.entry.maxRetries then Exhausted else Waiting, c.retryCount + 1)
  }

  /** Before the last publication, a loop can still go either way. */
  function FateOf(c: Snapshot, pc: RetryPc): Fate {
    var n := |c.entry.payload.recipients|;
    match pc
    case Marking(status, count) => Bound(status, count)
    case GivingUp => Bound(Exhausted, c.retryCount + 1)
    case Next => if !c.entry.readable then Bound(Exhausted, c.entry.maxRetries) else if n == 0 then Failing(c) else Open
    case Republishing(_, k) =>
      if n == 0 then Failing(c) else if k >= n then Bound(Republished, c.retryCount + 1) else Open
  }

  /** The end that is reached if every publication succeeds, or if the next one fails. */
  function Ending(c: Snapshot, pc: RetryPc, success: bool): (r: Fate)
    ensures r.Bound?
  {
    if FateOf(c, pc).Bound? then FateOf(c, pc)
    else if success then Bound(Republished, c.retryCount + 1)
    else Failing(c)
  }

  /** The status that the loop writes for the message on the way there. */
  function Written(c: Snapshot, pc: RetryPc, success: bool): Option<Status> {
    if pc.Marking? || (pc.Next? && !c.entry.readable) then None
    else
      match Ending(c, pc, success).status
      case Waiting => None
      case Republished => Some(Sent)
      case Exhausted => Some(Failed)
  }

  function Ends(s: State, l: nat, success: bool, write: Outcome): map<Uuid, Status>
    requires Busy(s, l)
  {
    var c := Current(s, l);
    match Written(c, s.loops[l].pc, success)
    case Some(v) => SetStatus(s.status, c.entry.payload.id, v, write)
    case None => s.status
  }

  // ----- one step ---------------------------------------------------------------------------------

  /** The loop is at an entry, in a position that the step system can lead to. */
  predicate Steady(s: State, l: nat) {
    && Busy(s, l)
    && (s.loops[l].pc.Republishing? ==>
          s.loops[l].pc.run < |s.runs| && s.loops[l].pc.next <= |Current(s, l).entry.payload.recipients|)
  }

  /** Nothing but the log, the statuses, the history and the positions of loops differs. */
  predicate Kept(s: State, t: State) {
    && t.rows == s.rows && t.queue == s.queue && t.entries == s.entries && t.progress == s.progress
    && t.acks == s.acks && t.work == s.work && t.handlers == s.handlers && t.place == s.place && t.entryOf == s.entryOf
  }

  function Rank(pc: RetryPc, n: nat): nat {
    match pc
    case Next => n + 3
    case Republishing(_, k) => if k <= n then n - k + 2 else 2
    case GivingUp => 1
    case Marking(_, _) => 0
  }

  /** A step of the loop that gets it nearer to its end, and leaves that end what it was. */
  predicate Towards(s: State, t: State, l: nat, success: bool, write: Outcome)
    requires Busy(s, l)
  {
    && Steady(t, l) && Kept(s, t)
    && t.loops == s.loops[l := s.loops[l].(pc := t.loops[l].pc)]
    && Ending(Current(s, l), t.loops[l].pc, success) == Ending(Current(s, l), s.loops[l].pc, success)
    && Ends(t, l, success, write) == Ends(s, l, success, write)
    && var n := |Current(s, l).entry.payload.recipients|;
       Rank(t.loops[l].pc, n) < Rank(s.loops[l].pc, n)
  }

  lemma TakeTowards(s: State, l: nat, success: bool, write: Outcome)
    requires CanTake(s, l)
    ensures Towards(s, DoTake(s, l), l, success, write)
  {}

  lemma NoRecipientsTowards(s: State, l: nat, success: bool, write: Outcome)
    requires NoRecipients(s, l)
    ensures Towards(s, s.(loops := Turn(s, l, AfterFailure(Current(s, l)))), l, success, write)
  {}

  lemma RepublishTowards(s: State, l: nat, success: bool, write: Outcome)
    requires CanRepublish(s, l)
    ensures Towards(s, DoRepublish(s, l, if success then Done else Refused), l, success, write)
  {}

  lemma RewriteSentTowards(s: State, l: nat, success: bool, write: Outcome)
    requires CanRewriteSent(s, l)
    ensures Towards(s, DoRewriteSent(s, l, write), l, success, write)
  {}

  lemma GiveUpTowards(s: State, l: nat, success: bool, write: Outcome)
    requires CanGiveUp(s, l)
    ensures Towards(s, DoGiveUp(s, l, write), l, success, write)
  {}

  lemma NextStep(s: State, l: nat, success: bool, write: Outcome) returns (op: RetryOp, t: State)
    requires Steady(s, l) && !s.loops[l].pc.Marking?
    ensures CanRetry(s, l, op) && t == DoRetry(s, l, op) && Towards(s, t, l, success, write)
  {
    var n := |Current(s, l).entry.payload.recipients|;
    var pc := s.loops[l].pc;
    if pc.Next? {
      op := Take;
      TakeTowards(s, l, success, write);
    } else if pc.GivingUp? {
      op := GiveUp(write);
      GiveUpTowards(s, l, success, write);
    } else if n == 0 {
      op := FindNoRecipients;
      NoRecipientsTowards(s, l, success, write);
    } else if pc.next < n {
      op := Republish(if success then Done else Refused);
      RepublishTowards(s, l, success, write);
    } else {
      op := RewriteSent(write);
      RewriteSentTowards(s, l, success, write);
    }
    t := DoRetry(s, l, op);
  }

  // ----- several steps ----------------------------------------------------------------------------

  predicate OnlyLoop(steps: seq<Step>, l: nat) {
    forall i | 0 <= i < |steps| :: steps[i].Retry? && steps[i].l == l
  }

  /** The steps of loop `l` lead from `s` to where it is about to write its current entry. */
  ghost predicate Steered(s: State, steps: seq<Step>, t: State, l: nat, success: bool, write: Outcome)
    requires Busy(s, l)
  {
    var end := Ending(Current(s, l), s.loops[l].pc, success);
    && Leads(s, steps, t) && OnlyLoop(steps, l) && Kept(s, t)
    && t.loops == s.loops[l := s.loops[l].(pc := Marking(end.status, end.count))]
    && t.status == Ends(s, l, success, write)
  }

  lemma SteeredCons(s: State, op: RetryOp, u: State, more: seq<Step>, t: State, l: nat, success: bool, write: Outcome)
    requires Busy(s, l) && CanRetry(s, l, op) && u == DoRetry(s, l, op)
    requires Towards(s, u, l, success, write) && Steered(u, more, t, l, success, write)
    ensures Steered(s, [Retry(l, op)] + more, t, l, success, write)
  {
    LeadsCons(s, Retry(l, op), more, t);
    TowardsSteered(s, u, t, l, success, write);
  }

  lemma LeadsCons(s: State, step: Step, more: seq<Step>, t: State)
    requires Enabled(s, step) && Leads(Apply(s, step), more, t)
    ensures Leads(s, [step] + more, t)
  {
    ExecCons(s, step, more);
  }

  /** What is steered to does not depend on the steps already taken. */
  lemma TowardsSteered(s: State, u: State, t: State, l: nat, success: bool, write: Outcome)
    requires Busy(s, l) && Towards(s, u, l, success, write) && Kept(u, t)
    requires t.status == Ends(u, l, success, write)
    requires
      var end := Ending(Current(u, l), u.loops[l].pc, success);
      t.loops == u.loops[l := u.loops[l].(pc := Marking(end.status, end.count))]
    ensures Kept(s, t) && t.status == Ends(s, l, success, write)
    ensures
      var end := Ending(Current(s, l), s.loops[l].pc, success);
      t.loops == s.loops[l := s.loops[l].(pc := Marking(end.status, end.count))]
  {}

  /** The loop gets to where it is about to write its current entry. */
  lemma {:induction false} Steer(s: State, l: nat, success: bool, write: Outcome) returns (steps: seq<Step>, t: State)
    requires Steady(s, l)
    ensures Steered(s, steps, t, l, success, write)
    decreases Rank(s.loops[l].pc, |Current(s, l).entry.payload.recipients|)
  {
    if s.loops[l].pc.Marking? {
      steps, t := [], s;
      assert s.loops[l := s.loops[l]] == s.loops;
    } else {
      var op, u := NextStep(s, l, success, write);
      var more;
      more, t := Steer(u, l, success, write);
      SteeredCons(s, op, u, more, t, l, success, write);
      steps := [Retry(l, op)] + more;
    }
  }

  /** The loop leaves its current entry, whose update is refused, and goes on. */
  lemma Pass(s: State, l: nat) returns (steps: seq<Step>, t: State)
    requires Steady(s, l)
    ensures Leads(s, steps, t) && OnlyLoop(steps, l) && Kept(s, t) && t.status == s.status && t.loops == Onward(s, l)
  {
    var u;
    steps, u := Steer(s, l, false, Refused);
    Extend(s, steps, u, Retry(l, Mark(Refused)));
    steps, t := steps + [Retry(l, Mark(Refused))], DoMark(u, l, Refused);
    assert t.loops == Onward(s, l);
  }

  /** The position in which a loop comes to entry `i` of its batch. */
  function PcAt(x: Loop, i: nat): RetryPc {
    if i == x.index then x.pc else Next
  }

  /** The steps of loop `l` lead from `s` to entry `i` of its batch, and change no status and no entry. */
  ghost predicate Reached(s: State, steps: seq<Step>, t: State, l: nat, i: nat)
    requires Busy(s, l)
  {
    && Leads(s, steps, t) && OnlyLoop(steps, l) && Kept(s, t) && t.status == s.status && Steady(t, l)
    && t.loops == s.loops[l := Loop(s.loops[l].batch, i, PcAt(s.loops[l], i))]
  }

  lemma PassReached(s: State, first: seq<Step>, u: State, more: seq<Step>, t: State, l: nat, i: nat)
    requires Busy(s, l) && s.loops[l].index < i < |s.loops[l].batch|
    requires Leads(s, first, u) && OnlyLoop(first, l) && Kept(s, u) && u.status == s.status && u.loops == Onward(s, l)
    requires Reached(u, more, t, l, i)
    ensures Reached(s, first + more, t, l, i)
  {
    LeadsOn(s, first, u, more, t);
  }

  /** The loop gets to an entry that is still ahead. */
  lemma {:induction false} Reach(s: State, l: nat, i: nat) returns (steps: seq<Step>, t: State)
    requires Steady(s, l) && s.loops[l].index <= i < |s.loops[l].batch|
    ensures Reached(s, steps, t, l, i)
    decreases i - s.loops[l].index
  {
    if s.loops[l].index == i {
      steps, t := [], s;
      assert s.loops[l := s.loops[l]] == s.loops;
    } else {
      var first, u := Pass(s, l);
      var more;
      more, t := Reach(u, l, i);
      PassReached(s, first, u, more, t, l, i);
      steps := first + more;
    }
  }

  /** The loop finishes its current entry with an update that is applied. */
  lemma Finish(s: State, l: nat, success: bool) returns (steps: seq<Step>, t: State)
    requires Steady(s, l) && Current(s, l).eid in s.progress
    ensures Leads(s, steps, t) && OnlyLoop(steps, l)
    ensures
      var end := Ending(Current(s, l), s.loops[l].pc, success);
      && t.progress == s.progress[Current(s, l).eid := Progress(end.status, end.count, end.status.Terminal())]
      && t.entries == s.entries && t.entryOf == s.entryOf && t.rows == s.rows && t.place == s.place
      && t.status == Ends(s, l, success, Refused) && t.loops == Onward(s, l)
  {
    var u;
    steps, u := Steer(s, l, success, Refused);
    Extend(s, steps, u, Retry(l, Mark(Done)));
    steps, t := steps + [Retry(l, Mark(Done))], DoMark(u, l, Done);
    assert t.loops == Onward(s, l);
  }

  lemma SteadyLoops(steps: seq<Step>, l: nat)
    requires CanRun(Init, steps) && l in Exec(Init, steps).loops
    ensures Steady(Exec(Init, steps), l)
  {
    L.RunKeepsInv(Init, steps);
    assert L.LoopRun(Exec(Init, steps).loops[l], l, Exec(Init, steps).runs);
  }
}
