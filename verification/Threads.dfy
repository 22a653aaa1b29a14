/** Threads of the delivery pipeline: whose step is whose, and what a thread can rely on while
    others take steps. */
module Threads {
  import opened Model
  import opened Pipeline
  import C = Conservation

  function By(step: Step): Actor {
    match step
    case Send(Insert(p, _, _)) => Sender(p.id)
    case Send(Push(id, _)) => Sender(id)
    case Work(w, _) => Worker(w)
    case Retry(l, _) => Retrier(l)
    case Acknowledge(h, _) => Handler(h)
  }

  /** The steps that one thread has taken. */
  function Mine(steps: seq<Step>, me: Actor): seq<Step> {
    if |steps| == 0 then []
    else
      var last := steps[|steps| - 1];
      Mine(steps[..|steps| - 1], me) + if By(last) == me then [last] else []
  }

  lemma MineSnoc(steps: seq<Step>, step: Step, me: Actor)
    ensures Mine(steps + [step], me) == Mine(steps, me) + if By(step) == me then [step] else []
  {
    assert (steps + [step])[..|steps|] == steps;
  }

  /** From the steps `before` to the steps `after`, the thread has taken the steps `calls`. */
  predicate Took(before: seq<Step>, after: seq<Step>, me: Actor, calls: seq<Step>) {
    Mine(after, me) == Mine(before, me) + calls
  }

  lemma TookBoth(t0: seq<Step>, t1: seq<Step>, t2: seq<Step>, me: Actor, first: seq<Step>, second: seq<Step>)
    requires Took(t0, t1, me, first) && Took(t1, t2, me, second)
    ensures Took(t0, t2, me, first + second)
  {
    assert Mine(t0, me) + first + second == Mine(t0, me) + (first + second);
  }

  datatype Position = Nowhere | AtWork(task: Task) | AtLoop(loop: Loop) | AtHandler(handler: AckWork) | AtPush(row: Row)

  /** Where a thread is in its code. */
  function PositionOf(s: State, me: Actor): Position {
    match me
    case Worker(w) => if w in s.work then AtWork(s.work[w]) else Nowhere
    case Retrier(l) => if l in s.loops then AtLoop(s.loops[l]) else Nowhere
    case Handler(h) => if h in s.handlers then AtHandler(s.handlers[h]) else Nowhere
    case Sender(id) => if CanPush(s, id) then AtPush(s.rows[id]) else Nowhere
  }

  lemma SendKeepsPosition(s: State, op: SendOp, me: Actor)
    requires CanSend(s, op) && By(Send(op)) != me
    ensures PositionOf(DoSend(s, op), me) == PositionOf(s, me)
  {}

  /** A step of worker `w` moves no other worker, and touches no message that is about to be pushed. */
  ghost predicate Undisturbed(s: State, t: State, w: nat) {
    && t.rows == s.rows && t.loops == s.loops && t.handlers == s.handlers && t.place.Keys == s.place.Keys
    && (forall id | id in s.place :: t.place[id] == s.place[id] || (s.place[id] != Inserted && t.place[id] != Inserted))
    && (forall v | v != w :: (v in t.work <==> v in s.work) && (v in s.work ==> t.work[v] == s.work[v]))
  }

  lemma PopDisturbsNobody(s: State, w: nat)
    requires C.Inv(s) && CanPop(s, w)
    ensures Undisturbed(s, DoPop(s, w), w)
  {
    C.QueuePop(s.queue, s.pushed, s.popped);
    assert s.pushed[s.popped].id in s.order;
  }

  /** Worker `w` moves to `x` or goes idle, and its message moves to `g` or stays where it is. */
  lemma HolderDisturbsNobody(s: State, w: nat, x: Task, g: Place, t: State)
    requires C.WorkInv(s.place, s.work) && w in s.work && g != Inserted
    requires t.place == s.place || t.place == s.place[s.work[w].payload.id := g]
    requires t.work == s.work[w := x] || t.work == s.work - {w}
    requires t.rows == s.rows && t.loops == s.loops && t.handlers == s.handlers
    ensures Undisturbed(s, t, w)
  {}

  lemma PublishDisturbsNobody(s: State, w: nat, out: Outcome)
    requires C.WorkInv(s.place, s.work) && CanPublish(s, w)
    ensures Undisturbed(s, DoPublish(s, w, out), w)
  {
    HolderDisturbsNobody(s, w, DoPublish(s, w, out).work[w], Routed, DoPublish(s, w, out));
  }

  lemma WriteSentDisturbsNobody(s: State, w: nat, out: Outcome)
    requires C.WorkInv(s.place, s.work) && CanWriteSent(s, w)
    ensures Undisturbed(s, DoWriteSent(s, w, out), w)
  {
    HolderDisturbsNobody(s, w, s.work[w].(pc := MarkingDead), Routed, DoWriteSent(s, w, out));
  }

  lemma GiveUpDisturbsNobody(s: State, w: nat, out: Outcome)
    requires C.WorkInv(s.place, s.work)
    ensures At(s, w, MarkingDead) ==> Undisturbed(s, DoWriteDead(s, w, out), w)
    ensures At(s, w, MarkingFailed) ==> Undisturbed(s, DoWriteFailed(s, w, out), w)
  {
    if At(s, w, MarkingDead) {
      HolderDisturbsNobody(s, w, s.work[w].(pc := Enqueueing), Routed, DoWriteDead(s, w, out));
    } else if At(s, w, MarkingFailed) {
      HolderDisturbsNobody(s, w, s.work[w], EnqueueFailed, DoWriteFailed(s, w, out));
    }
  }

  lemma EnqueueDisturbsNobody(s: State, w: nat, eid: Uuid, maxRetries: int, createdAt: int, readable: bool,
      out: Outcome)
    requires C.WorkInv(s.place, s.work) && CanEnqueue(s, w, eid, out)
    ensures Undisturbed(s, DoEnqueue(s, w, eid, maxRetries, createdAt, readable, out), w)
  {
    var t := DoEnqueue(s, w, eid, maxRetries, createdAt, readable, out);
    HolderDisturbsNobody(s, w, s.work[w].(pc := MarkingFailed), t.place[s.work[w].payload.id], t);
  }

  lemma WorkDisturbsNobody(s: State, w: nat, op: WorkOp)
    requires C.Inv(s) && CanWork(s, w, op)
    ensures Undisturbed(s, DoWork(s, w, op), w)
  {
    match op
    case Pop => PopDisturbsNobody(s, w);
    case FindNoRoutes => HolderDisturbsNobody(s, w, s.work[w].(pc := MarkingDead), Routed, DoWork(s, w, op));
    case Publish(out) => PublishDisturbsNobody(s, w, out);
    case WriteSent(out) => WriteSentDisturbsNobody(s, w, out);
    case WriteDead(out) => GiveUpDisturbsNobody(s, w, out);
    case Enqueue(eid, maxRetries, createdAt, readable, out) =>
      EnqueueDisturbsNobody(s, w, eid, maxRetries, createdAt, readable, out);
    case WriteFailed(out) => GiveUpDisturbsNobody(s, w, out);
  }

  lemma UndisturbedPosition(s: State, t: State, w: nat, me: Actor)
    requires Undisturbed(s, t, w) && me != Worker(w)
    ensures PositionOf(t, me) == PositionOf(s, me)
  {}

  lemma WorkKeepsPosition(s: State, w: nat, op: WorkOp, me: Actor)
    requires C.Inv(s) && CanWork(s, w, op) && me != Worker(w)
    ensures PositionOf(DoWork(s, w, op), me) == PositionOf(s, me)
  {
    WorkDisturbsNobody(s, w, op);
    UndisturbedPosition(s, DoWork(s, w, op), w, me);
  }

  lemma RetryKeepsLoops(s: State, l: nat, op: RetryOp, m: nat)
    requires CanRetry(s, l, op) && m != l
    ensures
      var t := DoRetry(s, l, op);
      && (m in t.loops <==> m in s.loops) && (m in s.loops ==> t.loops[m] == s.loops[m])
      && t.handlers == s.handlers
  {}

  lemma RetryKeepsPosition(s: State, l: nat, op: RetryOp, me: Actor)
    requires CanRetry(s, l, op) && me != Retrier(l)
    ensures PositionOf(DoRetry(s, l, op), me) == PositionOf(s, me)
  {
    C.RetryStays(s, l, op);
    RetryKeepsLoops(s, l, op, if me.Retrier? then me.l else l + 1);
  }

  lemma AckKeepsPosition(s: State, h: nat, op: AckOp, me: Actor)
    requires CanAck(s, h, op) && me != Handler(h)
    ensures PositionOf(DoAck(s, h, op), me) == PositionOf(s, me)
  {}

  /** No step of another thread moves a thread. */
  lemma OthersKeepPosition(s: State, step: Step, me: Actor)
    requires C.Inv(s) && Enabled(s, step) && By(step) != me
    ensures PositionOf(Apply(s, step), me) == PositionOf(s, me)
  {
    match step
    case Send(op) => SendKeepsPosition(s, op, me);
    case Work(w, op) => WorkKeepsPosition(s, w, op, me);
    case Retry(l, op) => RetryKeepsPosition(s, l, op, me);
    case Acknowledge(h, op) => AckKeepsPosition(s, h, op, me);
  }
}
