/** Two retry loops: a run in which one loop, writing from a stale snapshot, reopens an entry that
    the other has marked processed, and the message is published more often than its limit allows. */
module TwoLoops {
  import opened Model
  import opened Pipeline
  import L = Ledger
  import A = Accounting

  const ID: Uuid := RawUuid([1, 1, 1, 1, 1, 1, 1, 1, 1, 1, 1, 1, 1, 1, 1, 1])
  const AGENT: Uuid := RawUuid([2, 2, 2, 2, 2, 2, 2, 2, 2, 2, 2, 2, 2, 2, 2, 2])
  const EID: Uuid := RawUuid([3, 3, 3, 3, 3, 3, 3, 3, 3, 3, 3, 3, 3, 3, 3, 3])

  const MESSAGE := Payload(ID, [AGENT])
  const LIMIT := 2
  const ENTRY := Entry(MESSAGE, true, LIMIT, 0)

  /** The message published `n` times to its recipient. */
  function Log(n: nat): seq<Publication> {
    if n == 0 then [] else Log(n - 1) + [Publication(ID, 0, AGENT)]
  }

  lemma {:induction false} LogCount(n: nat)
    ensures L.Published(Log(n), ID, 0) == n
  {
    if n > 0 {
      LogCount(n - 1);
      L.PublishedAppend(Log(n - 1), Publication(ID, 0, AGENT), ID, 0);
    }
  }

  /** The message has its entry, in the given state, and has been published `n` times. */
  predicate Scene(s: State, g: Progress, n: nat) {
    && s.entries == map[EID := ENTRY] && s.progress == map[EID := g]
    && s.entryOf == map[ID := EID] && s.refused == map[EID := 0] && s.log == Log(n)
  }

  function Listed(count: int): Snapshot { Snapshot(EID, ENTRY, count) }

  predicate Begins(s: State, l: nat, count: int) {
    l in s.loops && s.loops[l] == Loop([Listed(count)], 0, Next)
  }

  ghost predicate Reaches(steps: seq<Step>, s: State) {
    Leads(Init, steps, s)
  }

  // ----- up to the entry --------------------------------------------------------------------------

  /** The message is sent, popped and published, but the worker sees an error. */
  lemma Fails() returns (steps: seq<Step>, s: State)
    ensures Reaches(steps, s) && At(s, 0, MarkingDead) && s.work[0].payload == MESSAGE
    ensures s.rows.Keys == {ID} && s.entries == map[] && s.progress == map[] && s.loops == map[]
    ensures s.entryOf == map[] && s.refused == map[] && s.log == Log(1)
  {
    steps, s := [], Init;
    Extend(Init, steps, s, Send(Insert(MESSAGE, NIL_UUID, Done)));
    steps, s := steps + [Send(Insert(MESSAGE, NIL_UUID, Done))], DoInsert(s, MESSAGE, NIL_UUID, Done);
    Extend(Init, steps, s, Send(Push(ID, Done)));
    steps, s := steps + [Send(Push(ID, Done))], DoPush(s, ID, Done);
    Extend(Init, steps, s, Work(0, Pop));
    steps, s := steps + [Work(0, Pop)], DoPop(s, 0);
    Extend(Init, steps, s, Work(0, Publish(Lost)));
    steps, s := steps + [Work(0, Publish(Lost))], DoPublish(s, 0, Lost);
  }

  /** Its entry is created. */
  lemma IsDeadLettered() returns (steps: seq<Step>, s: State)
    ensures Reaches(steps, s) && Scene(s, Progress(Waiting, 0, false), 1) && s.loops == map[]
  {
    steps, s := Fails();
    Extend(Init, steps, s, Work(0, WriteDead(Done)));
    steps, s := steps + [Work(0, WriteDead(Done))], DoWriteDead(s, 0, Done);
    Extend(Init, steps, s, Work(0, Enqueue(EID, LIMIT, 0, true, Done)));
    steps, s := steps + [Work(0, Enqueue(EID, LIMIT, 0, true, Done))], DoEnqueue(s, 0, EID, LIMIT, 0, true, Done);
  }

  // ----- steps of a loop --------------------------------------------------------------------------

  lemma Lists(from: State, steps: seq<Step>, s: State, l: nat, count: int, n: nat) returns (more: seq<Step>, t: State)
    requires Leads(from, steps, s) && Scene(s, Progress(Waiting, count, false), n)
    requires 0 <= count < LIMIT && l !in s.loops
    ensures Leads(from, more, t) && Scene(t, Progress(Waiting, count, false), n) && Begins(t, l, count)
    ensures t.loops == s.loops[l := Loop([Listed(count)], 0, Next)]
  {
    var batch := [Listed(count)];
    assert batch[0].eid == EID;
    assert IsListing(s, batch);
    Extend(from, steps, s, Retry(l, List(batch)));
    more, t := steps + [Retry(l, List(batch))], s.(loops := s.loops[l := Loop(batch, 0, Next)]);
  }

  /** The loop publishes the message; whether it sees an error is for `out` to say. */
  lemma Publishes(from: State, steps: seq<Step>, s: State, l: nat, count: int, g: Progress, n: nat, out: Outcome)
      returns (more: seq<Step>, t: State)
    requires Leads(from, steps, s) && Scene(s, g, n) && Begins(s, l, count) && out.Applied()
    ensures Leads(from, more, t) && Scene(t, g, n + 1) && l in t.loops
    ensures t.loops == s.loops[l := t.loops[l]] && t.loops[l].batch == [Listed(count)] && t.loops[l].index == 0
    ensures if out.Done? then t.loops[l].pc.Republishing? && t.loops[l].pc.next == 1
      else t.loops[l].pc == AfterFailure(Listed(count))
  {
    Extend(from, steps, s, Retry(l, Take));
    var taken := DoTake(s, l);
    Extend(from, steps + [Retry(l, Take)], taken, Retry(l, Republish(out)));
    more, t := steps + [Retry(l, Take)] + [Retry(l, Republish(out))], DoRepublish(taken, l, out);
  }

  predicate AtMark(s: State, l: nat, count: int, status: EntryStatus) {
    l in s.loops && s.loops[l] == Loop([Listed(count)], 0, Marking(status, count + 1))
  }

  lemma MarkedScene(s: State, l: nat, count: int, g: Progress, n: nat, status: EntryStatus)
    requires Scene(s, g, n) && AtMark(s, l, count, status)
    ensures CanMark(s, l) && DoMark(s, l, Done).loops == s.loops - {l}
    ensures Scene(DoMark(s, l, Done), Progress(status, count + 1, status.Terminal()), n)
  {
    assert Current(s, l) == Listed(count);
    assert map[EID := g][EID := Progress(status, count + 1, status.Terminal())]
        == map[EID := Progress(status, count + 1, status.Terminal())];
  }

  lemma Marks(from: State, steps: seq<Step>, s: State, l: nat, count: int, g: Progress, n: nat, status: EntryStatus)
      returns (more: seq<Step>, t: State)
    requires Leads(from, steps, s) && Scene(s, g, n) && AtMark(s, l, count, status)
    ensures Leads(from, more, t) && Scene(t, Progress(status, count + 1, status.Terminal()), n)
    ensures t.loops == s.loops - {l}
  {
    MarkedScene(s, l, count, g, n, status);
    Extend(from, steps, s, Retry(l, Mark(Done)));
    more, t := steps + [Retry(l, Mark(Done))], DoMark(s, l, Done);
  }

  // ----- the run ----------------------------------------------------------------------------------

  /** Both loops list the entry; loop 0 publishes the message. */
  lemma IsRepublished() returns (steps: seq<Step>, s: State)
    ensures Reaches(steps, s) && Scene(s, Progress(Waiting, 0, false), 2) && Begins(s, 1, 0)
    ensures CanRewriteSent(s, 0) && Current(s, 0) == Listed(0) && s.loops[0].batch == [Listed(0)]
  {
    steps, s := IsDeadLettered();
    steps, s := Lists(Init, steps, s, 0, 0, 1);
    steps, s := Lists(Init, steps, s, 1, 0, 1);
    steps, s := Publishes(Init, steps, s, 0, 0, Progress(Waiting, 0, false), 1, Done);
  }

  /** It marks the entry processed. */
  lemma IsProcessed() returns (steps: seq<Step>, s: State)
    ensures Reaches(steps, s) && Scene(s, Progress(Republished, 1, true), 2) && Begins(s, 1, 0) && 0 !in s.loops
  {
    steps, s := IsRepublished();
    Extend(Init, steps, s, Retry(0, RewriteSent(Done)));
    steps, s := steps + [Retry(0, RewriteSent(Done))], DoRewriteSent(s, 0, Done);
    steps, s := Marks(Init, steps, s, 0, 0, Progress(Waiting, 0, false), 2, Republished);
  }

  /** Loop 1 publishes too, sees an error, and marks the same entry waiting. */
  lemma LateLoopReopens(from: State) returns (steps: seq<Step>, s: State)
    requires Scene(from, Progress(Republished, 1, true), 2) && Begins(from, 1, 0) && 0 !in from.loops
    ensures Leads(from, steps, s) && Scene(s, Progress(Waiting, 1, false), 3) && 0 !in s.loops
  {
    steps, s := Publishes(from, [], from, 1, 0, Progress(Republished, 1, true), 2, Lost);
    steps, s := Marks(from, steps, s, 1, 0, Progress(Republished, 1, true), 3, Waiting);
  }

  /** With two loops a processed entry can become retryable again, so that a terminal entry stays
      terminal only under a single loop. */
  lemma TerminalIsNotAbsorbing() returns (steps: seq<Step>, more: seq<Step>)
    ensures CanRun(Init, steps) && CanRun(Exec(Init, steps), more)
    ensures
      var s, t := Exec(Init, steps), Exec(Exec(Init, steps), more);
      && EID in s.progress && s.progress[EID].status.Terminal()
      && EID in t.entries && EID in t.progress && Retryable(t.entries[EID], t.progress[EID])
  {
    var s, t;
    steps, s := IsProcessed();
    more, t := LateLoopReopens(s);
  }

  /** Loop 0 retries the reopened entry: four publications, where the limit of two retries would
      allow three, and no update of the entry was refused. */
  lemma BoundNeedsOneLoop() returns (steps: seq<Step>)
    ensures CanRun(Init, steps)
    ensures L.Published(Exec(Init, steps).log, ID, 0) > 1 + A.Budget(Exec(Init, steps), ID)
  {
    var first, more, s, t;
    first, s := IsProcessed();
    more, t := LateLoopReopens(s);
    more, t := Lists(s, more, t, 0, 1, 3);
    more, t := Publishes(s, more, t, 0, 1, Progress(Waiting, 1, false), 3, Done);
    ExecAppend(Init, first, more);
    steps := first + more;
    LogCount(4);
  }
}
