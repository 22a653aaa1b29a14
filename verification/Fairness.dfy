/** Retry fairness: how many listings an entry can be passed over, however many newer entries
    keep arriving. */
module Fairness {
  import opened Model
  import opened Pipeline
  import L = Ledger
  import E = Entries
  import O = OneLoop
  import opened Turns

  /** One loop, whose updates of entries are applied, and entries that are created after `time`. */
  predicate Fair(step: Step, time: int) {
    && O.Single(step)
    && match step
       case Retry(_, Mark(out)) => out.Applied()
       case Work(_, Enqueue(_, _, createdAt, _, _)) => createdAt > time
       case _ => true
  }

  predicate AllFair(steps: seq<Step>, time: int) {
    forall i | 0 <= i < |steps| :: Fair(steps[i], time)
  }

  /** A listing, and the state it was made in; or the part, from index `from` on, of one that the loop
      still has ahead of it in that state. */
  datatype Visit = Visit(state: State, batch: seq<Snapshot>, from: nat)

  predicate ListsFrom(batch: seq<Snapshot>, from: nat, e: Uuid) {
    exists i | from <= i < |batch| :: batch[i].eid == e
  }

  /** The listings of a run, in order. */
  ghost function Visits(s: State, steps: seq<Step>): seq<Visit>
    requires CanRun(s, steps)
    decreases |steps|
  {
    if |steps| == 0 then []
    else if steps[0].Retry? && steps[0].rop.List? then
      [Visit(s, steps[0].rop.batch, 0)] + Visits(Apply(s, steps[0]), steps[1..])
    else Visits(Apply(s, steps[0]), steps[1..])
  }

  function Left(s: State, x: Uuid): nat {
    E.RetriesLeft(s.entries, s.progress, x)
  }

  // ----- from one listing to the next -------------------------------------------------------------

  /** Entry `x` still exists, has no more retries left, and is untouched unless it was listed. */
  predicate Worn(a: Visit, t: State, x: Uuid) {
    && x in t.entries && x in a.state.entries && t.entries[x] == a.state.entries[x] && Left(t, x) <= Left(a.state, x)
    && (!ListsFrom(a.batch, a.from, x) ==>
          x in t.progress && x in a.state.progress && t.progress[x] == a.state.progress[x])
  }

  /** How many entries of the batch the loop is through with. */
  function Through(t: State, batch: seq<Snapshot>): nat {
    if 0 in t.loops then t.loops[0].index else |batch|
  }

  /** What holds after the listing `a` until the next one. */
  ghost predicate Since(a: Visit, t: State, time: int) {
    && (0 in t.loops ==> t.loops[0].batch == a.batch && a.from <= t.loops[0].index < |a.batch|)
    && (forall x | x in a.state.entries :: Worn(a, t, x))
    && (forall i | a.from <= i < Through(t, a.batch) && i < |a.batch| ::
          Left(t, a.batch[i].eid) < Left(a.state, a.batch[i].eid))
    && (forall x | x in t.entries && x !in a.state.entries :: t.entries[x].createdAt > time)
  }

  lemma TurnSince(a: Visit, s: State, t: State, time: int)
    requires Since(a, s, time) && t.entries == s.entries && t.progress == s.progress && t.loops.Keys == s.loops.Keys
    requires 0 in s.loops ==> t.loops[0].batch == s.loops[0].batch && t.loops[0].index == s.loops[0].index
    ensures Since(a, t, time)
  {
    forall x | x in a.state.entries
      ensures Worn(a, t, x)
    {
      assert Worn(a, s, x);
    }
  }

  /** A new entry is not one of those that existed at the listing. */
  lemma EnqueueWears(a: Visit, s: State, w: nat, eid: Uuid, maxRetries: int, createdAt: int, readable: bool,
      out: Outcome, x: Uuid)
    requires CanEnqueue(s, w, eid, out) && x in a.state.entries && Worn(a, s, x)
    ensures
      var t := DoEnqueue(s, w, eid, maxRetries, createdAt, readable, out);
      Worn(a, t, x) && Left(t, x) == Left(s, x)
  {}

  predicate BatchKnown(a: Visit) {
    forall i | 0 <= i < |a.batch| :: a.batch[i].eid in a.state.entries
  }

  lemma EnqueueSince(a: Visit, s: State, w: nat, eid: Uuid, maxRetries: int, createdAt: int, readable: bool,
      out: Outcome, time: int)
    requires Since(a, s, time) && CanEnqueue(s, w, eid, out) && createdAt > time && BatchKnown(a)
    ensures Since(a, DoEnqueue(s, w, eid, maxRetries, createdAt, readable, out), time)
  {
    var t := DoEnqueue(s, w, eid, maxRetries, createdAt, readable, out);
    forall x | x in a.state.entries
      ensures Worn(a, t, x) && Left(t, x) == Left(s, x)
    {
      assert Worn(a, s, x);
      EnqueueWears(a, s, w, eid, maxRetries, createdAt, readable, out, x);
    }
  }

  /** An update that is applied leaves the current entry fewer retries and the others what they had. */
  lemma MarkWears(s: State, out: Outcome, x: Uuid)
    requires CanMark(s, 0) && out.Applied() && O.Fresh(s) && E.LoopsInv(s.loops) && L.LoopsGenuine(s.loops, s.entries)
    ensures
      var t := DoMark(s, 0, out);
      && (x == Current(s, 0).eid ==> Left(t, x) < Left(s, x))
      && (x != Current(s, 0).eid ==> Left(t, x) == Left(s, x) && (x in s.progress ==> t.progress[x] == s.progress[x]))
  {
    var c := Current(s, 0);
    assert E.SoundLoop(s.loops[0]) && L.Genuine(s.loops[0], s.entries);
    assert E.SoundTurn(c, s.loops[0].pc) && E.Retriable(c) && O.Current0(c, s.progress);
  }

  lemma MarkSince(a: Visit, s: State, out: Outcome, time: int)
    requires Since(a, s, time) && CanMark(s, 0) && out.Applied()
    requires O.Fresh(s) && E.LoopsInv(s.loops) && L.LoopsGenuine(s.loops, s.entries)
    requires BatchKnown(a)
    ensures Since(a, DoMark(s, 0, out), time)
  {
    var t := DoMark(s, 0, out);
    forall x | x in a.state.entries
      ensures Worn(a, t, x)
    {
      MarkedWorn(a, s, out, x, time);
    }
    forall i | a.from <= i <= s.loops[0].index
      ensures Left(t, a.batch[i].eid) < Left(a.state, a.batch[i].eid)
    {
      MarkedLess(a, s, out, i, time);
    }
  }

  lemma MarkedLess(a: Visit, s: State, out: Outcome, i: nat, time: int)
    requires Since(a, s, time) && CanMark(s, 0) && out.Applied() && a.from <= i <= s.loops[0].index
    requires O.Fresh(s) && E.LoopsInv(s.loops) && L.LoopsGenuine(s.loops, s.entries)
    requires BatchKnown(a)
    ensures Left(DoMark(s, 0, out), a.batch[i].eid) < Left(a.state, a.batch[i].eid)
  {
    assert Worn(a, s, a.batch[i].eid);
    MarkWears(s, out, a.batch[i].eid);
  }

  lemma MarkedWorn(a: Visit, s: State, out: Outcome, x: Uuid, time: int)
    requires Since(a, s, time) && CanMark(s, 0) && out.Applied() && x in a.state.entries
    requires O.Fresh(s) && E.LoopsInv(s.loops) && L.LoopsGenuine(s.loops, s.entries)
    ensures Worn(a, DoMark(s, 0, out), x)
  {
    var k := s.loops[0].index;
    assert Current(s, 0).eid == a.batch[k].eid && ListsFrom(a.batch, a.from, a.batch[k].eid);
    assert Worn(a, s, x);
    MarkWears(s, out, x);
  }

  lemma ApartSince(a: Visit, s: State, t: State, time: int)
    requires Since(a, s, time) && E.Apart(s, t)
    ensures Since(a, t, time)
  {
    TurnSince(a, s, t, time);
  }

  lemma RetrySince(a: Visit, s: State, op: RetryOp, time: int)
    requires Since(a, s, time) && CanRetry(s, 0, op) && Fair(Retry(0, op), time) && !op.List? && BatchKnown(a)
    requires O.Fresh(s) && E.LoopsInv(s.loops) && L.LoopsGenuine(s.loops, s.entries)
    ensures Since(a, DoRetry(s, 0, op), time)
  {
    if op.Mark? {
      MarkSince(a, s, op.out, time);
    } else {
      TurnSince(a, s, DoRetry(s, 0, op), time);
    }
  }

  lemma StepSince(a: Visit, s: State, step: Step, time: int)
    requires Since(a, s, time) && Enabled(s, step) && Fair(step, time) && BatchKnown(a)
    requires !(step.Retry? && step.rop.List?)
    requires O.Fresh(s) && E.LoopsInv(s.loops) && L.LoopsGenuine(s.loops, s.entries)
    ensures Since(a, Apply(s, step), time)
  {
    match step
    case Send(op) =>
      E.SendIsApart(s, op);
      ApartSince(a, s, DoSend(s, op), time);
    case Work(w, Enqueue(eid, maxRetries, createdAt, readable, out)) =>
      EnqueueSince(a, s, w, eid, maxRetries, createdAt, readable, out, time);
    case Work(w, op) =>
      E.WorkIsApart(s, w, op);
      ApartSince(a, s, DoWork(s, w, op), time);
    case Retry(_, op) => RetrySince(a, s, op, time);
    case Acknowledge(h, op) =>
      E.AckIsApart(s, h, op);
      ApartSince(a, s, DoAck(s, h, op), time);
  }

  /** What one listing and the next have to do with each other. */
  ghost predicate Round(a: Visit, b: Visit, time: int) {
    && BatchKnown(a) && 0 !in b.state.loops && Since(a, b.state, time)
    && IsListing(b.state, b.batch) && b.from == 0
  }

  lemma ListBegins(s: State, batch: seq<Snapshot>, time: int)
    requires CanList(s, 0, batch) && s.progress.Keys == s.entries.Keys
    ensures BatchKnown(Visit(s, batch, 0))
    ensures Since(Visit(s, batch, 0), s.(loops := s.loops[0 := Loop(batch, 0, Next)]), time)
  {
    forall i | 0 <= i < |batch|
      ensures batch[i].eid in s.entries
    {
      assert Reads(s, batch[i]);
    }
  }

  ghost predicate Chain(visits: seq<Visit>, time: int) {
    forall j | 0 < j < |visits| :: Round(visits[j - 1], visits[j], time)
  }

  /** The listings of a run follow each other. `a` is the last one before it. */
  lemma {:induction false} VisitsChain(a: Visit, steps: seq<Step>, more: seq<Step>, time: int)
    requires CanRun(Init, steps) && O.AllSingle(steps) && CanRun(Exec(Init, steps), more) && AllFair(more, time)
    requires BatchKnown(a) && Since(a, Exec(Init, steps), time)
    ensures Chain([a] + Visits(Exec(Init, steps), more), time)
    decreases |more|
  {
    var s := Exec(Init, steps);
    if |more| > 0 {
      var step := more[0];
      assert Fair(step, time);
      ExecSnoc(Init, steps, step);
      O.LoopFacts(steps);
      if step.Retry? && step.rop.List? {
        var b := Visit(s, step.rop.batch, 0);
        ListBegins(s, step.rop.batch, time);
        VisitsChain(b, steps + [step], more[1..], time);
        ChainGrows(a, b, Visits(Apply(s, step), more[1..]), time);
        assert Visits(s, more) == [b] + Visits(Apply(s, step), more[1..]);
      } else {
        StepSince(a, s, step, time);
        VisitsChain(a, steps + [step], more[1..], time);
      }
    }
  }

  lemma ChainGrows(a: Visit, b: Visit, rest: seq<Visit>, time: int)
    requires Round(a, b, time) && Chain([b] + rest, time)
    ensures Chain([a] + ([b] + rest), time)
  {
    var visits := [a] + ([b] + rest);
    forall j | 0 < j < |visits|
      ensures Round(visits[j - 1], visits[j], time)
    {
      if j > 1 {
        assert visits[j] == ([b] + rest)[j - 1] && visits[j - 1] == ([b] + rest)[j - 2];
      }
    }
  }

  // ----- being passed over ------------------------------------------------------------------------

  /** The entries that a listing prefers to one created at `time`. */
  ghost function Older(s: State, time: int): set<Uuid> {
    set x | x in s.entries && Listable(s, x) && s.entries[x].createdAt < time
  }

  ghost predicate DistinctTimes(s: State, time: int) {
    forall x, y | x in s.entries && y in s.entries && s.entries[x].createdAt == s.entries[y].createdAt <= time :: x == y
  }

  /** Between two states, entries only lose retries, and only entries newer than `time` appear. */
  ghost predicate Fades(s: State, t: State, time: int) {
    && (forall x | x in s.entries :: x in t.entries && t.entries[x] == s.entries[x] && Left(t, x) <= Left(s, x))
    && (forall x | x in t.entries && x !in s.entries :: t.entries[x].createdAt > time)
  }

  lemma RoundFades(a: Visit, b: Visit, time: int)
    requires Round(a, b, time)
    ensures Fades(a.state, b.state, time)
  {
    forall x | x in a.state.entries
      ensures x in b.state.entries && b.state.entries[x] == a.state.entries[x] && Left(b.state, x) <= Left(a.state, x)
    {
      assert Worn(a, b.state, x);
    }
  }

  lemma {:induction false} ChainFades(visits: seq<Visit>, time: int, j: nat)
    requires Chain(visits, time) && j < |visits|
    ensures Fades(visits[0].state, visits[j].state, time)
  {
    if j > 0 {
      ChainFades(visits, time, j - 1);
      RoundFades(visits[j - 1], visits[j], time);
    }
  }

  lemma ListableLeft(s: State, x: Uuid)
    ensures x in s.entries ==> (Listable(s, x) <==> Left(s, x) > 0)
  {}

  ghost function Ids(batch: seq<Snapshot>): set<Uuid> {
    set i | 0 <= i < |batch| :: batch[i].eid
  }

  lemma IdsSnoc(batch: seq<Snapshot>, last: Snapshot)
    ensures Ids(batch + [last]) == Ids(batch) + {last.eid}
  {
    var more := batch + [last];
    assert forall i | 0 <= i < |batch| :: more[i] == batch[i];
    assert more[|batch|] == last;
    forall x | x in Ids(batch)
      ensures x in Ids(more)
    {
      var i :| 0 <= i < |batch| && batch[i].eid == x;
      assert more[i].eid == x;
    }
  }

  lemma {:induction false} IdsCount(batch: seq<Snapshot>)
    requires forall i, j | 0 <= i < j < |batch| :: batch[i].eid != batch[j].eid
    ensures |Ids(batch)| == |batch|
    decreases |batch|
  {
    if |batch| > 0 {
      var rest := batch[..|batch| - 1];
      assert batch == rest + [batch[|batch| - 1]];
      IdsCount(rest);
      IdsSnoc(rest, batch[|batch| - 1]);
    }
  }

  /** A listing has at most a hundred entries, all different and retryable, and leaves a retryable one out
      only if it has a hundred others, none of them newer. */
  lemma LeftOutByHundred(s: State, batch: seq<Snapshot>, e: Uuid)
    requires IsListing(s, batch)
    ensures |batch| <= 100 && forall i, j | 0 <= i < j < |batch| :: batch[i].eid != batch[j].eid
    ensures forall i | 0 <= i < |batch| :: Listable(s, batch[i].eid)
    ensures Listable(s, e) && !Lists(batch, e) ==>
      |batch| == 100 && forall i | 0 <= i < |batch| :: s.entries[batch[i].eid].createdAt <= s.entries[e].createdAt
  {
    forall i | 0 <= i < |batch|
      ensures Listable(s, batch[i].eid) && batch[i].entry == s.entries[batch[i].eid]
    {
      assert Reads(s, batch[i]);
    }
  }

  /** A listing that passes an entry over lists a hundred older ones. */
  lemma ListsOlder(v: Visit, e: Uuid)
    requires IsListing(v.state, v.batch) && Listable(v.state, e) && !Lists(v.batch, e)
    requires DistinctTimes(v.state, v.state.entries[e].createdAt)
    ensures |Ids(v.batch)| == LIST_LIMIT && Ids(v.batch) <= Older(v.state, v.state.entries[e].createdAt)
  {
    IdsCount(v.batch);
    forall i | 0 <= i < |v.batch|
      ensures v.batch[i].eid in Older(v.state, v.state.entries[e].createdAt)
    {
      assert Reads(v.state, v.batch[i]) && v.batch[i].eid != e;
    }
  }

  // ----- how often an entry is passed over --------------------------------------------------------

  /** A listing that passes over the entry `e`, created at `time`. */
  ghost predicate Passes(v: Visit, e: Uuid, time: int) {
    && IsListing(v.state, v.batch) && Listable(v.state, e) && v.state.entries[e].createdAt == time
    && !Lists(v.batch, e) && DistinctTimes(v.state, time)
  }

  /** The listing seen as a choice among the entries older than `time`. */
  ghost function Choice(v: Visit, time: int): Turn<Uuid> {
    Turn(map x | x in Older(v.state, time) :: Left(v.state, x), Ids(v.batch))
  }

  ghost function Created(entries: map<Uuid, Entry>): map<Uuid, int> {
    map x | x in entries :: entries[x].createdAt
  }

  lemma OlderAtStart(s: State, t: State, time: int)
    requires Fades(s, t, time)
    ensures forall x | x in Older(t, time) :: x in Older(s, time) && t.entries[x] == s.entries[x]
  {
    forall x | x in Older(t, time)
      ensures x in Older(s, time)
    {
      ListableLeft(s, x);
      ListableLeft(t, x);
    }
  }

  /** A listing that passes `e` over chooses the hundred oldest entries. */
  lemma PassesChooses(s: State, v: Visit, e: Uuid, time: int)
    requires Passes(v, e, time) && Fades(s, v.state, time)
    ensures Chooses(Choice(v, time), Created(s.entries), LIST_LIMIT)
  {
    ListsOlder(v, e);
    OlderAtStart(s, v.state, time);
    forall x | x in Older(v.state, time)
      ensures Left(v.state, x) > 0
    {
      ListableLeft(v.state, x);
    }
    forall x, y | x in Ids(v.batch) && y in Older(v.state, time) && y !in Ids(v.batch)
      ensures s.entries[x].createdAt < s.entries[y].createdAt
    {
      ListedIsOlder(v, time, x, y);
    }
  }

  lemma ListedIsOlder(v: Visit, time: int, x: Uuid, y: Uuid)
    requires IsListing(v.state, v.batch) && DistinctTimes(v.state, time)
    requires x in Ids(v.batch) && y in Older(v.state, time) && y !in Ids(v.batch)
    ensures x in v.state.entries && v.state.entries[x].createdAt < v.state.entries[y].createdAt
  {
    var i :| 0 <= i < |v.batch| && v.batch[i].eid == x;
    assert Reads(v.state, v.batch[i]) && !Lists(v.batch, y);
  }

  lemma RoundFollows(a: Visit, b: Visit, time: int)
    requires Round(a, b, time) && a.from == 0
    ensures Follows(Choice(a, time), Choice(b, time))
  {
    RoundFades(a, b, time);
    OlderAtStart(a.state, b.state, time);
    forall x | x in Older(b.state, time) && x in Ids(a.batch)
      ensures Left(b.state, x) < Left(a.state, x)
    {
      var i :| 0 <= i < |a.batch| && a.batch[i].eid == x;
      assert Left(b.state, a.batch[i].eid) < Left(a.state, a.batch[i].eid);
    }
  }

  /** While it is not listed, an entry stays as it is. */
  lemma {:induction false} StaysListable(visits: seq<Visit>, e: Uuid, time: int, j: nat)
    requires Chain(visits, time) && j < |visits| && Listable(visits[0].state, e)
    requires forall i | 0 <= i < j :: !ListsFrom(visits[i].batch, visits[i].from, e)
    ensures Listable(visits[j].state, e) && visits[j].state.entries[e] == visits[0].state.entries[e]
  {
    if j > 0 {
      StaysListable(visits, e, time, j - 1);
      assert Round(visits[j - 1], visits[j], time) && Worn(visits[j - 1], visits[j].state, e);
    }
  }

  lemma StaysDistinct(s: State, t: State, time: int)
    requires Fades(s, t, time) && DistinctTimes(s, time)
    ensures DistinctTimes(t, time)
  {}

  lemma OlderFade(s: State, t: State, time: int, most: nat)
    requires Fades(s, t, time) && forall x | x in Older(s, time) :: Left(s, x) <= most
    ensures Older(t, time) <= Older(s, time) && forall x | x in Older(t, time) :: Left(t, x) <= most
  {
    OlderAtStart(s, t, time);
  }

  /** `first` is the state before the listings; none of the first `j` lists `e`. */
  lemma PassesAt(first: Visit, visits: seq<Visit>, e: Uuid, time: int, j: nat)
    requires Chain([first] + visits, time) && !ListsFrom(first.batch, first.from, e) && j < |visits|
    requires Listable(first.state, e) && first.state.entries[e].createdAt == time && DistinctTimes(first.state, time)
    requires forall i | 0 <= i <= j :: !Lists(visits[i].batch, e)
    ensures Fades(first.state, visits[j].state, time) && Passes(visits[j], e, time)
  {
    var all := [first] + visits;
    assert visits[j] == all[j + 1] && Round(all[j], all[j + 1], time);
    assert forall i | 0 < i <= j :: all[i] == visits[i - 1];
    forall i | 0 <= i <= j
      ensures !ListsFrom(all[i].batch, all[i].from, e)
    {
      assert i > 0 ==> !Lists(visits[i - 1].batch, e);
    }
    StaysListable(all, e, time, j + 1);
    ChainFades(all, time, j + 1);
    StaysDistinct(first.state, visits[j].state, time);
  }

  lemma ChoiceChooses(first: Visit, visits: seq<Visit>, e: Uuid, time: int, j: nat)
    requires Chain([first] + visits, time) && !ListsFrom(first.batch, first.from, e) && j < |visits|
    requires Listable(first.state, e) && first.state.entries[e].createdAt == time && DistinctTimes(first.state, time)
    requires forall i | 0 <= i <= j :: !Lists(visits[i].batch, e)
    ensures Chooses(Choice(visits[j], time), Created(first.state.entries), LIST_LIMIT)
  {
    PassesAt(first, visits, e, time, j);
    PassesChooses(first.state, visits[j], e, time);
  }

  lemma ChoicesLine(first: Visit, visits: seq<Visit>, e: Uuid, time: int, turns: seq<Turn<Uuid>>)
    requires Chain([first] + visits, time) && !ListsFrom(first.batch, first.from, e) && |turns| <= |visits|
    requires Listable(first.state, e) && first.state.entries[e].createdAt == time && DistinctTimes(first.state, time)
    requires forall i | 0 <= i < |turns| :: !Lists(visits[i].batch, e) && turns[i] == Choice(visits[i], time)
    ensures Line(turns, Created(first.state.entries), LIST_LIMIT)
  {
    forall j | 0 <= j < |turns|
      ensures Chooses(turns[j], Created(first.state.entries), LIST_LIMIT)
    {
      ChoiceChooses(first, visits, e, time, j);
    }
    forall j | 0 < j < |turns|
      ensures Follows(turns[j - 1], turns[j])
    {
      ChoiceFollows(first, visits, time, j);
    }
  }

  lemma ChoiceFollows(first: Visit, visits: seq<Visit>, time: int, j: nat)
    requires Chain([first] + visits, time) && 0 < j < |visits|
    ensures Follows(Choice(visits[j - 1], time), Choice(visits[j], time))
  {
    var all := [first] + visits;
    assert visits[j] == all[j + 1] && visits[j - 1] == all[j] && Round(all[j], all[j + 1], time);
    assert Round(all[j - 1], all[j], time);
    RoundFollows(visits[j - 1], visits[j], time);
  }

  lemma NotAllPass(first: Visit, visits: seq<Visit>, e: Uuid, time: int, most: nat, q: nat)
    requires Chain([first] + visits, time) && !ListsFrom(first.batch, first.from, e) && q * most < |visits|
    requires Listable(first.state, e) && first.state.entries[e].createdAt == time && DistinctTimes(first.state, time)
    requires forall x | x in Older(first.state, time) :: Left(first.state, x) <= most
    requires |Older(first.state, time)| < q * LIST_LIMIT + LIST_LIMIT
    ensures exists j | 0 <= j <= q * most :: Lists(visits[j].batch, e)
  {
    if forall j | 0 <= j <= q * most :: !Lists(visits[j].batch, e) {
      var turns := seq(q * most + 1, i requires 0 <= i < |visits| => Choice(visits[i], time));
      ChoicesLine(first, visits, e, time, turns);
      FirstFades(first, visits, time);
      OlderFade(first.state, visits[0].state, time, most);
      SubsetSize(turns[0].left.Keys, Older(first.state, time));
      LineIsShort(turns, Created(first.state.entries), LIST_LIMIT, q, most);
    }
  }

  lemma FirstFades(first: Visit, visits: seq<Visit>, time: int)
    requires Chain([first] + visits, time) && |visits| > 0
    ensures Fades(first.state, visits[0].state, time)
  {
    var all := [first] + visits;
    assert all[0] == first && all[1] == visits[0] && Round(all[0], all[1], time);
    RoundFades(first, visits[0], time);
  }

  // ----- from being listed to being taken ---------------------------------------------------------

  /** In the course of the run, the loop takes the entry in order to retry it. */
  ghost predicate Takes(s: State, more: seq<Step>, e: Uuid)
    requires CanRun(s, more)
    decreases |more|
  {
    |more| > 0 &&
    ((more[0] == Retry(0, Take) && Current(s, 0).eid == e) || Takes(Apply(s, more[0]), more[1..], e))
  }

  /** The loop has the entry in its batch and has not taken it yet. */
  predicate Pending(s: State, e: Uuid) {
    && Busy(s, 0)
    && exists i | s.loops[0].index <= i < |s.loops[0].batch| ::
         s.loops[0].batch[i].eid == e && (i == s.loops[0].index ==> s.loops[0].pc.Next?)
  }

  /** The loop has taken the entry and not updated it yet. */
  predicate UnderRetry(s: State, e: Uuid) {
    Busy(s, 0) && Current(s, 0).eid == e && !s.loops[0].pc.Next?
  }

  lemma StepKeepsPending(s: State, step: Step, e: Uuid)
    requires Enabled(s, step) && O.Single(step) && Pending(s, e)
    requires !(step == Retry(0, Take) && Current(s, 0).eid == e)
    ensures Pending(Apply(s, step), e)
  {
    match step
    case Send(op) => E.SendIsApart(s, op);
    case Work(w, Enqueue(eid, maxRetries, createdAt, readable, out)) =>
      EnqueueKeepsLoops(s, w, eid, maxRetries, createdAt, readable, out);
    case Work(w, op) => E.WorkIsApart(s, w, op);
    case Retry(_, op) => RetryKeepsPending(s, op, e);
    case Acknowledge(h, op) => E.AckIsApart(s, h, op);
  }

  lemma EnqueueKeepsLoops(s: State, w: nat, eid: Uuid, maxRetries: int, createdAt: int, readable: bool, out: Outcome)
    requires CanEnqueue(s, w, eid, out)
    ensures DoEnqueue(s, w, eid, maxRetries, createdAt, readable, out).loops == s.loops
  {}

  lemma RetryKeepsPending(s: State, op: RetryOp, e: Uuid)
    requires CanRetry(s, 0, op) && Pending(s, e) && !(op.Take? && Current(s, 0).eid == e)
    ensures Pending(DoRetry(s, 0, op), e)
  {
    var x := s.loops[0];
    var i :| x.index <= i < |x.batch| && x.batch[i].eid == e && (i == x.index ==> x.pc.Next?);
    var t := DoRetry(s, 0, op);
    assert t.loops[0].batch[i].eid == e;
  }

  /** An entry that is pending is taken before the next listing. */
  lemma {:induction false} PendingTaken(s: State, more: seq<Step>, e: Uuid)
    requires CanRun(s, more) && O.AllSingle(more) && Pending(s, e) && !Takes(s, more, e)
    ensures Visits(s, more) == [] && 0 in Exec(s, more).loops
    decreases |more|
  {
    if |more| > 0 {
      StepKeepsPending(s, more[0], e);
      PendingTaken(Apply(s, more[0]), more[1..], e);
    }
  }

  /** An entry that is listed is taken before the listing after that, and before the loop is idle. */
  lemma {:induction false} ListedIsTaken(s: State, more: seq<Step>, e: Uuid, j: nat)
    requires CanRun(s, more) && O.AllSingle(more) && j < |Visits(s, more)| && Lists(Visits(s, more)[j].batch, e)
    requires j + 1 < |Visits(s, more)| || 0 !in Exec(s, more).loops
    ensures Takes(s, more, e)
    decreases |more|
  {
    var step := more[0];
    var t, rest := Apply(s, step), more[1..];
    if step.Retry? && step.rop.List? {
      assert Visits(s, more)[1..] == Visits(t, rest);
      if j == 0 {
        ListMakesPending(s, step.rop.batch, e);
        if !Takes(t, rest, e) {
          PendingTaken(t, rest, e);
        }
      } else {
        ListedIsTaken(t, rest, e, j - 1);
      }
    } else {
      ListedIsTaken(t, rest, e, j);
    }
  }

  lemma ListMakesPending(s: State, batch: seq<Snapshot>, e: Uuid)
    requires CanList(s, 0, batch) && Lists(batch, e)
    ensures Pending(DoRetry(s, 0, List(batch)), e)
  {
    var i :| 0 <= i < |batch| && batch[i].eid == e;
    assert DoRetry(s, 0, List(batch)).loops[0].batch[i].eid == e;
  }

  // ----- main result ------------------------------------------------------------------------------

  lemma AllFairIsSingle(more: seq<Step>, time: int)
    requires AllFair(more, time)
    ensures O.AllSingle(more)
  {}

  /** What the loop still has ahead of it. */
  function Ahead(s: State): Visit {
    if 0 in s.loops then Visit(s, s.loops[0].batch, s.loops[0].index) else Visit(s, [], 0)
  }

  lemma AheadFacts(s: State, time: int)
    requires s.progress.Keys == s.entries.Keys
    requires 0 in s.loops ==> s.loops[0].index < |s.loops[0].batch| && L.Genuine(s.loops[0], s.entries)
    ensures BatchKnown(Ahead(s)) && Since(Ahead(s), s, time)
  {}

  lemma LoopKnown(s: State)
    requires L.Inv(s) && 0 in s.loops
    ensures s.loops[0].index < |s.loops[0].batch| && L.Genuine(s.loops[0], s.entries)
  {
    assert L.LoopRun(s.loops[0], 0, s.runs) && L.Genuine(s.loops[0], s.entries);
  }

  lemma StartFacts(steps: seq<Step>, time: int)
    requires CanRun(Init, steps) && O.AllSingle(steps)
    ensures
      var s := Exec(Init, steps);
      BatchKnown(Ahead(s)) && Since(Ahead(s), s, time)
  {
    var s := Exec(Init, steps);
    O.LoopFacts(steps);
    L.RunKeepsInv(Init, steps);
    if 0 in s.loops {
      LoopKnown(s);
    }
    AheadFacts(s, time);
  }

  lemma NotAhead(s: State, e: Uuid)
    requires 0 in s.loops ==> s.loops[0].index < |s.loops[0].batch|
    requires !Pending(s, e) && !UnderRetry(s, e)
    ensures !ListsFrom(Ahead(s).batch, Ahead(s).from, e)
  {}

  /** A retryable entry that is not under retry, and whose older ones have at most `most` retries left each. */
  ghost predicate Waits(s: State, e: Uuid, most: nat) {
    && Listable(s, e) && !UnderRetry(s, e) && DistinctTimes(s, s.entries[e].createdAt)
    && forall x | x in Older(s, s.entries[e].createdAt) :: Left(s, x) <= most
  }

  /** A run with more than `n` listings, and either one more or an idle loop at its end. */
  ghost predicate ListsMoreThan(s: State, more: seq<Step>, n: nat)
    requires CanRun(s, more)
  {
    |Visits(s, more)| > n + 1 || (|Visits(s, more)| > n && 0 !in Exec(s, more).loops)
  }

  ghost function PassedOver(s: State, e: Uuid, most: nat): nat
    requires e in s.entries
  {
    |Older(s, s.entries[e].createdAt)| / 100 * most
  }

  /** One of the listings lists the entry, since not all can pass it over. */
  lemma OneListsIt(first: Visit, s: State, more: seq<Step>, e: Uuid, most: nat)
    requires CanRun(s, more) && O.AllSingle(more) && first.state == s
    requires Waits(s, e, most) && ListsMoreThan(s, more, PassedOver(s, e, most))
    requires Chain([first] + Visits(s, more), s.entries[e].createdAt) && !ListsFrom(first.batch, first.from, e)
    ensures Takes(s, more, e)
  {
    var time := s.entries[e].createdAt;
    NotAllPass(first, Visits(s, more), e, time, most, |Older(s, time)| / LIST_LIMIT);
    var j :| 0 <= j <= PassedOver(s, e, most) && Lists(Visits(s, more)[j].batch, e);
    ListedIsTaken(s, more, e, j);
  }

  /** With one loop whose updates are applied, and distinct creation times: an entry with `r` older
      retryable entries, each with at most `most` retries left, is taken for a retry after at most
      floor(r / 100) * most + 1 more listings, before the next one and before the loop is idle. The run may
      begin anywhere, newer entries may keep arriving, and only an entry whose retry is already under
      way is not waiting. */
  lemma RetriedInTurn(steps: seq<Step>, more: seq<Step>, e: Uuid, most: nat)
    requires CanRun(Init, steps) && O.AllSingle(steps) && CanRun(Exec(Init, steps), more)
    requires
      var s := Exec(Init, steps);
      && Waits(s, e, most) && AllFair(more, s.entries[e].createdAt)
      && ListsMoreThan(s, more, PassedOver(s, e, most))
    ensures Takes(Exec(Init, steps), more, e)
  {
    var s := Exec(Init, steps);
    var time := s.entries[e].createdAt;
    AllFairIsSingle(more, time);
    StartFacts(steps, time);
    if !Pending(s, e) {
      NotAhead(s, e);
      VisitsChain(Ahead(s), steps, more, time);
      OneListsIt(Ahead(s), s, more, e, most);
    } else if !Takes(s, more, e) {
      PendingTaken(s, more, e);
    }
  }
}
