/** Message conservation: where every message is, in every reachable state. */
module Conservation {
  import opened Model
  import opened Pipeline

  // ----- the invariant --------------------------------------------------------------------------

  predicate RowKeys(rows: map<Uuid, Row>, status: map<Uuid, Status>, place: map<Uuid, Place>) {
    place.Keys == rows.Keys && status.Keys == rows.Keys
  }

  predicate EntryKeys(entries: map<Uuid, Entry>, progress: map<Uuid, Progress>, refused: map<Uuid, nat>) {
    progress.Keys == entries.Keys && refused.Keys == entries.Keys
  }

  /** The row of a serialized message exists and lists the same recipients. */
  predicate Known(rows: map<Uuid, Row>, p: Payload) {
    p.id in rows && rows[p.id].recipients == p.recipients
  }

  predicate PushedKnown(rows: map<Uuid, Row>, pushed: seq<Payload>) {
    forall n | 0 <= n < |pushed| :: Known(rows, pushed[n])
  }

  predicate WorkKnown(rows: map<Uuid, Row>, work: map<nat, Task>) {
    forall w | w in work :: Known(rows, work[w].payload)
  }

  predicate EntriesKnown(rows: map<Uuid, Row>, entries: map<Uuid, Entry>) {
    forall e | e in entries :: Known(rows, entries[e].payload)
  }

  /** The list in Redis is what was pushed and not popped, newest first. */
  predicate QueueInv(queue: seq<Payload>, pushed: seq<Payload>, popped: nat) {
    && |queue| == |pushed| - popped
    && (forall i | 0 <= i < |queue| :: queue[i] == pushed[|pushed| - 1 - i])
  }

  /** No message is pushed twice. */
  predicate OrderInv(pushed: seq<Payload>, order: map<Uuid, nat>) {
    && (forall n | 0 <= n < |pushed| :: pushed[n].id in order && order[pushed[n].id] == n)
    && (forall id | id in order :: order[id] < |pushed| && pushed[order[id]].id == id)
  }

  predicate Unpushed(g: Place) { g.Inserted? || g.Abandoned? }

  predicate PlaceInv(place: map<Uuid, Place>, order: map<Uuid, nat>, popped: nat) {
    && order.Keys <= place.Keys
    && (forall id | id in place :: Unpushed(place[id]) <==> id !in order)
    && (forall id | id in order :: place[id].Queued? <==> order[id] >= popped)
  }

  predicate Held(g: Place) { g.InFlight? || g.Doubted? }

  function WorkPlace(w: nat, pc: WorkPc): Place {
    if pc == MarkingFailed then Doubted(w) else InFlight(w)
  }

  predicate WorkInv(place: map<Uuid, Place>, work: map<nat, Task>) {
    && (forall w | w in work ::
          work[w].payload.id in place && place[work[w].payload.id] == WorkPlace(w, work[w].pc))
    && (forall id | id in place && Held(place[id]) ::
          place[id].w in work && work[place[id].w].payload.id == id)
  }

  /** No message has two entries. */
  predicate EntryInv(entries: map<Uuid, Entry>, entryOf: map<Uuid, Uuid>) {
    && (forall e | e in entries :: entries[e].payload.id in entryOf && entryOf[entries[e].payload.id] == e)
    && (forall id | id in entryOf :: entryOf[id] in entries && entries[entryOf[id]].payload.id == id)
  }

  predicate MayHaveEntry(g: Place) { g.Dead? || g.Doubted? || g.EnqueueFailed? }

  predicate DeadInv(place: map<Uuid, Place>, entryOf: map<Uuid, Uuid>) {
    && (forall id | id in entryOf :: id in place && MayHaveEntry(place[id]))
    && (forall id | id in place && place[id].Dead? :: id in entryOf)
  }

  predicate AcceptedInv(order: map<Uuid, nat>, accepted: set<Uuid>) {
    accepted <= order.Keys
  }

  predicate Inv(s: State) {
    && RowKeys(s.rows, s.status, s.place)
    && EntryKeys(s.entries, s.progress, s.refused)
    && PushedKnown(s.rows, s.pushed)
    && WorkKnown(s.rows, s.work)
    && EntriesKnown(s.rows, s.entries)
    && QueueInv(s.queue, s.pushed, s.popped)
    && OrderInv(s.pushed, s.order)
    && PlaceInv(s.place, s.order, s.popped)
    && WorkInv(s.place, s.work)
    && EntryInv(s.entries, s.entryOf)
    && DeadInv(s.place, s.entryOf)
    && AcceptedInv(s.order, s.accepted)
  }

  // ----- how one change affects each part of the invariant ---------------------------------------

  lemma RowKeysMove(rows: map<Uuid, Row>, status: map<Uuid, Status>, place: map<Uuid, Place>, id: Uuid, g: Place)
    requires RowKeys(rows, status, place) && id in rows
    ensures RowKeys(rows, status, place[id := g])
  {}

  lemma EntryKeysAdd(entries: map<Uuid, Entry>, progress: map<Uuid, Progress>, refused: map<Uuid, nat>,
      eid: Uuid, e: Entry, g: Progress)
    requires EntryKeys(entries, progress, refused)
    ensures EntryKeys(entries[eid := e], progress[eid := g], refused[eid := 0])
  {}

  lemma KnownInsert(rows: map<Uuid, Row>, pushed: seq<Payload>, work: map<nat, Task>, entries: map<Uuid, Entry>,
      id: Uuid, r: Row)
    requires PushedKnown(rows, pushed) && WorkKnown(rows, work) && EntriesKnown(rows, entries) && id !in rows
    ensures var rows' := rows[id := r];
      PushedKnown(rows', pushed) && WorkKnown(rows', work) && EntriesKnown(rows', entries)
  {}

  lemma KnownWork(rows: map<Uuid, Row>, work: map<nat, Task>, w: nat, x: Task)
    requires WorkKnown(rows, work) && Known(rows, x.payload)
    ensures WorkKnown(rows, work[w := x]) && WorkKnown(rows, work - {w})
  {}

  lemma QueuePush(rows: map<Uuid, Row>, queue: seq<Payload>, pushed: seq<Payload>, popped: nat, p: Payload)
    requires QueueInv(queue, pushed, popped) && PushedKnown(rows, pushed) && Known(rows, p)
    ensures QueueInv([p] + queue, pushed + [p], popped) && PushedKnown(rows, pushed + [p])
  {}

  lemma QueuePop(queue: seq<Payload>, pushed: seq<Payload>, popped: nat)
    requires QueueInv(queue, pushed, popped) && |queue| > 0
    ensures popped < |pushed| && queue[|queue| - 1] == pushed[popped]
    ensures QueueInv(queue[..|queue| - 1], pushed, popped + 1)
  {}

  lemma PlaceInsert(place: map<Uuid, Place>, order: map<Uuid, nat>, popped: nat, id: Uuid, g: Place)
    requires PlaceInv(place, order, popped) && (id in place ==> Unpushed(place[id])) && Unpushed(g)
    ensures PlaceInv(place[id := g], order, popped)
  {}

  lemma OrderPush(pushed: seq<Payload>, order: map<Uuid, nat>, p: Payload)
    requires OrderInv(pushed, order) && p.id !in order
    ensures OrderInv(pushed + [p], order[p.id := |pushed|])
  {}

  lemma PlacePush(place: map<Uuid, Place>, order: map<Uuid, nat>, popped: nat, id: Uuid, n: nat)
    requires PlaceInv(place, order, popped) && id in place && id !in order && popped <= n
    ensures PlaceInv(place[id := Queued], order[id := n], popped)
  {}

  lemma PlacePop(place: map<Uuid, Place>, pushed: seq<Payload>, order: map<Uuid, nat>, popped: nat, g: Place)
    requires PlaceInv(place, order, popped) && OrderInv(pushed, order) && popped < |pushed|
    requires !Unpushed(g) && !g.Queued?
    ensures PlaceInv(place[pushed[popped].id := g], order, popped + 1)
  {}

  /** Once popped, a message only moves between the places of popped messages. */
  lemma PlaceMove(place: map<Uuid, Place>, order: map<Uuid, nat>, popped: nat, id: Uuid, g: Place)
    requires PlaceInv(place, order, popped) && id in place && Popped(place[id]) && Popped(g)
    ensures PlaceInv(place[id := g], order, popped)
  {}

  predicate Popped(g: Place) { !Unpushed(g) && !g.Queued? }

  lemma WorkElsewhere(place: map<Uuid, Place>, work: map<nat, Task>, id: Uuid, g: Place)
    requires WorkInv(place, work) && (id in place ==> !Held(place[id])) && !Held(g)
    ensures WorkInv(place[id := g], work)
  {}

  lemma WorkStart(place: map<Uuid, Place>, work: map<nat, Task>, w: nat, x: Task)
    requires WorkInv(place, work) && w !in work && x.payload.id in place && !Held(place[x.payload.id])
    ensures WorkInv(place[x.payload.id := WorkPlace(w, x.pc)], work[w := x])
  {}

  lemma WorkMove(place: map<Uuid, Place>, work: map<nat, Task>, w: nat, pc: WorkPc)
    requires WorkInv(place, work) && w in work
    ensures WorkInv(place[work[w].payload.id := WorkPlace(w, pc)], work[w := work[w].(pc := pc)])
  {}

  lemma WorkEnd(place: map<Uuid, Place>, work: map<nat, Task>, w: nat, g: Place)
    requires WorkInv(place, work) && w in work && !Held(g)
    ensures WorkInv(place[work[w].payload.id := g], work - {w})
  {}

  lemma PopStartsWork(rows: map<Uuid, Row>, place: map<Uuid, Place>, work: map<nat, Task>,
      entryOf: map<Uuid, Uuid>, w: nat, x: Task)
    requires WorkKnown(rows, work) && Known(rows, x.payload) && WorkInv(place, work) && DeadInv(place, entryOf)
    requires w !in work && x.payload.id in place && place[x.payload.id].Queued? && x.pc != MarkingFailed
    ensures WorkKnown(rows, work[w := x])
    ensures var place' := place[x.payload.id := InFlight(w)]; WorkInv(place', work[w := x]) && DeadInv(place', entryOf)
  {
    KnownWork(rows, work, w, x);
    WorkStart(place, work, w, x);
    DeadMove(place, entryOf, x.payload.id, InFlight(w));
  }

  lemma EntryAdd(rows: map<Uuid, Row>, entries: map<Uuid, Entry>, entryOf: map<Uuid, Uuid>, eid: Uuid, e: Entry)
    requires EntryInv(entries, entryOf) && EntriesKnown(rows, entries)
    requires eid !in entries && e.payload.id !in entryOf && Known(rows, e.payload)
    ensures EntryInv(entries[eid := e], entryOf[e.payload.id := eid]) && EntriesKnown(rows, entries[eid := e])
  {}

  lemma DeadMove(place: map<Uuid, Place>, entryOf: map<Uuid, Uuid>, id: Uuid, g: Place)
    requires DeadInv(place, entryOf) && !g.Dead? && (id in place && MayHaveEntry(place[id]) ==> MayHaveEntry(g))
    ensures DeadInv(place[id := g], entryOf)
  {}

  lemma DeadAdd(place: map<Uuid, Place>, entryOf: map<Uuid, Uuid>, id: Uuid, eid: Uuid, g: Place)
    requires DeadInv(place, entryOf) && MayHaveEntry(g)
    ensures DeadInv(place[id := g], entryOf[id := eid])
  {}

  // ----- steps ----------------------------------------------------------------------------------

  lemma InsertKeepsInv(s: State, p: Payload, tenant: Uuid, out: Outcome)
    requires Inv(s) && CanInsert(s, p, out)
    ensures Inv(DoInsert(s, p, tenant, out))
  {
    if out.Applied() {
      var t := DoInsert(s, p, tenant, out);
      InsertedInv(s, t, p.id, Row(p.recipients, tenant), t.place[p.id]);
    }
  }

  lemma InsertedInv(s: State, t: State, id: Uuid, r: Row, g: Place)
    requires Inv(s) && id !in s.rows && Unpushed(g)
    requires t.rows == s.rows[id := r] && t.status == s.status[id := Pending] && t.place == s.place[id := g]
    requires t.queue == s.queue && t.pushed == s.pushed && t.popped == s.popped && t.order == s.order
    requires t.work == s.work && t.entries == s.entries && t.progress == s.progress && t.refused == s.refused
    requires t.entryOf == s.entryOf && t.accepted == s.accepted
    ensures Inv(t)
  {
    KnownInsert(s.rows, s.pushed, s.work, s.entries, id, r);
    PlaceInsert(s.place, s.order, s.popped, id, g);
    WorkElsewhere(s.place, s.work, id, g);
    DeadMove(s.place, s.entryOf, id, g);
  }

  lemma RefusedPushKeepsInv(s: State, id: Uuid)
    requires Inv(s) && CanPush(s, id)
    ensures Inv(DoPush(s, id, Refused))
  {
    AbandonedPlace(s, id);
  }

  lemma AbandonedPlace(s: State, id: Uuid)
    requires RowKeys(s.rows, s.status, s.place) && PlaceInv(s.place, s.order, s.popped) && WorkInv(s.place, s.work)
    requires DeadInv(s.place, s.entryOf) && CanPush(s, id)
    ensures
      var place' := s.place[id := Abandoned];
      && RowKeys(s.rows, s.status, place') && PlaceInv(place', s.order, s.popped)
      && WorkInv(place', s.work) && DeadInv(place', s.entryOf)
  {
    RowKeysMove(s.rows, s.status, s.place, id, Abandoned);
    PlaceInsert(s.place, s.order, s.popped, id, Abandoned);
    WorkElsewhere(s.place, s.work, id, Abandoned);
    DeadMove(s.place, s.entryOf, id, Abandoned);
  }

  /** What pushing a message does to the list and the order of pushes. */
  lemma PushedAgrees(s: State, p: Payload)
    requires QueueInv(s.queue, s.pushed, s.popped) && PushedKnown(s.rows, s.pushed) && OrderInv(s.pushed, s.order)
    requires Known(s.rows, p) && p.id !in s.order
    ensures QueueInv([p] + s.queue, s.pushed + [p], s.popped) && PushedKnown(s.rows, s.pushed + [p])
    ensures OrderInv(s.pushed + [p], s.order[p.id := |s.pushed|])
  {
    QueuePush(s.rows, s.queue, s.pushed, s.popped, p);
    OrderPush(s.pushed, s.order, p);
  }

  /** What it does to the places. */
  lemma PushedPlace(s: State, id: Uuid, n: nat)
    requires RowKeys(s.rows, s.status, s.place) && PlaceInv(s.place, s.order, s.popped) && WorkInv(s.place, s.work)
    requires DeadInv(s.place, s.entryOf) && CanPush(s, id) && s.popped <= n
    ensures
      var place' := s.place[id := Queued];
      && RowKeys(s.rows, s.status, place') && PlaceInv(place', s.order[id := n], s.popped)
      && WorkInv(place', s.work) && DeadInv(place', s.entryOf)
  {
    PlacePush(s.place, s.order, s.popped, id, n);
    RowKeysMove(s.rows, s.status, s.place, id, Queued);
    WorkElsewhere(s.place, s.work, id, Queued);
    DeadMove(s.place, s.entryOf, id, Queued);
  }

  lemma PushKeepsInv(s: State, id: Uuid, out: Outcome)
    requires Inv(s) && CanPush(s, id) && out.Applied()
    ensures Inv(DoPush(s, id, out))
  {
    PushedAgrees(s, Payload(id, s.rows[id].recipients));
    PushedPlace(s, id, |s.pushed|);
  }

  lemma PopKeepsInv(s: State, w: nat)
    requires Inv(s) && CanPop(s, w)
    ensures Inv(DoPop(s, w))
  {
    var x := Task(s.queue[|s.queue| - 1], |s.runs|, Publishing(0));
    PoppedInv(s, DoPop(s, w), w, x);
  }

  predicate SameTables(s: State, t: State) {
    && t.rows == s.rows && t.status == s.status && t.entries == s.entries && t.progress == s.progress
    && t.refused == s.refused && t.entryOf == s.entryOf && t.pushed == s.pushed && t.order == s.order
    && t.accepted == s.accepted
  }

  lemma PoppedInv(s: State, t: State, w: nat, x: Task)
    requires Inv(s) && CanPop(s, w) && x.payload == s.queue[|s.queue| - 1] && x.pc == Publishing(0)
    requires SameTables(s, t) && t.place == s.place[x.payload.id := InFlight(w)] && t.work == s.work[w := x]
    requires t.queue == s.queue[..|s.queue| - 1] && t.popped == s.popped + 1
    ensures Inv(t)
  {
    PoppedPlace(s, w, x);
  }

  /** What popping a message does to the list, the places and the workers. */
  lemma PoppedPlace(s: State, w: nat, x: Task)
    requires RowKeys(s.rows, s.status, s.place) && PushedKnown(s.rows, s.pushed) && WorkKnown(s.rows, s.work)
    requires QueueInv(s.queue, s.pushed, s.popped) && OrderInv(s.pushed, s.order)
    requires PlaceInv(s.place, s.order, s.popped)
    requires WorkInv(s.place, s.work) && DeadInv(s.place, s.entryOf)
    requires CanPop(s, w) && x.payload == s.queue[|s.queue| - 1] && x.pc == Publishing(0)
    ensures
      var place' := s.place[x.payload.id := InFlight(w)];
      && RowKeys(s.rows, s.status, place') && WorkKnown(s.rows, s.work[w := x])
      && QueueInv(s.queue[..|s.queue| - 1], s.pushed, s.popped + 1) && PlaceInv(place', s.order, s.popped + 1)
      && WorkInv(place', s.work[w := x]) && DeadInv(place', s.entryOf)
  {
    QueuePop(s.queue, s.pushed, s.popped);
    PlacePop(s.place, s.pushed, s.order, s.popped, InFlight(w));
    PopStartsWork(s.rows, s.place, s.work, s.entryOf, w, x);
  }

  /** What being done with its message does to a worker and to the place of the message. */
  lemma LeftPlace(s: State, w: nat, g: Place)
    requires RowKeys(s.rows, s.status, s.place) && WorkKnown(s.rows, s.work) && PlaceInv(s.place, s.order, s.popped)
    requires WorkInv(s.place, s.work) && DeadInv(s.place, s.entryOf)
    requires w in s.work && !Held(g) && Popped(g) && !g.Dead? && (s.work[w].pc == MarkingFailed ==> MayHaveEntry(g))
    ensures
      var place' := s.place[s.work[w].payload.id := g];
      && RowKeys(s.rows, s.status, place') && WorkKnown(s.rows, s.work - {w}) && PlaceInv(place', s.order, s.popped)
      && WorkInv(place', s.work - {w}) && DeadInv(place', s.entryOf)
  {
    var id := s.work[w].payload.id;
    KnownWork(s.rows, s.work, w, s.work[w]);
    HolderPlace(s, w);
    WorkEnd(s.place, s.work, w, g);
    HeldMoves(s, id, g);
  }

  /** A message that is held goes on to a place where no worker holds it. */
  lemma HeldMoves(s: State, id: Uuid, g: Place)
    requires RowKeys(s.rows, s.status, s.place) && PlaceInv(s.place, s.order, s.popped) && DeadInv(s.place, s.entryOf)
    requires id in s.place && Held(s.place[id]) && Popped(g) && !g.Dead? && (s.place[id].Doubted? ==> MayHaveEntry(g))
    ensures
      var place' := s.place[id := g];
      RowKeys(s.rows, s.status, place') && PlaceInv(place', s.order, s.popped) && DeadInv(place', s.entryOf)
  {
    PlaceMove(s.place, s.order, s.popped, id, g);
    DeadMove(s.place, s.entryOf, id, g);
  }

  lemma HolderPlace(s: State, w: nat)
    requires WorkInv(s.place, s.work) && w in s.work
    ensures
      var id := s.work[w].payload.id;
      id in s.place && s.place[id] == WorkPlace(w, s.work[w].pc)
  {}

  /** A worker is done with its message: `v` is the status map after its last write. */
  lemma LeaveKeepsInv(s: State, w: nat, g: Place, v: map<Uuid, Status>)
    requires Inv(s) && w in s.work && !Held(g) && Popped(g) && !g.Dead?
    requires s.work[w].pc == MarkingFailed ==> MayHaveEntry(g)
    requires v.Keys == s.status.Keys
    ensures Inv(s.(status := v, work := s.work - {w}, place := s.place[s.work[w].payload.id := g]))
  {
    LeftPlace(s, w, g);
  }

  /** A worker moves on, having written statuses `v` or published and advanced its run. */
  lemma MoveKeepsInv(s: State, w: nat, pc: WorkPc, v: map<Uuid, Status>, log: seq<Publication>, runs: seq<Run>)
    requires Inv(s) && w in s.work && s.work[w].pc != MarkingFailed && pc != MarkingFailed && v.Keys == s.status.Keys
    ensures Inv(s.(status := v, log := log, runs := runs, work := Move(s, w, pc)))
  {
    MovedWork(s, w, pc);
  }

  lemma MovedWork(s: State, w: nat, pc: WorkPc)
    requires WorkKnown(s.rows, s.work) && WorkInv(s.place, s.work)
    requires w in s.work && s.work[w].pc != MarkingFailed && pc != MarkingFailed
    ensures WorkKnown(s.rows, Move(s, w, pc)) && WorkInv(s.place, Move(s, w, pc))
  {
    KnownWork(s.rows, s.work, w, s.work[w].(pc := pc));
    WorkMove(s.place, s.work, w, pc);
    assert s.place[s.work[w].payload.id := WorkPlace(w, pc)] == s.place;
  }

  /** What leaving `Enqueueing` does, whether or not the entry was created. */
  lemma EnqueueMovesWork(s: State, w: nat, out: Outcome)
    requires WorkKnown(s.rows, s.work) && WorkInv(s.place, s.work) && PlaceInv(s.place, s.order, s.popped)
    requires At(s, w, Enqueueing)
    ensures
      var place' := s.place[s.work[w].payload.id := if out.Done? then Dead else Doubted(w)];
      var work' := if out.Done? then s.work - {w} else Move(s, w, MarkingFailed);
      WorkKnown(s.rows, work') && WorkInv(place', work') && PlaceInv(place', s.order, s.popped)
  {
    var id := s.work[w].payload.id;
    KnownWork(s.rows, s.work, w, s.work[w].(pc := MarkingFailed));
    if out.Done? {
      PlaceMove(s.place, s.order, s.popped, id, Dead);
      WorkEnd(s.place, s.work, w, Dead);
    } else {
      PlaceMove(s.place, s.order, s.popped, id, Doubted(w));
      WorkMove(s.place, s.work, w, MarkingFailed);
    }
  }

  lemma RefusedEnqueueKeepsInv(s: State, w: nat)
    requires Inv(s) && At(s, w, Enqueueing)
    ensures Inv(s.(work := Move(s, w, MarkingFailed), place := s.place[s.work[w].payload.id := Doubted(w)]))
  {
    EnqueueMovesWork(s, w, Refused);
    DeadMove(s.place, s.entryOf, s.work[w].payload.id, Doubted(w));
  }

  /** What creating an entry does to everything that is about entries. */
  lemma EntryCreated(s: State, eid: Uuid, e: Entry, g: Progress, place: Place)
    requires EntryKeys(s.entries, s.progress, s.refused) && EntriesKnown(s.rows, s.entries)
    requires EntryInv(s.entries, s.entryOf) && DeadInv(s.place, s.entryOf)
    requires eid !in s.entries && Known(s.rows, e.payload) && MayHaveEntry(place)
    requires e.payload.id in s.place && s.place[e.payload.id].InFlight?
    ensures EntryKeys(s.entries[eid := e], s.progress[eid := g], s.refused[eid := 0])
    ensures EntriesKnown(s.rows, s.entries[eid := e])
    ensures EntryInv(s.entries[eid := e], s.entryOf[e.payload.id := eid])
    ensures DeadInv(s.place[e.payload.id := place], s.entryOf[e.payload.id := eid])
  {
    EntryAdd(s.rows, s.entries, s.entryOf, eid, e);
    EntryKeysAdd(s.entries, s.progress, s.refused, eid, e, g);
    DeadAdd(s.place, s.entryOf, e.payload.id, eid, place);
  }

  lemma DoneEnqueueKeepsInv(s: State, w: nat, eid: Uuid, e: Entry, g: Progress)
    requires Inv(s) && CanEnqueue(s, w, eid, Done) && e.payload == s.work[w].payload
    ensures Inv(s.(
      entries := s.entries[eid := e], progress := s.progress[eid := g], refused := s.refused[eid := 0],
      entryOf := s.entryOf[e.payload.id := eid], work := s.work - {w}, place := s.place[e.payload.id := Dead]))
  {
    EnqueueMovesWork(s, w, Done);
    EntryCreated(s, eid, e, g, Dead);
  }

  lemma LostEnqueueKeepsInv(s: State, w: nat, eid: Uuid, e: Entry, g: Progress)
    requires Inv(s) && CanEnqueue(s, w, eid, Lost) && e.payload == s.work[w].payload
    ensures Inv(s.(
      entries := s.entries[eid := e], progress := s.progress[eid := g], refused := s.refused[eid := 0],
      entryOf := s.entryOf[e.payload.id := eid], work := Move(s, w, MarkingFailed),
      place := s.place[e.payload.id := Doubted(w)]))
  {
    EnqueueMovesWork(s, w, Lost);
    EntryCreated(s, eid, e, g, Doubted(w));
  }

  lemma EnqueueKeepsInv(s: State, w: nat, eid: Uuid, maxRetries: int, createdAt: int, readable: bool, out: Outcome)
    requires Inv(s) && CanEnqueue(s, w, eid, out)
    ensures Inv(DoEnqueue(s, w, eid, maxRetries, createdAt, readable, out))
  {
    var e := Entry(s.work[w].payload, readable, maxRetries, createdAt);
    match out
    case Done => DoneEnqueueKeepsInv(s, w, eid, e, Progress(Waiting, 0, false));
    case Lost => LostEnqueueKeepsInv(s, w, eid, e, Progress(Waiting, 0, false));
    case Refused => RefusedEnqueueKeepsInv(s, w);
  }

  /** Nothing that says where a message is has changed. */
  predicate SamePlaces(s: State, t: State) {
    && t.status.Keys == s.status.Keys && t.progress.Keys == s.progress.Keys && t.refused.Keys == s.refused.Keys
    && t.rows == s.rows && t.queue == s.queue && t.entries == s.entries && t.work == s.work && t.accepted == s.accepted
    && t.place == s.place && t.pushed == s.pushed && t.order == s.order
    && t.popped == s.popped && t.entryOf == s.entryOf
  }

  lemma StaysPut(s: State, t: State)
    requires Inv(s) && SamePlaces(s, t)
    ensures Inv(t)
  {}

  lemma TakeStays(s: State, l: nat)
    requires CanTake(s, l)
    ensures SamePlaces(s, DoTake(s, l))
  {}

  lemma RepublishStays(s: State, l: nat, out: Outcome)
    requires CanRepublish(s, l)
    ensures SamePlaces(s, DoRepublish(s, l, out))
  {}

  lemma RewriteSentStays(s: State, l: nat, out: Outcome)
    requires CanRewriteSent(s, l)
    ensures SamePlaces(s, DoRewriteSent(s, l, out))
  {}

  lemma GiveUpStays(s: State, l: nat, out: Outcome)
    requires CanGiveUp(s, l)
    ensures SamePlaces(s, DoGiveUp(s, l, out))
  {}

  lemma MarkStays(s: State, l: nat, out: Outcome)
    requires CanMark(s, l)
    ensures SamePlaces(s, DoMark(s, l, out))
  {}

  lemma RetryStays(s: State, l: nat, op: RetryOp)
    requires CanRetry(s, l, op)
    ensures SamePlaces(s, DoRetry(s, l, op))
  {
    match op
    case List(batch) => assert SamePlaces(s, s.(loops := s.loops[l := Loop(batch, 0, Next)]));
    case Take => TakeStays(s, l);
    case FindNoRecipients => assert SamePlaces(s, s.(loops := Turn(s, l, AfterFailure(Current(s, l)))));
    case Republish(out) => RepublishStays(s, l, out);
    case RewriteSent(out) => RewriteSentStays(s, l, out);
    case GiveUp(out) => GiveUpStays(s, l, out);
    case Mark(out) => MarkStays(s, l, out);
  }

  lemma AckStays(s: State, h: nat, op: AckOp)
    requires CanAck(s, h, op)
    ensures SamePlaces(s, DoAck(s, h, op))
  {
    match op
    case Lookup(tenant, a) => assert SamePlaces(s, s.(handlers := s.handlers[h := AckWork(a, false)]));
    case InsertAck(out) => assert SamePlaces(s, DoInsertAck(s, h, out));
    case UpdateStatus(out) => assert SamePlaces(s, DoUpdateStatus(s, h, out));
  }

  lemma WriteSentKeepsInv(s: State, w: nat, out: Outcome)
    requires Inv(s) && CanWriteSent(s, w)
    ensures Inv(DoWriteSent(s, w, out))
  {
    if out.Done? {
      LeaveKeepsInv(s, w, Routed, SetStatus(s.status, s.work[w].payload.id, Sent, Done));
    } else {
      DoubtfulSentKeepsInv(s, w, out);
    }
  }

  lemma DoubtfulSentKeepsInv(s: State, w: nat, out: Outcome)
    requires Inv(s) && CanWriteSent(s, w) && out.Errs()
    ensures Inv(DoWriteSent(s, w, out))
  {
    MoveKeepsInv(s, w, MarkingDead, SetStatus(s.status, s.work[w].payload.id, Sent, out), s.log, s.runs);
  }

  lemma PublishKeepsInv(s: State, w: nat, out: Outcome)
    requires Inv(s) && CanPublish(s, w)
    ensures Inv(DoPublish(s, w, out))
  {
    var t := DoPublish(s, w, out);
    MoveKeepsInv(s, w, t.work[w].pc, s.status, t.log, t.runs);
  }

  lemma WriteDeadKeepsInv(s: State, w: nat, out: Outcome)
    requires Inv(s) && At(s, w, MarkingDead)
    ensures Inv(DoWriteDead(s, w, out))
  {
    MoveKeepsInv(s, w, Enqueueing, SetStatus(s.status, s.work[w].payload.id, DeadLetter, out), s.log, s.runs);
  }

  lemma WriteFailedKeepsInv(s: State, w: nat, out: Outcome)
    requires Inv(s) && At(s, w, MarkingFailed)
    ensures Inv(DoWriteFailed(s, w, out))
  {
    LeaveKeepsInv(s, w, EnqueueFailed, SetStatus(s.status, s.work[w].payload.id, Failed, out));
  }

  lemma WorkKeepsInv(s: State, w: nat, op: WorkOp)
    requires Inv(s) && CanWork(s, w, op)
    ensures Inv(DoWork(s, w, op))
  {
    match op
    case Pop => PopKeepsInv(s, w);
    case FindNoRoutes => MoveKeepsInv(s, w, MarkingDead, s.status, s.log, s.runs);
    case Publish(out) => PublishKeepsInv(s, w, out);
    case Enqueue(eid, maxRetries, createdAt, readable, out) =>
      EnqueueKeepsInv(s, w, eid, maxRetries, createdAt, readable, out);
    case WriteSent(out) => WriteSentKeepsInv(s, w, out);
    case WriteDead(out) => WriteDeadKeepsInv(s, w, out);
    case WriteFailed(out) => WriteFailedKeepsInv(s, w, out);
  }

  lemma StepKeepsInv(s: State, step: Step)
    requires Inv(s) && Enabled(s, step)
    ensures Inv(Apply(s, step))
  {
    match step
    case Send(Insert(p, tenant, out)) => InsertKeepsInv(s, p, tenant, out);
    case Send(Push(id, Refused)) => RefusedPushKeepsInv(s, id);
    case Send(Push(id, out)) => PushKeepsInv(s, id, out);
    case Work(w, op) => WorkKeepsInv(s, w, op);
    case Retry(l, op) =>
      RetryStays(s, l, op);
      StaysPut(s, DoRetry(s, l, op));
    case Acknowledge(h, op) =>
      AckStays(s, h, op);
      StaysPut(s, DoAck(s, h, op));
  }

  lemma {:induction false} RunKeepsInv(s: State, steps: seq<Step>)
    requires Inv(s) && CanRun(s, steps)
    ensures Inv(Exec(s, steps))
    decreases |steps|
  {
    if |steps| > 0 {
      StepKeepsInv(s, steps[0]);
      RunKeepsInv(Apply(s, steps[0]), steps[1..]);
    }
  }

  // ----- main results ---------------------------------------------------------------------------

  predicate NotQueued(s: State, id: Uuid) {
    forall i | 0 <= i < |s.queue| :: s.queue[i].id != id
  }

  predicate QueuedOnce(s: State, id: Uuid) {
    exists i | 0 <= i < |s.queue| ::
      s.queue[i].id == id && forall j | 0 <= j < |s.queue| && j != i :: s.queue[j].id != id
  }

  predicate NotHeld(s: State, id: Uuid) {
    forall w | w in s.work :: s.work[w].payload.id != id
  }

  predicate HeldOnce(s: State, id: Uuid) {
    exists w | w in s.work ::
      s.work[w].payload.id == id && forall v | v in s.work && v != w :: s.work[v].payload.id != id
  }

  predicate NoEntry(s: State, id: Uuid) {
    forall e | e in s.entries :: s.entries[e].payload.id != id
  }

  predicate OneEntry(s: State, id: Uuid) {
    exists e | e in s.entries :: s.entries[e].payload.id == id
      && forall d | d in s.entries && d != e :: s.entries[d].payload.id != id
  }

  /** What the stores hold of a message, by its place. */
  predicate Located(s: State, id: Uuid)
    requires id in s.place
  {
    && (if s.place[id].Queued? then QueuedOnce(s, id) else NotQueued(s, id))
    && (if Held(s.place[id]) then HeldOnce(s, id) else NotHeld(s, id))
    && (if s.place[id].Dead? then OneEntry(s, id)
        else if MayHaveEntry(s.place[id]) then NoEntry(s, id) || OneEntry(s, id)
        else NoEntry(s, id))
  }

  /** Every message whose `Send` succeeded is in exactly one place: once in the Redis list, with
      exactly one worker, fully routed, dead-lettered with exactly one entry, or given up on
      because the creation of its entry reported an error. */
  lemma MessagesConserved(steps: seq<Step>, id: Uuid)
    requires CanRun(Init, steps) && id in Exec(Init, steps).accepted
    ensures
      var s := Exec(Init, steps);
      id in s.rows && id in s.place && !Unpushed(s.place[id]) && Located(s, id)
  {
    RunKeepsInv(Init, steps);
    InvLocates(Exec(Init, steps), id);
  }

  lemma InvLocates(s: State, id: Uuid)
    requires Inv(s) && id in s.order
    ensures id in s.rows && id in s.place && !Unpushed(s.place[id]) && Located(s, id)
  {
    QueueMembership(s, id);
    HolderMembership(s, id);
    EntryMembership(s, id);
  }

  lemma IsQueuedOnce(s: State, id: Uuid)
    requires QueueInv(s.queue, s.pushed, s.popped) && OrderInv(s.pushed, s.order)
    requires id in s.order && s.order[id] >= s.popped
    ensures QueuedOnce(s, id)
  {
    var i := |s.pushed| - 1 - s.order[id];
    assert s.queue[i].id == id;
    forall j | 0 <= j < |s.queue| && j != i
      ensures s.queue[j].id != id
    {
      assert s.queue[j] == s.pushed[|s.pushed| - 1 - j];
    }
  }

  lemma IsNotQueued(s: State, id: Uuid)
    requires QueueInv(s.queue, s.pushed, s.popped) && OrderInv(s.pushed, s.order)
    requires id in s.order && s.order[id] < s.popped
    ensures NotQueued(s, id)
  {
    forall i | 0 <= i < |s.queue|
      ensures s.queue[i].id != id
    {
      assert s.queue[i] == s.pushed[|s.pushed| - 1 - i];
    }
  }

  lemma QueueMembership(s: State, id: Uuid)
    requires QueueInv(s.queue, s.pushed, s.popped) && OrderInv(s.pushed, s.order)
    requires PlaceInv(s.place, s.order, s.popped)
    requires id in s.order
    ensures if s.place[id].Queued? then QueuedOnce(s, id) else NotQueued(s, id)
  {
    if s.place[id].Queued? {
      IsQueuedOnce(s, id);
    } else {
      IsNotQueued(s, id);
    }
  }

  lemma HolderMembership(s: State, id: Uuid)
    requires WorkInv(s.place, s.work) && id in s.place
    ensures if Held(s.place[id]) then HeldOnce(s, id) else NotHeld(s, id)
  {
    if Held(s.place[id]) {
      var w := s.place[id].w;
      assert w in s.work && s.work[w].payload.id == id;
      forall v | v in s.work && s.work[v].payload.id == id
        ensures v == w
      {}
    }
  }

  lemma EntryMembership(s: State, id: Uuid)
    requires EntryInv(s.entries, s.entryOf)
    ensures if id in s.entryOf then OneEntry(s, id) else NoEntry(s, id)
  {
    if id in s.entryOf {
      assert s.entries[s.entryOf[id]].payload.id == id;
    }
  }

  lemma PopTakesOldest(s: State, w: nat)
    requires QueueInv(s.queue, s.pushed, s.popped) && CanPop(s, w)
    ensures s.popped < |s.pushed| && DoPop(s, w).popped == s.popped + 1
    ensures DoPop(s, w).work[w].payload == s.pushed[s.popped]
  {}

  lemma PushesDistinct(pushed: seq<Payload>, order: map<Uuid, nat>)
    requires OrderInv(pushed, order)
    ensures forall m, n | 0 <= m < n < |pushed| :: pushed[m].id != pushed[n].id
  {
    forall m, n | 0 <= m < n < |pushed|
      ensures pushed[m].id != pushed[n].id
    {
      assert order[pushed[m].id] == m && order[pushed[n].id] == n;
    }
  }

  /** Payloads leave the list in push order and, no message being pushed twice, at most once. */
  lemma PoppedInPushOrder(steps: seq<Step>, w: nat)
    requires CanRun(Init, steps)
    ensures
      var s := Exec(Init, steps);
      && (forall m, n | 0 <= m < n < |s.pushed| :: s.pushed[m].id != s.pushed[n].id)
      && (CanPop(s, w) ==>
            && s.popped < |s.pushed| && DoPop(s, w).popped == s.popped + 1
            && DoPop(s, w).work[w].payload == s.pushed[s.popped])
  {
    RunKeepsInv(Init, steps);
    var s := Exec(Init, steps);
    PushesDistinct(s.pushed, s.order);
    if CanPop(s, w) {
      PopTakesOldest(s, w);
    }
  }

  /** The foreign key from entries to messages holds, and never stops a worker creating an entry. */
  lemma EntriesReferToMessages(steps: seq<Step>, w: nat)
    requires CanRun(Init, steps)
    ensures
      var s := Exec(Init, steps);
      && (forall e | e in s.entries :: s.entries[e].payload.id in s.rows)
      && (w in s.work ==> s.work[w].payload.id in s.rows)
  {
    RunKeepsInv(Init, steps);
  }
}
