/** The message service: sending a message and acknowledging it. Between two store calls, other
    threads may take any number of steps. */
module Service {
  import opened Model
  import opened Pipeline
  import opened Threads
  import opened Stores
  import C = Conservation
  import S = Soundness
  import Recipients

  datatype Draft = Draft(id: Uuid, recipients: seq<Uuid>, contentSize: nat, tenant: Uuid)

  datatype SendResult = Accepted | InvalidMessage | DatabaseError | QueueError

  datatype AckResult = Acknowledged | InvalidAck | LookupError | NotFound | Unauthorized | PersistError | UpdateError

  /** An acknowledgement that names no message, no agent or no status is refused. */
  predicate Complete(ack: Ack) {
    ack.message != NIL_UUID && ack.agent != NIL_UUID && ack.status != AckOther("")
  }

  /** The steps of one `Send`: the row, then the push. */
  ghost predicate IsSending(calls: seq<Step>, p: Payload, tenant: Uuid, r: SendResult) {
    exists inserted: Outcome, pushed: Outcome :: Sending(calls, p, tenant, r, inserted, pushed)
  }

  predicate Sending(calls: seq<Step>, p: Payload, tenant: Uuid, r: SendResult, inserted: Outcome, pushed: Outcome) {
    match r
    case InvalidMessage => calls == []
    case DatabaseError => inserted.Errs() && calls == [Send(Insert(p, tenant, inserted))]
    case QueueError => pushed.Errs() && calls == [Send(Insert(p, tenant, Done)), Send(Push(p.id, pushed))]
    case Accepted => calls == [Send(Insert(p, tenant, Done)), Send(Push(p.id, Done))]
  }

  /** The steps of one acknowledgement: the row is looked up and checked, the acknowledgement is
      inserted, the status is updated. */
  ghost predicate IsAcknowledging(calls: seq<Step>, h: nat, tenant: Uuid, ack: Ack, r: AckResult) {
    exists out: Outcome :: Acknowledging(calls, h, tenant, ack, r, out)
  }

  predicate Acknowledging(calls: seq<Step>, h: nat, tenant: Uuid, ack: Ack, r: AckResult, out: Outcome) {
    match r
    case PersistError => out.Errs() && calls == [Acknowledge(h, Lookup(tenant, ack)), Acknowledge(h, InsertAck(out))]
    case UpdateError =>
      && out.Errs()
      && calls == [Acknowledge(h, Lookup(tenant, ack)), Acknowledge(h, InsertAck(Done)),
           Acknowledge(h, UpdateStatus(out))]
    case Acknowledged =>
      calls == [Acknowledge(h, Lookup(tenant, ack)), Acknowledge(h, InsertAck(Done)),
        Acknowledge(h, UpdateStatus(Done))]
    case _ => calls == []
  }

  /** The row exists, belongs to the tenant, and lists the agent. */
  predicate Permits(rows: map<Uuid, Row>, tenant: Uuid, ack: Ack) {
    ack.message in rows && rows[ack.message].tenant == tenant && ack.agent in rows[ack.message].recipients
  }

  lemma RowFacts(trace: seq<Step>)
    requires CanRun(Init, trace)
    ensures var s := Exec(Init, trace); s.status.Keys == s.rows.Keys
  {
    C.RunKeepsInv(Init, trace);
  }

  class MessageService {
    const st: SharedStores

    constructor (st: SharedStores)
      ensures this.st == st
    {
      this.st := st;
    }

    /** A message counts as accepted exactly when its row was inserted and its payload pushed, both
        without an error. */
    method SendMessage(draft: Draft) returns (id: Uuid, r: SendResult, ghost calls: seq<Step>)
      requires st.Valid()
      modifies st
      ensures st.Valid()
      ensures r.InvalidMessage? <==> draft.recipients == [] || draft.contentSize == 0
      ensures draft.id != NIL_UUID ==> id == draft.id
      ensures Took(old(st.trace), st.trace, Sender(id), calls)
      ensures IsSending(calls, Payload(id, draft.recipients), draft.tenant, r)
      ensures r.Accepted? ==> id in st.Abs().accepted
    {
      id := draft.id;
      if |draft.recipients| == 0 || draft.contentSize == 0 {
        assert Sending([], Payload(id, draft.recipients), draft.tenant, InvalidMessage, Done, Done);
        return id, InvalidMessage, [];
      }
      if id == NIL_UUID {
        id := *;
      }
      var p := Payload(id, draft.recipients);
      var inserted := InsertRow(p, draft.tenant);
      ghost var first := st.trace;
      calls := [Send(Insert(p, draft.tenant, inserted))];
      if inserted.Errs() {
        assert Sending(calls, p, draft.tenant, DatabaseError, inserted, Done);
        return id, DatabaseError, calls;
      }
      var pushed := PushPayload(p, draft.tenant);
      calls := calls + [Send(Push(id, pushed))];
      TookBoth(old(st.trace), first, st.trace, Sender(id), [Send(Insert(p, draft.tenant, inserted))],
        [Send(Push(id, pushed))]);
      r := if pushed.Errs() then QueueError else Accepted;
      assert Sending(calls, p, draft.tenant, r, inserted, pushed);
    }

    lemma InsertLeads(s: State, p: Payload, tenant: Uuid, out: Outcome)
      requires |p.recipients| > 0 && (out.Applied() ==> p.id !in s.rows)
      ensures CanInsert(s, p, out)
      ensures out.Done? ==> PositionOf(DoInsert(s, p, tenant, out), Sender(p.id)) == AtPush(Row(p.recipients, tenant))
    {}

    method InsertRow(p: Payload, tenant: Uuid) returns (out: Outcome)
      requires st.Valid() && |p.recipients| > 0
      modifies st
      ensures st.Valid() && Took(old(st.trace), st.trace, Sender(p.id), [Send(Insert(p, tenant, out))])
      ensures out.Done? ==> PositionOf(st.Abs(), Sender(p.id)) == AtPush(Row(p.recipients, tenant))
    {
      st.Others(Sender(p.id));
      var before := st.Abs();
      out := st.CreateMessage(p, tenant);
      InsertLeads(before, p, tenant, out);
      MineSnoc(st.trace, Send(Insert(p, tenant, out)), Sender(p.id));
      st.Commit(before, Send(Insert(p, tenant, out)));
    }

    method PushPayload(p: Payload, tenant: Uuid) returns (out: Outcome)
      requires st.Valid() && PositionOf(st.Abs(), Sender(p.id)) == AtPush(Row(p.recipients, tenant))
      modifies st
      ensures st.Valid() && Took(old(st.trace), st.trace, Sender(p.id), [Send(Push(p.id, out))])
      ensures out.Done? ==> p.id in st.Abs().accepted
    {
      st.Others(Sender(p.id));
      var before := st.Abs();
      out := st.LPush(p);
      MineSnoc(st.trace, Send(Push(p.id, out)), Sender(p.id));
      st.Commit(before, Send(Push(p.id, out)));
    }

    /** Whether the row, read back from the table, lists the agent. */
    method MessageHasRecipient(row: Row, agent: Uuid) returns (found: bool)
      ensures found <==> agent in row.recipients
    {
      var message := new Recipients.Message([], Recipients.Encode(row.recipients));
      Recipients.RoundTrip(row.recipients, []);
      Recipients.EncodeNotEmpty(row.recipients);
      var ok := message.ScanRecipients();
      found := message.HasRecipient(agent);
    }

    /** Exactly the listed agents of the tenant's message get past the check. */
    method AcknowledgeForTenant(h: nat, tenant: Uuid, given: Ack)
      returns (ack: Ack, r: AckResult, ghost calls: seq<Step>, ghost found: Found)
      requires st.Valid() && h !in st.Abs().handlers
      modifies st, st.answers
      ensures st.Valid() && h !in st.Abs().handlers
      ensures ack == given.(nonce := ack.nonce) && (given.nonce != "" ==> ack == given)
      ensures Took(old(st.trace), st.trace, Handler(h), calls) && IsAcknowledging(calls, h, tenant, ack, r)
      ensures r.InvalidAck? <==>
        given.message == NIL_UUID || given.agent == NIL_UUID || given.status == AckOther("")
      ensures st.answers.lookups == old(st.answers.lookups) + if r.InvalidAck? then [] else [found]
      ensures r.LookupError? <==> !r.InvalidAck? && found.LookupFailed?
      ensures r.NotFound? <==> !r.InvalidAck? && found.Missing?
      ensures r.Unauthorized? <==> !r.InvalidAck? && found.Present? && given.agent !in found.row.recipients
      ensures r.NotFound? ==> given.message !in st.rows || st.rows[given.message].tenant != tenant
      ensures r.Unauthorized? ==> given.message in st.rows && given.agent !in st.rows[given.message].recipients
      ensures r.Acknowledged? ==> S.Entitled(st.rows, ack) && S.Recorded(st.acks, ack)
      ensures r.Acknowledged? ==> given.message in st.status && S.Says(given.status, st.status[given.message])
    {
      ack, r, found := LookUp(h, tenant, given);
      calls := [];
      ghost var looked := st.trace;
      if !r.Acknowledged? {
        assert Acknowledging([], h, tenant, ack, r, Done);
        return;
      }
      var inserted := InsertAcknowledgement(h, ack);
      calls := [Acknowledge(h, Lookup(tenant, ack)), Acknowledge(h, InsertAck(inserted))];
      TookBoth(old(st.trace), looked, st.trace, Handler(h), [Acknowledge(h, Lookup(tenant, ack))],
        [Acknowledge(h, InsertAck(inserted))]);
      if inserted.Errs() {
        assert Acknowledging(calls, h, tenant, ack, PersistError, inserted);
        r := PersistError;
        return;
      }
      ghost var persisted := st.trace;
      var updated := UpdateMessage(h, ack);
      TookBoth(old(st.trace), persisted, st.trace, Handler(h), calls, [Acknowledge(h, UpdateStatus(updated))]);
      calls := calls + [Acknowledge(h, UpdateStatus(updated))];
      r := if updated.Errs() then UpdateError else Acknowledged;
      assert Acknowledging(calls, h, tenant, ack, r, updated);
    }

    /** `Acknowledged` means that the acknowledgement may be inserted. */
    method LookUp(h: nat, tenant: Uuid, given: Ack) returns (ack: Ack, r: AckResult, ghost found: Found)
      requires st.Valid() && h !in st.Abs().handlers
      modifies st, st.answers
      ensures st.Valid() && ack == given.(nonce := ack.nonce) && (given.nonce != "" ==> ack == given)
      ensures r.InvalidAck? <==>
        given.message == NIL_UUID || given.agent == NIL_UUID || given.status == AckOther("")
      ensures st.answers.lookups == old(st.answers.lookups) + if r.InvalidAck? then [] else [found]
      ensures r.InvalidAck? || r.LookupError? || r.NotFound? || r.Unauthorized? || r.Acknowledged?
      ensures r.LookupError? <==> !r.InvalidAck? && found.LookupFailed?
      ensures r.NotFound? <==> !r.InvalidAck? && found.Missing?
      ensures r.Unauthorized? <==> !r.InvalidAck? && found.Present? && given.agent !in found.row.recipients
      ensures r.NotFound? ==> given.message !in st.rows || st.rows[given.message].tenant != tenant
      ensures r.Unauthorized? ==> given.message in st.rows && given.agent !in st.rows[given.message].recipients
      ensures r.Acknowledged? ==> Permits(st.rows, tenant, ack)
      ensures PositionOf(st.Abs(), Handler(h)) == if r.Acknowledged? then AtHandler(AckWork(ack, false)) else Nowhere
      ensures Took(old(st.trace), st.trace, Handler(h),
        if r.Acknowledged? then [Acknowledge(h, Lookup(tenant, ack))] else [])
    {
      ack, found := given, Missing;
      if !Complete(ack) {
        r := InvalidAck;
        return;
      }
      st.Others(Handler(h));
      var answer := st.GetByIDForTenant(tenant, ack.message);
      found := answer;
      if answer.LookupFailed? {
        r := LookupError;
        return;
      }
      if answer.Missing? {
        r := NotFound;
        return;
      }
      var permitted := MessageHasRecipient(answer.row, ack.agent);
      if !permitted {
        r := Unauthorized;
        return;
      }
      if ack.nonce == "" {
        var nonce: string := *;
        ack := ack.(nonce := nonce);
      }
      MineSnoc(st.trace, Acknowledge(h, Lookup(tenant, ack)), Handler(h));
      st.Take(Acknowledge(h, Lookup(tenant, ack)));
      r := Acknowledged;
    }

    method InsertAcknowledgement(h: nat, ack: Ack) returns (out: Outcome)
      requires st.Valid() && PositionOf(st.Abs(), Handler(h)) == AtHandler(AckWork(ack, false))
      modifies st
      ensures st.Valid() && Took(old(st.trace), st.trace, Handler(h), [Acknowledge(h, InsertAck(out))])
      ensures PositionOf(st.Abs(), Handler(h)) == if out.Done? then AtHandler(AckWork(ack, true)) else Nowhere
    {
      st.Others(Handler(h));
      var before := st.Abs();
      out := st.CreateAcknowledgement(ack);
      MineSnoc(st.trace, Acknowledge(h, InsertAck(out)), Handler(h));
      st.Commit(before, Acknowledge(h, InsertAck(out)));
    }

    method UpdateMessage(h: nat, ack: Ack) returns (out: Outcome)
      requires st.Valid() && PositionOf(st.Abs(), Handler(h)) == AtHandler(AckWork(ack, true))
      modifies st
      ensures st.Valid() && h !in st.Abs().handlers && S.Entitled(st.rows, ack) && S.Recorded(st.acks, ack)
      ensures out.Done? ==> ack.message in st.status && S.Says(ack.status, st.status[ack.message])
      ensures Took(old(st.trace), st.trace, Handler(h), [Acknowledge(h, UpdateStatus(out))])
    {
      st.Others(Handler(h));
      S.HandlerFacts(st.trace);
      RowFacts(st.trace);
      var before := st.Abs();
      out := st.UpdateMessageStatus(ack.message, AckToStatus(ack.status));
      MineSnoc(st.trace, Acknowledge(h, UpdateStatus(out)), Handler(h));
      st.Commit(before, Acknowledge(h, UpdateStatus(out)));
    }
  }
}
