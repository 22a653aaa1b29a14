/** The values that travel through the delivery pipeline: identifiers, messages,
    dead-letter entries and acknowledgements. */
module Model {

  newtype byte = x: int | 0 <= x < 256

  datatype RawUuid = RawUuid(bytes: seq<byte>)

  /** A UUID is sixteen bytes (section 4 of RFC 9562). */
  type Uuid = u: RawUuid | |u.bytes| == 16
    witness RawUuid([0, 0, 0, 0, 0, 0, 0, 0, 0, 0, 0, 0, 0, 0, 0, 0])

  const NIL_UUID: Uuid := RawUuid([0, 0, 0, 0, 0, 0, 0, 0, 0, 0, 0, 0, 0, 0, 0, 0])

  datatype Option<+T> = None | Some(value: T)

  datatype Status = Pending | Sent | Delivered | Processed | Failed | DeadLetter

  /** The part of a message that the pipeline reads: its identity and, in publishing order, its
      recipients. The queue and every dead-letter entry carry a serialized copy of it. */
  datatype Payload = Payload(id: Uuid, recipients: seq<Uuid>)

  /** The columns of a message row that its insertion fixes. The status column changes and is kept
      apart, in a map with the same keys. */
  datatype Row = Row(recipients: seq<Uuid>, tenant: Uuid)

  datatype EntryStatus = Waiting | Republished | Exhausted {
    /** `processed` and `exhausted` are the statuses that set processed_at. */
    predicate Terminal() { this != Waiting }
  }

  /** The columns of a dead-letter row that its insertion fixes. `readable` says whether the stored
      payload decodes to a message. */
  datatype Entry = Entry(payload: Payload, readable: bool, maxRetries: int, createdAt: int)

  /** The columns of a dead-letter row that retry loops update; `stamped` is `processed_at` being set. */
  datatype Progress = Progress(status: EntryStatus, retryCount: int, stamped: bool)

  /** The WHERE clause of the retry listing. */
  predicate Retryable(e: Entry, g: Progress) { g.status == Waiting && g.retryCount < e.maxRetries }

  /** A row as a retry loop read it: the later write is addressed by `eid` only. */
  datatype Snapshot = Snapshot(eid: Uuid, entry: Entry, retryCount: int)

  datatype AckStatus = AckReceived | AckProcessed | AckRejected | AckFailed | AckOther(text: string)

  datatype Ack = Ack(message: Uuid, agent: Uuid, status: AckStatus, nonce: string)

  /** One publication of a message on the channel of one recipient. */
  datatype Publication = Publication(id: Uuid, pos: nat, agent: Uuid)

  /** What a store call can do: take effect and say so; take effect while the caller sees an
      error; or have no effect and report an error. */
  datatype Outcome = Done | Lost | Refused {
    predicate Applied() { this != Refused }
    predicate Errs() { this != Done }
  }

  function AckToStatus(a: AckStatus): Status {
    match a
    case AckReceived => Delivered
    case AckProcessed => Processed
    case AckRejected => Failed
    case AckFailed => Failed
    case AckOther(_) => Pending
  }
}
