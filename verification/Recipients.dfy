/** Recipient lists as the message table stores them: a JSON array (section 5 of RFC 8259) of UUID
    texts in one text column. */
module Recipients {
  import opened Model
  import Json
  import Utf8
  import UuidText

  function Items(ids: seq<Uuid>): (r: seq<Json.Value>)
    ensures |r| == |ids|
  {
    seq(|ids|, i requires 0 <= i < |ids| => Json.Str(UuidText.Text(ids[i])))
  }

  function Encode(ids: seq<Uuid>): string {
    if |ids| == 0 then "[]" else Json.Print(Json.Arr(Items(ids)))
  }

  /** An item has to be a string that is a UUID text, or null, which leaves what the list held at its place
      before, or a UUID of zeros. */
  function FromItem(item: Json.Value, before: Option<Uuid>): Option<Uuid> {
    match item
    case Str(text) => UuidText.Parse(text)
    case Null => Some(if before.Some? then before.value else NIL_UUID)
    case _ => None
  }

  function FromItems(items: seq<Json.Value>, before: seq<Uuid>): Option<seq<Uuid>> {
    if |items| == 0 then Some([])
    else
      match (FromItem(items[0], if |before| == 0 then None else Some(before[0])),
             FromItems(items[1..], if |before| == 0 then [] else before[1..]))
      case (Some(id), Some(rest)) => Some([id] + rest)
      case _ => None
  }

  /** Reads a text into a list that holds `before`. */
  function Decode(text: string, before: seq<Uuid>): Option<seq<Uuid>> {
    match Json.Parse(text)
    case Some(Arr(items)) => FromItems(items, before)
    case Some(Null) => Some([])
    case _ => None
  }

  lemma {:induction false} ItemsRoundTrip(ids: seq<Uuid>, before: seq<Uuid>)
    ensures FromItems(Items(ids), before) == Some(ids)
    decreases |ids|
  {
    if |ids| > 0 {
      assert Items(ids)[1..] == Items(ids[1..]);
      UuidText.RoundTrip(ids[0]);
      ItemsRoundTrip(ids[1..], if |before| == 0 then [] else before[1..]);
      assert [ids[0]] + ids[1..] == ids;
    }
  }

  lemma ItemsWritable(ids: seq<Uuid>)
    ensures Json.Writable(Json.Arr(Items(ids)))
  {
    forall i | 0 <= i < |ids|
      ensures Utf8.Valid(UuidText.Text(ids[i]))
    {
      UuidText.TextIsPlain(ids[i]);
      Json.PlainIsWritable(UuidText.Text(ids[i]));
    }
  }

  /** The stored text reads back as the same list, whatever its length. */
  lemma RoundTrip(ids: seq<Uuid>, before: seq<Uuid>)
    ensures Decode(Encode(ids), before) == Some(ids)
  {
    assert Items([]) == [] && Json.Print(Json.Arr([])) == "[" + "" + "]";
    ItemsWritable(ids);
    Json.RoundTrip(Json.Arr(Items(ids)));
    ItemsRoundTrip(ids, before);
  }

  // ----- what is written and read -----------------------------------------------------------------

  /** The UUID texts in quotation marks, with commas between them. */
  function Joined(ids: seq<Uuid>): string {
    if |ids| == 0 then ""
    else "\"" + UuidText.Text(ids[0]) + "\"" + if |ids| == 1 then "" else "," + Joined(ids[1..])
  }

  lemma ItemText(id: Uuid)
    ensures Json.Print(Json.Str(UuidText.Text(id))) == "\"" + UuidText.Text(id) + "\""
  {
    UuidText.TextIsPlain(id);
    Json.PlainIsWritable(UuidText.Text(id));
  }

  lemma {:induction false} ItemsText(ids: seq<Uuid>)
    ensures Json.PrintItems(Items(ids)) == Joined(ids)
  {
    if |ids| > 0 {
      ItemText(ids[0]);
      ItemsText(ids[1..]);
      assert Items(ids)[1..] == Items(ids[1..]);
    }
  }

  /** The text of a list, whatever its length. */
  lemma EncodeText(ids: seq<Uuid>)
    ensures Encode(ids) == "[" + Joined(ids) + "]"
  {
    ItemsText(ids);
  }

  /** Item `i` is the text of a UUID, or null where the list was before, or beyond its end. */
  predicate ReadsAs(item: Json.Value, before: seq<Uuid>, i: nat, id: Uuid) {
    match item
    case Str(text) => UuidText.Parse(text) == Some(id)
    case Null => id == if i < |before| then before[i] else NIL_UUID
    case _ => false
  }

  predicate ListReadsAs(items: seq<Json.Value>, before: seq<Uuid>, ids: seq<Uuid>) {
    |ids| == |items| && forall i | 0 <= i < |ids| :: ReadsAs(items[i], before, i, ids[i])
  }

  lemma {:induction false} FromItemsIff(items: seq<Json.Value>, before: seq<Uuid>, ids: seq<Uuid>)
    ensures FromItems(items, before) == Some(ids) <==> ListReadsAs(items, before, ids)
    decreases |items|
  {
    if |items| > 0 && |ids| > 0 {
      var rest := if |before| == 0 then [] else before[1..];
      FromItemsIff(items[1..], rest, ids[1..]);
      assert ids == [ids[0]] + ids[1..];
      if ListReadsAs(items, before, ids) {
        forall i | 0 <= i < |ids[1..]|
          ensures ReadsAs(items[1..][i], rest, i, ids[1..][i])
        {
          assert ReadsAs(items[i + 1], before, i + 1, ids[i + 1]);
        }
        assert ReadsAs(items[0], before, 0, ids[0]);
      }
      if FromItems(items, before) == Some(ids) {
        forall i | 0 <= i < |ids|
          ensures ReadsAs(items[i], before, i, ids[i])
        {
          if i > 0 {
            assert ReadsAs(items[1..][i - 1], rest, i - 1, ids[1..][i - 1]);
          }
        }
      }
    }
  }

  /** Exactly which texts read as which list. */
  lemma DecodeIff(text: string, before: seq<Uuid>, ids: seq<Uuid>)
    ensures Decode(text, before) == Some(ids) <==>
      || (Json.Parse(text) == Some(Json.Null) && ids == [])
      || exists items :: Json.Parse(text) == Some(Json.Arr(items)) && ListReadsAs(items, before, ids)
  {
    match Json.Parse(text)
    case Some(Arr(items)) => FromItemsIff(items, before, ids);
    case _ =>
  }

  lemma EncodeNotEmpty(ids: seq<Uuid>)
    ensures Encode(ids) != ""
  {
    assert Json.Print(Json.Arr(Items(ids)))[0] == '[';
  }

  /** The two fields of a message that hold its recipients: the list the program works with, and
      the text that the table stores. */
  class Message {
    var recipientIDs: seq<Uuid>
    var recipientStr: string

    constructor (ids: seq<Uuid>, text: string)
      ensures recipientIDs == ids && recipientStr == text
    {
      recipientIDs, recipientStr := ids, text;
    }

    /** Leaves a text that decodes to the list. */
    method SetRecipients()
      modifies this`recipientStr
      ensures recipientStr == Encode(recipientIDs) == "[" + Joined(recipientIDs) + "]"
      ensures forall before :: Decode(recipientStr, before) == Some(recipientIDs)
    {
      forall before
        ensures Decode(Encode(recipientIDs), before) == Some(recipientIDs)
      {
        RoundTrip(recipientIDs, before);
      }
      EncodeText(recipientIDs);
      if |recipientIDs| == 0 {
        recipientStr := "[]";
        return;
      }
      recipientStr := Json.Print(Json.Arr(Items(recipientIDs)));
    }

    /** Restores the list from the text. When that fails, what is left of the list is unspecified. */
    method ScanRecipients() returns (ok: bool)
      modifies this`recipientIDs
      ensures ok <==> recipientStr == "" || Decode(recipientStr, old(recipientIDs)).Some?
      ensures ok && recipientStr == "" ==> recipientIDs == []
      ensures ok && recipientStr != "" ==> Decode(recipientStr, old(recipientIDs)) == Some(recipientIDs)
    {
      if recipientStr != "" {
        var r := Decode(recipientStr, recipientIDs);
        if r.Some? {
          recipientIDs := r.value;
        } else {
          recipientIDs := *;
        }
        return r.Some?;
      }
      recipientIDs := [];
      return true;
    }

    /** Whether an agent may acknowledge the message. */
    method HasRecipient(agent: Uuid) returns (found: bool)
      ensures found <==> agent in recipientIDs
    {
      for i := 0 to |recipientIDs|
        invariant agent !in recipientIDs[..i]
      {
        if recipientIDs[i] == agent {
          return true;
        }
      }
      return false;
    }
  }

  /** From `Send` to the acknowledgement: a row written with a list and read back lets exactly the
      listed agents through. */
  method StoreAndCheck(ids: seq<Uuid>, agent: Uuid) returns (allowed: bool)
    ensures allowed <==> agent in ids
  {
    var sent := new Message(ids, "");
    sent.SetRecipients();
    var read := new Message([], sent.recipientStr);
    var ok := read.ScanRecipients();
    RoundTrip(ids, []);
    EncodeNotEmpty(ids);
    allowed := read.HasRecipient(agent);
  }
}
