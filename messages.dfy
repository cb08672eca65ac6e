/**
 * The message entities shared by the server route and the client widget: the document stored in the
 * `messages` collection, the JSON record the two sides exchange, and the canonical greeting.
 */
module Messages {
  import opened Text

  /** The `sender` field: "user" or "bot". */
  datatype Sender = User | Bot

  /**
   * A document of the `messages` collection. The store assigns `id`; `timestamp` is the clock reading
   * taken by the handler that inserted it (milliseconds, abstracted as a natural number).
   */
  datatype Msg = Msg(id: nat, content: string, sender: Sender, timestamp: nat)

  /**
   * A message as JSON carries it (the client's `Message` type): the id is a string. Records the server
   * returns carry the stored id rendered as text; records the client makes up carry ids of its own.
   */
  datatype Record = Record(id: string, content: string, sender: Sender, timestamp: nat)

  /** The id a document carries once serialised: the stored id as a string. */
  function IdText(id: nat): (t: string)
    ensures forall i :: 0 <= i < |t| ==> IsDigit(t[i])
    ensures ParseNat(t) == id
  {
    ParseNatToString(id);
    NatToString(id)
  }

  /** A stored document as the server serialises it, `_id` turned into a string. */
  function ToRecord(m: Msg): (r: Record)
    ensures r.content == m.content && r.sender == m.sender && r.timestamp == m.timestamp
    ensures forall i :: 0 <= i < |r.id| ==> IsDigit(r.id[i])
    ensures ParseNat(r.id) == m.id
  {
    Record(IdText(m.id), m.content, m.sender, m.timestamp)
  }

  /** Two documents with different ids serialise with different id strings. */
  lemma ToRecordIdsDistinct(a: Msg, b: Msg)
    requires a.id != b.id
    ensures ToRecord(a).id != ToRecord(b).id
  {
  }

  /** The greeting the client shows and stores when a conversation starts. */
  const GreetingText: string := "Hey! I am your assistant Lucy. How can I help you today?"

  /** The text the client looks for to recognise a stored greeting. */
  const GreetingMarker: string := "Hey! I am your assistant Lucy"

  /** The canonical greeting contains the marker the client looks for. */
  lemma GreetingHasMarker()
    ensures Contains(GreetingText, GreetingMarker)
  {
    assert GreetingText[..|GreetingMarker|] == GreetingMarker;
  }
}
