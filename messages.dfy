/** One chat message: an immutable value record (Message.swift). */
module Messages {
  import opened Wrappers

  /** Opaque unique identifier (Swift `UUID`); fresh ones are supplied by the caller. */
  type Uuid = nat

  /** A point in time (Swift `Date`); readings are supplied by the caller and need not be monotone. */
  type Time = int

  /** Who wrote a message. Its Codable raw values are "user" and "ai". */
  datatype Sender = User | Ai

  /** A message. Every field is fixed at construction; changing content means building a new message. */
  datatype Message = Message(id: Uuid, content: string, sender: Sender, timestamp: Time, isStreaming: bool)

  /** The memberwise initialiser, with `isStreaming` defaulting to false. */
  function NewMessage(id: Uuid, content: string, sender: Sender, timestamp: Time, isStreaming: bool := false): (m: Message)
    ensures m.id == id && m.content == content && m.sender == sender
    ensures m.timestamp == timestamp && m.isStreaming == isStreaming
  {
    Message(id, content, sender, timestamp, isStreaming)
  }

  /** A message built without saying otherwise is not streaming. */
  lemma NewMessageNotStreamingByDefault(id: Uuid, content: string, sender: Sender, timestamp: Time)
    ensures !NewMessage(id, content, sender, timestamp).isStreaming
  {
  }

  /** `isFromUser`: true for user messages; a message it rejects is the assistant's. */
  function IsFromUser(m: Message): (r: bool)
    ensures r ==> m.sender == User
    ensures !r ==> m.sender == Ai
  {
    m.sender == User
  }

  /** The raw string a sender is encoded as. */
  function RawValue(s: Sender): (r: string)
    ensures r == "user" || r == "ai"
    ensures r == "user" <==> s == User
  {
    match s
    case User => "user"
    case Ai => "ai"
  }

  /** Decoding a raw string: only the two raw values name a sender. */
  function SenderFromRaw(raw: string): (r: Option<Sender>)
    ensures r.Some? <==> raw == "user" || raw == "ai"
    ensures r.Some? ==> RawValue(r.value) == raw
  {
    if raw == "user" then Some(User)
    else if raw == "ai" then Some(Ai)
    else None
  }

  /** Decoding undoes encoding, so the raw values of the two senders differ. */
  lemma RawValueRoundTrip(s: Sender)
    ensures SenderFromRaw(RawValue(s)) == Some(s)
  {
  }

  /** The same message with other content: id, sender, timestamp and streaming flag are kept. */
  function WithContent(m: Message, content: string): (r: Message)
    ensures r.content == content
    ensures r.id == m.id && r.sender == m.sender && r.timestamp == m.timestamp && r.isStreaming == m.isStreaming
  {
    NewMessage(m.id, content, m.sender, m.timestamp, m.isStreaming)
  }

  /** The same message with another streaming flag: id, content, sender and timestamp are kept. */
  function WithStreaming(m: Message, isStreaming: bool): (r: Message)
    ensures r.isStreaming == isStreaming
    ensures r.id == m.id && r.content == m.content && r.sender == m.sender && r.timestamp == m.timestamp
  {
    NewMessage(m.id, m.content, m.sender, m.timestamp, isStreaming)
  }

  /** Rebuilding with the current content gives the same message; a second rebuild overrides the first. */
  lemma WithContentLaws(m: Message, a: string, b: string)
    ensures WithContent(m, m.content) == m
    ensures WithContent(WithContent(m, a), b) == WithContent(m, b)
  {
  }
}
