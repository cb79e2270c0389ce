/** The ordered message log of one chat (Conversation.swift). */
module Conversations {
  import opened Messages

  /** The log with its last message rebuilt around new content; the empty log is returned as it is. */
  function ReplaceLastContent(messages: seq<Message>, content: string): (r: seq<Message>)
    ensures |r| == |messages|
    ensures forall i :: 0 <= i < |messages| - 1 ==> r[i] == messages[i]
    ensures |messages| > 0 ==>
      var last, was := r[|r| - 1], messages[|messages| - 1];
      last.content == content && last.id == was.id && last.sender == was.sender
      && last.timestamp == was.timestamp && last.isStreaming == was.isStreaming
  {
    if messages == [] then messages
    else messages[|messages| - 1 := WithContent(messages[|messages| - 1], content)]
  }

  /** Replacing twice is replacing once with the second content. */
  lemma ReplaceLastContentTwice(messages: seq<Message>, a: string, b: string)
    ensures ReplaceLastContent(ReplaceLastContent(messages, a), b) == ReplaceLastContent(messages, b)
  {
  }

  /**
   * A conversation. `messages` only ever grows at the end or has its last entry rebuilt;
   * `id` and `createdAt` never change.
   */
  class Conversation {
    const id: Uuid
    var messages: seq<Message>
    var title: string
    const createdAt: Time
    var updatedAt: Time

    /** The memberwise initialiser: no messages and the title "New Chat" unless given. */
    constructor (id: Uuid, createdAt: Time, updatedAt: Time, messages: seq<Message> := [], title: string := "New Chat")
      ensures this.id == id && this.createdAt == createdAt && this.updatedAt == updatedAt
      ensures this.messages == messages && this.title == title
    {
      this.id := id;
      this.messages := messages;
      this.title := title;
      this.createdAt := createdAt;
      this.updatedAt := updatedAt;
    }

    /** `addMessage`: the message goes at the end and `updatedAt` becomes the current time. */
    method AddMessage(message: Message, now: Time)
      modifies this
      ensures messages == old(messages) + [message]
      ensures updatedAt == now
      ensures title == old(title)
    {
      messages := messages + [message];
      updatedAt := now;
    }

    /**
     * `updateLastMessage`: a no-op on an empty log; otherwise the last message is rebuilt with
     * the new content (keeping its id, sender, timestamp and streaming flag) and `updatedAt`
     * becomes the current time.
     */
    method UpdateLastMessage(content: string, now: Time)
      modifies this
      ensures messages == ReplaceLastContent(old(messages), content)
      ensures updatedAt == if old(messages) == [] then old(updatedAt) else now
      ensures title == old(title)
    {
      if messages == [] {
        return;
      }
      var lastMessage := messages[|messages| - 1];
      lastMessage := NewMessage(lastMessage.id, content, lastMessage.sender, lastMessage.timestamp, lastMessage.isStreaming);
      messages := messages[|messages| - 1 := lastMessage];
      updatedAt := now;
    }
  }
}
