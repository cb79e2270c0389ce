/** The chat turn state machine (ChatViewModel.swift). */
module ChatViewModels {
  import opened Wrappers
  import opened Messages
  import opened Conversations
  import opened Settings
  import opened Text
  import opened ModelManagers

  /** The inference backend as the view model calls it: prompt, token limit, temperature to a reply or an error. */
  type Backend = (string, int, real) -> Result<string, ModelError>

  /** How many of the latest messages the prompt shows. */
  const ContextWindow: nat := 10

  /** What precedes a failed turn's error description in `errorMessage`. */
  const ErrorPrefix: string := "Failed to generate response: "

  /** The canned replies of the simulated mode, one of which is picked at random each turn. */
  const Responses: seq<string> := [
    "I'm a simulated AI response running on your iPhone! The real Core ML model will go here once you add it.",
    "This is pretty cool! I can chat with you in a beautiful interface while we wait for the actual language model to be integrated.",
    "Once we add the Core ML model, I'll be running entirely on your iPhone 17's Neural Engine - no internet required!",
    "The interface is fully functional. Try asking me different questions to see how the chat flows!",
    "Privacy first! When the real model is added, all your conversations will stay on your device.",
    "The typing animation you're seeing? That's simulating real token streaming from a language model.",
    "Pretty responsive, right? That's the power of SwiftUI and async/await working together."
  ]

  /** Every canned reply has text to type out. */
  lemma ResponsesNonEmpty(pick: nat)
    requires pick < |Responses|
    ensures |Responses[pick]| > 0
  {
  }

  // ---------------------------------------------------------------------------------------------
  // The prompt context
  // ---------------------------------------------------------------------------------------------

  /** Swift's `suffix(k)`: the last `k` elements, or all of them when there are fewer. */
  function Suffix<T>(s: seq<T>, k: nat): (r: seq<T>)
    ensures |r| == if k < |s| then k else |s|
    ensures s == s[..|s| - |r|] + r
  {
    s[|s| - (if k < |s| then k else |s|)..]
  }

  /** A message as one prompt line: its speaker's label, a colon and a space, then its content. */
  function Render(m: Message): (r: string)
    ensures m.sender == User ==> r == "User: " + m.content
    ensures m.sender == Ai ==> r == "Assistant: " + m.content
  {
    (if m.sender == User then "User" else "Assistant") + ": " + m.content
  }

  /** A prompt line determines the speaker and the content of its message. */
  lemma RenderInjective(a: Message, b: Message)
    ensures Render(a) == Render(b) <==> a.sender == b.sender && a.content == b.content
  {
    if a.sender == b.sender {
      var n := if a.sender == User then 6 else 11;
      assert Render(a)[n..] == a.content && Render(b)[n..] == b.content;
    } else {
      assert Render(a)[0] != Render(b)[0];
    }
  }

  /** The messages rendered one per line, in order. */
  function RenderAll(messages: seq<Message>): (r: seq<string>)
    ensures |r| == |messages|
    ensures forall i :: 0 <= i < |messages| ==> r[i] == Render(messages[i])
  {
    seq(|messages|, i requires 0 <= i < |messages| => Render(messages[i]))
  }

  /** The prompt: the last ten messages rendered as lines joined by newlines. */
  function Context(messages: seq<Message>): string
  {
    Join(RenderAll(Suffix(messages, ContextWindow)), "\n")
  }

  /**
   * The prompt is empty for an empty log; otherwise it starts with the line of the oldest message
   * in the ten-message window and ends with the line of the newest.
   */
  lemma ContextFirstAndLastLines(messages: seq<Message>)
    ensures messages == [] ==> Context(messages) == ""
    ensures messages != [] ==>
      var r := Context(messages);
      var first := Render(messages[|messages| - |Suffix(messages, ContextWindow)|]);
      var last := Render(messages[|messages| - 1]);
      |first| <= |r| && r[..|first|] == first && |last| <= |r| && r[|r| - |last|..] == last
  {
    var window := Suffix(messages, ContextWindow);
    JoinEnds(RenderAll(window), "\n");
    if messages == [] {
      return;
    }
    assert window[0] == messages[|messages| - |window|];
    assert window[|window| - 1] == messages[|messages| - 1];
  }

  /** The last `k` elements of a longer sequence end with its new last element. */
  lemma SuffixSnoc<T>(s: seq<T>, x: T, k: nat)
    requires k > 0
    ensures Suffix(s + [x], k) == Suffix(s, k - 1) + [x]
  {
    var n := |s| + 1 - (if k < |s| + 1 then k else |s| + 1);
    assert Suffix(s + [x], k) == (s + [x])[n..];
    assert (s + [x])[n..] == s[n..] + [x];
  }

  /** Rendering one more message adds its line at the end. */
  lemma RenderAllSnoc(messages: seq<Message>, m: Message)
    ensures RenderAll(messages + [m]) == RenderAll(messages) + [Render(m)]
  {
  }

  /** The prompt lines of the nine latest messages, each followed by a newline. */
  function LinesBefore(before: seq<Message>): string
  {
    if before == [] then "" else Join(RenderAll(Suffix(before, ContextWindow - 1)), "\n") + "\n"
  }

  /** Appending a message to the log adds its line after the lines of the nine messages before it. */
  lemma ContextSnoc(before: seq<Message>, m: Message)
    ensures Context(before + [m]) == Join(RenderAll(Suffix(before, ContextWindow - 1)) + [Render(m)], "\n")
  {
    SuffixSnoc(before, m, ContextWindow);
    RenderAllSnoc(Suffix(before, ContextWindow - 1), m);
  }

  /**
   * With the empty placeholder appended, the prompt ends in the line "Assistant: ", after the
   * lines of the nine messages before it (or of all of them when there are fewer).
   */
  lemma {:induction false} ContextEndsWithPlaceholder(before: seq<Message>, placeholder: Message)
    requires placeholder.sender == Ai && placeholder.content == ""
    ensures Context(before + [placeholder]) == LinesBefore(before) + "Assistant: "
  {
    var lines := RenderAll(Suffix(before, ContextWindow - 1));
    var head := if lines == [] then "" else Join(lines, "\n") + "\n";
    assert Context(before + [placeholder]) == head + Render(placeholder) by {
      ContextSnoc(before, placeholder);
      JoinAfter(lines, Render(placeholder), "\n");
    }
    assert Render(placeholder) == "Assistant: " by {
      assert "Assistant: " + "" == "Assistant: ";
    }
    assert LinesBefore(before) == head by {
      assert lines == [] <==> before == [];
    }
  }

  // ---------------------------------------------------------------------------------------------
  // One turn, as a function of the state before it
  // ---------------------------------------------------------------------------------------------

  /** The empty assistant message a turn starts by appending. */
  function Placeholder(aiId: Uuid, now: Time): (m: Message)
    ensures m.sender == Ai && m.content == "" && m.isStreaming
  {
    NewMessage(aiId, "", Ai, now, true)
  }

  /** The reply a turn obtains: a canned reply in simulated mode, otherwise the backend's answer to the prompt. */
  function Produce(settings: ModelSettings, backend: Backend, pick: nat, context: string): (r: Result<string, ModelError>)
    requires pick < |Responses|
    ensures settings.useSimulatedResponses ==> r == Success(Responses[pick])
  {
    if settings.useSimulatedResponses then Success(Responses[pick])
    else backend(context, ValidatedMaxTokens(settings), ValidatedTemperature(settings))
  }

  /** The prompt a turn started on `before` sends: it already contains the placeholder. */
  function TurnContext(before: seq<Message>, aiId: Uuid, now: Time): string
  {
    Context(before + [Placeholder(aiId, now)])
  }

  /** The reply or error of a turn started on `before`. */
  function TurnOutcome(before: seq<Message>, aiId: Uuid, now: Time, settings: ModelSettings, backend: Backend, pick: nat): Result<string, ModelError>
    requires pick < |Responses|
  {
    Produce(settings, backend, pick, TurnContext(before, aiId, now))
  }

  /**
   * The log after a turn started on `before`: the placeholder filled with the reply (still flagged
   * as streaming when the backend produced it), or nothing added when the backend failed.
   */
  function TurnMessages(before: seq<Message>, aiId: Uuid, now: Time, settings: ModelSettings, backend: Backend, pick: nat): (r: seq<Message>)
    requires pick < |Responses|
    ensures r == before <==> TurnOutcome(before, aiId, now, settings, backend, pick).Failure?
    ensures r != before ==>
      |r| == |before| + 1 && r[..|before|] == before
      && r[|before|].id == aiId && r[|before|].sender == Ai && r[|before|].timestamp == now
  {
    match TurnOutcome(before, aiId, now, settings, backend, pick)
    case Success(reply) => before + [NewMessage(aiId, reply, Ai, now, !settings.useSimulatedResponses)]
    case Failure(_) => before
  }

  /** `errorMessage` after a turn: none on success, the prefixed error description on failure. */
  function TurnError(before: seq<Message>, aiId: Uuid, now: Time, settings: ModelSettings, backend: Backend, pick: nat): (r: Option<string>)
    requires pick < |Responses|
    ensures r.None? <==> TurnOutcome(before, aiId, now, settings, backend, pick).Success?
    ensures r.Some? ==> |ErrorPrefix| <= |r.value| && r.value[..|ErrorPrefix|] == ErrorPrefix
  {
    match TurnOutcome(before, aiId, now, settings, backend, pick)
    case Success(_) => None
    case Failure(e) => Some(ErrorPrefix + LocalizedDescription(e))
  }

  /** A successful turn adds exactly one assistant message, holding the reply, and keeps everything before it. */
  lemma TurnSuccessAppendsReply(before: seq<Message>, aiId: Uuid, now: Time, settings: ModelSettings, backend: Backend, pick: nat, reply: string)
    requires pick < |Responses|
    requires TurnOutcome(before, aiId, now, settings, backend, pick) == Success(reply)
    ensures var after := TurnMessages(before, aiId, now, settings, backend, pick);
      |after| == |before| + 1 && after[..|before|] == before
      && after[|before|].id == aiId && after[|before|].sender == Ai && after[|before|].timestamp == now
      && after[|before|].content == reply
      && after[|before|].isStreaming == !settings.useSimulatedResponses
    ensures TurnError(before, aiId, now, settings, backend, pick) == None
  {
  }

  /** A failed turn leaves the log as it was before the turn and records the described error. */
  lemma TurnFailureRollsBack(before: seq<Message>, aiId: Uuid, now: Time, settings: ModelSettings, backend: Backend, pick: nat, e: ModelError)
    requires pick < |Responses|
    requires TurnOutcome(before, aiId, now, settings, backend, pick) == Failure(e)
    ensures TurnMessages(before, aiId, now, settings, backend, pick) == before
    ensures TurnError(before, aiId, now, settings, backend, pick) == Some(ErrorPrefix + LocalizedDescription(e))
    ensures e.InferenceError? ==> TurnError(before, aiId, now, settings, backend, pick) == Some(ErrorPrefix + InferencePrefix + e.message)
  {
    if e.InferenceError? {
      assert ErrorPrefix + LocalizedDescription(e) == ErrorPrefix + InferencePrefix + e.message;
    }
  }

  /** A simulated turn always succeeds: one finished assistant message holding the picked canned reply. */
  lemma SimulatedTurnCompletes(before: seq<Message>, aiId: Uuid, now: Time, settings: ModelSettings, backend: Backend, pick: nat)
    requires pick < |Responses| && settings.useSimulatedResponses
    ensures var after := TurnMessages(before, aiId, now, settings, backend, pick);
      |after| == |before| + 1 && after[..|before|] == before
      && after[|before|].content == Responses[pick] && |after[|before|].content| > 0
      && !after[|before|].isStreaming
    ensures TurnError(before, aiId, now, settings, backend, pick) == None
  {
    ResponsesNonEmpty(pick);
  }

  /** The backend is asked with the prompt of the log holding the placeholder, and with the clamped settings. */
  lemma BackendSeesPlaceholderPrompt(before: seq<Message>, aiId: Uuid, now: Time, settings: ModelSettings, backend: Backend, pick: nat)
    requires pick < |Responses| && !settings.useSimulatedResponses
    ensures TurnOutcome(before, aiId, now, settings, backend, pick) ==
      backend(Context(before + [Placeholder(aiId, now)]), ValidatedMaxTokens(settings), ValidatedTemperature(settings))
  {
  }

  /** Every turn's prompt ends in the empty placeholder's line "Assistant: ". */
  lemma TurnContextEndsWithAssistantLine(before: seq<Message>, aiId: Uuid, now: Time)
    ensures var prompt := TurnContext(before, aiId, now);
      |prompt| >= 11 && prompt[|prompt| - 11..] == "Assistant: "
  {
    ContextEndsWithPlaceholder(before, Placeholder(aiId, now));
    var lines := LinesBefore(before);
    var prompt := lines + "Assistant: ";
    assert TurnContext(before, aiId, now) == prompt;
    assert prompt[|lines|..] == "Assistant: ";
  }

  /** With the stub manager as backend, every backend turn succeeds with its placeholder text. */
  lemma StubBackendTurn(manager: ModelManager, before: seq<Message>, aiId: Uuid, now: Time, settings: ModelSettings, pick: nat)
    requires pick < |Responses| && !settings.useSimulatedResponses
    ensures TurnOutcome(before, aiId, now, settings, manager.Generate, pick) == Success(PlaceholderResponse)
    ensures TurnError(before, aiId, now, settings, manager.Generate, pick) == None
  {
  }

  // ---------------------------------------------------------------------------------------------
  // The streaming flag
  // ---------------------------------------------------------------------------------------------

  /** No message is flagged as streaming. */
  predicate NoneStreaming(messages: seq<Message>)
  {
    forall i :: 0 <= i < |messages| ==> !messages[i].isStreaming
  }

  /** At most one message is flagged as streaming. */
  predicate AtMostOneStreaming(messages: seq<Message>)
  {
    forall i, j :: 0 <= i < j < |messages| ==> !(messages[i].isStreaming && messages[j].isStreaming)
  }

  /** A turn adds no streaming message in simulated mode or when the backend fails. */
  lemma TurnKeepsNoneStreaming(before: seq<Message>, aiId: Uuid, now: Time, settings: ModelSettings, backend: Backend, pick: nat)
    requires pick < |Responses| && NoneStreaming(before)
    requires settings.useSimulatedResponses || TurnOutcome(before, aiId, now, settings, backend, pick).Failure?
    ensures NoneStreaming(TurnMessages(before, aiId, now, settings, backend, pick))
  {
    var outcome := TurnOutcome(before, aiId, now, settings, backend, pick);
    var after := TurnMessages(before, aiId, now, settings, backend, pick);
    if outcome.Success? {
      TurnSuccessAppendsReply(before, aiId, now, settings, backend, pick, outcome.value);
      forall i | 0 <= i < |after|
        ensures !after[i].isStreaming
      {
        if i < |before| {
          assert after[i] == after[..|before|][i] == before[i];
        }
      }
    }
  }

  /**
   * A successful backend turn leaves its reply flagged as streaming, so two of them in a row,
   * with a user message between, leave two streaming messages in the log.
   */
  lemma BackendTurnsLeaveTwoStreaming(before: seq<Message>, a1: Uuid, user: Message, a2: Uuid, now: Time,
                                      settings: ModelSettings, backend: Backend, pick: nat)
    requires pick < |Responses| && !settings.useSimulatedResponses
    requires TurnOutcome(before, a1, now, settings, backend, pick).Success?
    requires TurnOutcome(TurnMessages(before, a1, now, settings, backend, pick) + [user], a2, now, settings, backend, pick).Success?
    ensures !AtMostOneStreaming(TurnMessages(TurnMessages(before, a1, now, settings, backend, pick) + [user], a2, now, settings, backend, pick))
  {
    var mid := TurnMessages(before, a1, now, settings, backend, pick);
    var after := TurnMessages(mid + [user], a2, now, settings, backend, pick);
    assert after[|before|] == mid[|before|];
    assert after[|before|].isStreaming && after[|mid| + 1].isStreaming;
  }

  // ---------------------------------------------------------------------------------------------
  // Regeneration
  // ---------------------------------------------------------------------------------------------

  /** The log without its last message when that message is the assistant's; otherwise unchanged. */
  function DropTrailingAi(messages: seq<Message>): (r: seq<Message>)
    ensures |r| == |messages| - 1 <==> messages != [] && messages[|messages| - 1].sender == Ai
    ensures |r| != |messages| - 1 ==> r == messages
    ensures r == messages[..|r|]
  {
    if messages != [] && messages[|messages| - 1].sender == Ai then messages[..|messages| - 1] else messages
  }

  // ---------------------------------------------------------------------------------------------
  // The view model
  // ---------------------------------------------------------------------------------------------

  class ChatViewModel {
    var conversation: Conversation
    var settings: ModelSettings
    var isGenerating: bool
    var errorMessage: Option<string>
    /** The model manager's `generate`, fixed at construction. */
    const backend: Backend

    /** A fresh view model: an empty "New Chat" conversation, default settings, idle, no error. */
    constructor (conversationId: Uuid, now: Time, backend: Backend)
      ensures fresh(conversation)
      ensures conversation.messages == [] && conversation.title == "New Chat"
      ensures conversation.id == conversationId && conversation.createdAt == now && conversation.updatedAt == now
      ensures settings == Default && !isGenerating && errorMessage == None
      ensures this.backend == backend
    {
      conversation := new Conversation(conversationId, now, now);
      settings := Default;
      isGenerating := false;
      errorMessage := None;
      this.backend := backend;
    }

    /**
     * `sendMessage`: ignored when the text is blank after trimming or a turn is in progress;
     * otherwise the text is appended, untrimmed, as a user message and a turn runs.
     */
    method SendMessage(content: string, userId: Uuid, aiId: Uuid, now: Time, pick: nat)
      requires pick < |Responses|
      modifies this, conversation
      ensures conversation == old(conversation) && settings == old(settings)
      ensures conversation.title == old(conversation.title)
      ensures Trim(content) == [] || old(isGenerating) ==>
        conversation.messages == old(conversation.messages) && conversation.updatedAt == old(conversation.updatedAt)
        && isGenerating == old(isGenerating) && errorMessage == old(errorMessage)
      ensures Trim(content) != [] && !old(isGenerating) ==>
        var sent := old(conversation.messages) + [NewMessage(userId, content, User, now)];
        conversation.messages == TurnMessages(sent, aiId, now, settings, backend, pick)
        && errorMessage == TurnError(sent, aiId, now, settings, backend, pick)
        && conversation.updatedAt == now && !isGenerating
    {
      if Trim(content) == [] {
        return;
      }
      if isGenerating {
        return;
      }
      var userMessage := NewMessage(userId, content, User, now);
      conversation.AddMessage(userMessage, now);
      GenerateResponse(aiId, now, pick);
    }

    /**
     * `regenerateLastResponse`: drops a trailing assistant message, then runs a turn on what is
     * left. It does not look at `isGenerating`.
     */
    method RegenerateLastResponse(aiId: Uuid, now: Time, pick: nat)
      requires pick < |Responses|
      modifies this, conversation
      ensures conversation == old(conversation) && settings == old(settings)
      ensures conversation.title == old(conversation.title)
      ensures var kept := DropTrailingAi(old(conversation.messages));
        conversation.messages == TurnMessages(kept, aiId, now, settings, backend, pick)
        && errorMessage == TurnError(kept, aiId, now, settings, backend, pick)
      ensures conversation.updatedAt == now && !isGenerating
    {
      if conversation.messages != [] && conversation.messages[|conversation.messages| - 1].sender == Ai {
        conversation.messages := conversation.messages[..|conversation.messages| - 1];
      }
      GenerateResponse(aiId, now, pick);
    }

    /** `clearConversation`: a new empty "New Chat" conversation replaces the old one. */
    method ClearConversation(conversationId: Uuid, now: Time)
      modifies this
      ensures fresh(conversation)
      ensures conversation.messages == [] && conversation.title == "New Chat"
      ensures conversation.id == conversationId && conversation.createdAt == now && conversation.updatedAt == now
      ensures settings == old(settings) && isGenerating == old(isGenerating) && errorMessage == old(errorMessage)
    {
      conversation := new Conversation(conversationId, now, now);
    }

    /**
     * `generateResponse`: clears the error, appends the streaming placeholder, builds the prompt
     * from the log as it now stands, then fills the placeholder from the chosen producer; a backend
     * error is recorded and the placeholder removed. The turn always ends not generating.
     */
    method GenerateResponse(aiId: Uuid, now: Time, pick: nat)
      requires pick < |Responses|
      modifies this, conversation
      ensures conversation == old(conversation) && settings == old(settings)
      ensures conversation.title == old(conversation.title)
      ensures conversation.messages == TurnMessages(old(conversation.messages), aiId, now, settings, backend, pick)
      ensures errorMessage == TurnError(old(conversation.messages), aiId, now, settings, backend, pick)
      ensures conversation.updatedAt == now && !isGenerating
    {
      isGenerating := true;
      errorMessage := None;

      var aiMessage := NewMessage(aiId, "", Ai, now, true);
      conversation.AddMessage(aiMessage, now);

      var context := Context(conversation.messages);
      assert context == TurnContext(old(conversation.messages), aiId, now);
      if settings.useSimulatedResponses {
        SimulateStreamingResponse(context, pick, now);
        assert "" + Responses[pick] == Responses[pick];
      } else {
        var response := backend(context, ValidatedMaxTokens(settings), ValidatedTemperature(settings));
        match response
        case Success(text) =>
          conversation.UpdateLastMessage(text, now);
        case Failure(e) =>
          errorMessage := Some(ErrorPrefix + LocalizedDescription(e));
          conversation.messages := conversation.messages[..|conversation.messages| - 1];
      }

      isGenerating := false;
    }

    /**
     * `simulateStreamingResponse`: types the picked canned reply onto the last message one
     * character at a time, then clears its streaming flag. The prompt is not used.
     */
    method SimulateStreamingResponse(context: string, pick: nat, now: Time)
      requires pick < |Responses|
      requires |conversation.messages| > 0
      modifies conversation
      ensures var n := |old(conversation.messages)|;
        var last := old(conversation.messages)[n - 1];
        conversation.messages == old(conversation.messages)[..n - 1] + [WithStreaming(WithContent(last, last.content + Responses[pick]), false)]
      ensures conversation.updatedAt == now
      ensures conversation.title == old(conversation.title)
    {
      var response := Responses[pick];
      ghost var earlier := conversation.messages[..|conversation.messages| - 1];
      ghost var start := conversation.messages[|conversation.messages| - 1];
      assert start.content + response[..0] == start.content;
      for i := 0 to |response|
        invariant conversation.messages == earlier + [WithContent(start, start.content + response[..i])]
        invariant i > 0 ==> conversation.updatedAt == now
        invariant conversation.title == old(conversation.title)
      {
        var last := conversation.messages[|conversation.messages| - 1];
        assert last.content + [response[i]] == start.content + response[..i + 1] by {
          assert response[..i + 1] == response[..i] + [response[i]];
        }
        conversation.UpdateLastMessage(last.content + [response[i]], now);
      }
      assert response[..|response|] == response;

      if conversation.messages != [] {
        var lastMessage := conversation.messages[|conversation.messages| - 1];
        lastMessage := NewMessage(lastMessage.id, lastMessage.content, lastMessage.sender, lastMessage.timestamp, false);
        conversation.messages := conversation.messages[|conversation.messages| - 1 := lastMessage];
      }
    }
  }
}
