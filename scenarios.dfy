/** Whole turns driven through the view model, from a fresh chat. */
module Scenarios {
  import opened Wrappers
  import opened Messages
  import opened Text
  import opened ModelManagers
  import opened ChatViewModels

  /** Sending "Hello" in simulated mode leaves the user message and one finished, non-empty reply. */
  method SimulatedTurn(pick: nat)
    requires pick < |Responses|
  {
    var manager := new ModelManager();
    var chat := new ChatViewModel(1, 100, manager.Generate);
    assert !IsBlank("Hello") by { assert !IsWhitespace("Hello"[0]); }
    chat.SendMessage("Hello", 2, 3, 101, pick);
    SimulatedTurnCompletes([NewMessage(2, "Hello", User, 101)], 3, 101, chat.settings, chat.backend, pick);
    var log := chat.conversation.messages;
    assert |log| == 2 && log[0].content == "Hello" && log[0].sender == User;
    assert log[1].sender == Ai && log[1].content == Responses[pick] && !log[1].isStreaming;
    assert chat.errorMessage == None && !chat.isGenerating;
  }

  /** Regenerating after a reply replaces the reply and keeps the user message. */
  method RegenerateReplacesReply(reply: string, pick: nat)
    requires pick < |Responses|
  {
    var manager := new ModelManager();
    var chat := new ChatViewModel(1, 100, manager.Generate);
    var question := NewMessage(2, "Hello", User, 101);
    chat.conversation.messages := [question, NewMessage(3, reply, Ai, 101)];
    chat.RegenerateLastResponse(4, 102, pick);
    assert DropTrailingAi([question, NewMessage(3, reply, Ai, 101)]) == [question];
    SimulatedTurnCompletes([question], 4, 102, chat.settings, chat.backend, pick);
    assert |chat.conversation.messages| == 2 && chat.conversation.messages[0] == question;
    assert chat.conversation.messages[1].content == Responses[pick];
  }

  /** Blank input starts no turn and leaves the chat empty. */
  method BlankInputIsIgnored(pick: nat)
    requires pick < |Responses|
  {
    var manager := new ModelManager();
    var chat := new ChatViewModel(1, 100, manager.Generate);
    assert IsBlank(" \n\t ");
    chat.SendMessage(" \n\t ", 2, 3, 101, pick);
    assert chat.conversation.messages == [] && chat.errorMessage == None;
  }

  /** A backend that fails with an inference error leaves only the user message and reports the error. */
  method FailingBackendRollsBack(text: string, pick: nat)
    requires Trim(text) != [] && pick < |Responses|
  {
    var failing: Backend := (prompt: string, maxTokens: int, temperature: real) => Failure(InferenceError("timeout"));
    var chat := new ChatViewModel(1, 100, failing);
    chat.settings := chat.settings.(useSimulatedResponses := false);
    chat.SendMessage(text, 2, 3, 101, pick);
    var sent := [NewMessage(2, text, User, 101)];
    TurnFailureRollsBack(sent, 3, 101, chat.settings, failing, pick, InferenceError("timeout"));
    assert chat.conversation.messages == sent;
    assert chat.errorMessage == Some(ErrorPrefix + InferencePrefix + "timeout");
    assert !chat.isGenerating;
  }

  /** With the stub manager as backend, a turn ends with its placeholder text, still flagged as streaming. */
  method StubBackendReply(pick: nat)
    requires pick < |Responses|
  {
    var manager := new ModelManager();
    var chat := new ChatViewModel(1, 100, manager.Generate);
    chat.settings := chat.settings.(useSimulatedResponses := false);
    chat.GenerateResponse(3, 101, pick);
    StubBackendTurn(manager, [], 3, 101, chat.settings, pick);
    TurnSuccessAppendsReply([], 3, 101, chat.settings, chat.backend, pick, PlaceholderResponse);
    assert chat.conversation.messages == [NewMessage(3, PlaceholderResponse, Ai, 101, true)];
  }
}
