# CoreChat conversation core, in Dafny

CoreChat is an iOS chat shell. This project models its in-memory chat state and the protocol
of one generation turn:

- **Message** (`Messages`): an immutable record with id, content, sender (`User` or `Ai`),
  timestamp and streaming flag.
- **Conversation** (`Conversations`): a class holding the ordered message log. It has two
  mutations: `AddMessage`, which appends and stamps `updatedAt`, and `UpdateLastMessage`,
  which rebuilds the last message around new content and does nothing on an empty log.
- **ModelSettings** (`Settings`): generation parameters that are clamped silently. Token limits
  are clamped to [10, 2048], temperature to [0, 2] and top-p to [0, 1].
- **ModelManager** (`ModelManagers`): the stub backend. `Generate` always answers with one fixed
  text. `GenerateStreaming` always fails with `ModelNotLoaded`. A load flag drives `ModelInfo`.
  Each `ModelError` has a fixed description.
- **ChatViewModel** (`ChatViewModels`): the turn state machine. `SendMessage` ignores blank input
  and input that arrives while a turn is running. Otherwise it appends the user message and runs
  `GenerateResponse`. That method appends an empty streaming assistant placeholder and builds the
  prompt from the last ten messages, placeholder included. It then either types a canned reply
  into the placeholder one character at a time (simulated mode) or writes the backend's whole
  answer once. On a backend failure it records the error and removes the placeholder.
  `RegenerateLastResponse` drops a trailing assistant message and runs a turn.
  `ClearConversation` starts an empty conversation.

A turn's outcome is also given as pure functions of the log before it (`TurnMessages`,
`TurnError`). The view-model methods are proved equal to them. The lemmas about those functions
state the turn's promises: one reply appended on success, a full rollback on failure, and a
finished, non-empty reply in simulated mode. `Text` holds Foundation's whitespace trimming and
`joined(separator:)`. `Scenarios` drives whole turns from a fresh chat: a simulated reply and its
regeneration, blank input, a failing backend, and the stub backend.

The backend path leaves its reply flagged as streaming: `GenerateResponse` never clears the flag
after `updateLastMessage`. So two successful backend turns leave two streaming messages in the
log (`BackendTurnsLeaveTwoStreaming`). The rule "at most one message is streaming at a time"
therefore holds only in simulated mode or when the backend fails (`TurnKeepsNoneStreaming`).
The model keeps the code's behaviour here.

Also following the code, the prompt sent to the backend is built after the placeholder is
appended, so it ends with the line `Assistant: ` (`TurnContextEndsWithAssistantLine`).

## Model

| member | source | states |
|---|---|---|
| `Messages.NewMessage` | CoreChat/CoreChat/Models/Message.swift:17-23 | the initialiser stores id, content, sender, timestamp and streaming flag as given |
| `Messages.NewMessageNotStreamingByDefault` | CoreChat/CoreChat/Models/Message.swift:15-17 | a message built without a streaming flag is not streaming |
| `Messages.RawValue` | CoreChat/CoreChat/Models/Message.swift:25-28 | `User` is encoded as "user" and `Ai` as "ai", and no other string is produced |
| `Messages.SenderFromRaw` | CoreChat/CoreChat/Models/Message.swift:25-28 | decoding succeeds exactly for "user" and "ai", and a decoded sender encodes back to the string it came from |
| `Messages.RawValueRoundTrip` | CoreChat/CoreChat/Models/Message.swift:25-28 | decoding a sender's raw value gives that sender back |
| `Messages.IsFromUser` | CoreChat/CoreChat/Models/Message.swift:30-32 | `isFromUser` holds exactly when the sender is the user, and fails exactly when it is the assistant |
| `Messages.WithContent` | CoreChat/CoreChat/Models/Conversation.swift:32-33 | rebuilding with new content keeps id, sender, timestamp and streaming flag |
| `Messages.WithStreaming` | CoreChat/CoreChat/ViewModels/ChatViewModel.swift:115-123 | rebuilding with a new streaming flag keeps id, content, sender and timestamp |
| `Messages.WithContentLaws` | CoreChat/CoreChat/Models/Message.swift:11-14 | rebuilding with the same content is the identity; a second rebuild overrides the first |
| `Settings.ValidatedMaxTokens` | CoreChat/CoreChat/Models/ModelSettings.swift:21-23 | the result lies in [10, 2048]; it is the input inside that range, 10 below it and 2048 above it |
| `Settings.ValidatedTemperature` | CoreChat/CoreChat/Models/ModelSettings.swift:17-19 | the result lies in [0, 2]; it is the input inside that range, 0 below it and 2 above it |
| `Settings.ValidatedTopP` | CoreChat/CoreChat/Models/ModelSettings.swift:25-27 | the result lies in [0, 1]; it is the input inside that range, 0 below it and 1 above it |
| `Settings.ValidatedMaxTokensMonotone` | CoreChat/CoreChat/Models/ModelSettings.swift:22 | clamping preserves the order of two token limits |
| `Settings.ValidatedMaxTokensIdempotent` | CoreChat/CoreChat/Models/ModelSettings.swift:22 | clamping a clamped limit changes nothing |
| `Settings.DefaultIsValid` | CoreChat/CoreChat/Models/ModelSettings.swift:11-14 | the defaults (0.7, 150, 0.9, simulated) pass validation unchanged |
| `Text.TrimLeading` | CoreChat/CoreChat/ViewModels/ChatViewModel.swift:29 | the result is a suffix of the input, everything dropped is whitespace, and it does not start with whitespace |
| `Text.TrimTrailing` | CoreChat/CoreChat/ViewModels/ChatViewModel.swift:29 | the result is a prefix of the input, everything dropped is whitespace, and it does not end with whitespace |
| `Text.Trim` | CoreChat/CoreChat/ViewModels/ChatViewModel.swift:29 | the result is no longer than the input, is empty exactly when every character is whitespace, and otherwise neither starts nor ends with whitespace |
| `Text.JoinSnoc` | CoreChat/CoreChat/ViewModels/ChatViewModel.swift:72 | joining one more line appends the separator and that line |
| `Text.JoinEnds` | CoreChat/CoreChat/ViewModels/ChatViewModel.swift:72 | joining no lines gives the empty text; otherwise the joined text starts with the first line and ends with the last |
| `Text.JoinAfter` | CoreChat/CoreChat/ViewModels/ChatViewModel.swift:72 | one more line lands after the joined lines and a separator, or stands alone when there were no lines |
| `Conversations.ReplaceLastContent` | CoreChat/CoreChat/Models/Conversation.swift:30-36 | length and all but the last message are kept; the last gets the new content and keeps id, sender, timestamp and streaming flag |
| `Conversations.ReplaceLastContentTwice` | CoreChat/CoreChat/Models/Conversation.swift:30-36 | replacing the content twice equals replacing it once with the second content |
| `Conversations.Conversation.constructor` | CoreChat/CoreChat/Models/Conversation.swift:17-23 | a conversation built with defaults has no messages and the title "New Chat" |
| `Conversations.Conversation.AddMessage` | CoreChat/CoreChat/Models/Conversation.swift:25-28 | the log becomes the old log plus the message; `updatedAt` becomes now; the title is kept |
| `Conversations.Conversation.UpdateLastMessage` | CoreChat/CoreChat/Models/Conversation.swift:30-36 | on an empty log nothing changes, `updatedAt` included; otherwise the last content is replaced and `updatedAt` becomes now |
| `ModelManagers.ErrorDescription` | CoreChat/CoreChat/CoreML/ModelManager.swift:17-26 | every error has a description; an inference error's is "Inference failed: " followed by its message |
| `ModelManagers.LocalizedDescription` | CoreChat/CoreChat/CoreML/ModelManager.swift:17-26 | the text shown for an error is its description: "Model has not been loaded yet", "Core ML model file not found", or "Inference failed: " plus the message |
| `ModelManagers.ErrorDescriptionsDistinct` | CoreChat/CoreChat/CoreML/ModelManager.swift:17-26 | different errors get different descriptions |
| `ModelManagers.ModelManager.constructor` | CoreChat/CoreChat/CoreML/ModelManager.swift:32 | a fresh manager is not loaded |
| `ModelManagers.ModelManager.LoadModel` | CoreChat/CoreChat/CoreML/ModelManager.swift:36-61 | once loading completes the manager is loaded; a cancelled delay leaves the flag as it was |
| `ModelManagers.ModelManager.Generate` | CoreChat/CoreChat/CoreML/ModelManager.swift:65-97 | generation always succeeds with the fixed placeholder text |
| `ModelManagers.GenerateIgnoresRequest` | CoreChat/CoreChat/CoreML/ModelManager.swift:65-97 | the answer is the same for every prompt, token limit and temperature |
| `ModelManagers.ModelManager.GenerateStreaming` | CoreChat/CoreChat/CoreML/ModelManager.swift:101-113 | streaming yields no token and fails with `modelNotLoaded` |
| `ModelManagers.ModelManager.ModelInfo` | CoreChat/CoreChat/CoreML/ModelManager.swift:117-123 | the text is "Model loaded (simulated mode)" exactly when loaded and "No model loaded" exactly when not |
| `ModelManagers.ModelManager.EstimatedMemoryUsage` | CoreChat/CoreChat/CoreML/ModelManager.swift:125-128 | the estimate is 0 |
| `ChatViewModels.ResponsesNonEmpty` | CoreChat/CoreChat/ViewModels/ChatViewModel.swift:96-106 | every canned reply is non-empty |
| `ChatViewModels.Suffix` | CoreChat/CoreChat/ViewModels/ChatViewModel.swift:69-70 | the window is the log's suffix of length min(10, n) |
| `ChatViewModels.Render` | CoreChat/CoreChat/ViewModels/ChatViewModel.swift:71 | a user message becomes "User: " plus its content, an assistant message "Assistant: " plus its content |
| `ChatViewModels.RenderAll` | CoreChat/CoreChat/ViewModels/ChatViewModel.swift:71 | one prompt line per message, in order |
| `ChatViewModels.RenderInjective` | CoreChat/CoreChat/ViewModels/ChatViewModel.swift:71 | a prompt line is equal for two messages exactly when sender and content are |
| `ChatViewModels.ContextFirstAndLastLines` | CoreChat/CoreChat/ViewModels/ChatViewModel.swift:69-72 | the prompt of an empty log is empty; otherwise it starts with the line of the oldest message in the ten-message window and ends with the line of the newest message |
| `ChatViewModels.SuffixSnoc` | CoreChat/CoreChat/ViewModels/ChatViewModel.swift:69-70 | the window of a log with one more message is the previous window one shorter, then that message |
| `ChatViewModels.ContextSnoc` | CoreChat/CoreChat/ViewModels/ChatViewModel.swift:69-72 | appending a message makes the prompt the lines of the nine messages before it, then its own line |
| `ChatViewModels.ContextEndsWithPlaceholder` | CoreChat/CoreChat/ViewModels/ChatViewModel.swift:63-72 | with the empty placeholder appended, the prompt is the lines of the nine previous messages, each with a newline, then "Assistant: " |
| `ChatViewModels.TurnContextEndsWithAssistantLine` | CoreChat/CoreChat/ViewModels/ChatViewModel.swift:63-72 | every turn's prompt ends in "Assistant: " |
| `ChatViewModels.Placeholder` | CoreChat/CoreChat/ViewModels/ChatViewModel.swift:64 | the placeholder is an empty streaming assistant message |
| `ChatViewModels.Produce` | CoreChat/CoreChat/ViewModels/ChatViewModel.swift:74-83 | simulated mode always yields the picked canned reply |
| `ChatViewModels.BackendSeesPlaceholderPrompt` | CoreChat/CoreChat/ViewModels/ChatViewModel.swift:79-83 | in backend mode the reply is the backend's answer to the placeholder-bearing prompt with the clamped token limit and temperature |
| `ChatViewModels.TurnMessages` | CoreChat/CoreChat/ViewModels/ChatViewModel.swift:59-93 | the log after a turn is the log before it exactly when the turn fails; otherwise it is the old log plus one assistant message with the turn's id and time |
| `ChatViewModels.TurnError` | CoreChat/CoreChat/ViewModels/ChatViewModel.swift:87-92 | a turn records no error exactly when it succeeds; a recorded error starts with "Failed to generate response: " |
| `ChatViewModels.TurnSuccessAppendsReply` | CoreChat/CoreChat/ViewModels/ChatViewModel.swift:59-93 | a successful turn keeps the old log, adds one assistant message holding the reply, and leaves no error |
| `ChatViewModels.TurnFailureRollsBack` | CoreChat/CoreChat/ViewModels/ChatViewModel.swift:87-90 | a failed turn leaves the log as before it and records "Failed to generate response: " plus the description |
| `ChatViewModels.SimulatedTurnCompletes` | CoreChat/CoreChat/ViewModels/ChatViewModel.swift:106-124 | a simulated turn adds one finished, non-empty assistant message holding the picked reply |
| `ChatViewModels.StubBackendTurn` | CoreChat/CoreChat/ViewModels/ChatViewModel.swift:79-84 | with the stub manager as backend the turn succeeds with the placeholder text |
| `ChatViewModels.TurnKeepsNoneStreaming` | CoreChat/CoreChat/ViewModels/ChatViewModel.swift:84-124 | simulated turns and failed turns add no streaming message |
| `ChatViewModels.BackendTurnsLeaveTwoStreaming` | CoreChat/CoreChat/ViewModels/ChatViewModel.swift:84 | two successful backend turns leave two messages flagged as streaming |
| `ChatViewModels.DropTrailingAi` | CoreChat/CoreChat/ViewModels/ChatViewModel.swift:43-46 | one message is dropped exactly when the log ends with an assistant message; the rest is a prefix kept intact |
| `ChatViewModels.ChatViewModel.constructor` | CoreChat/CoreChat/ViewModels/ChatViewModel.swift:20-24 | a new view model has an empty "New Chat" conversation, default settings, no turn running and no error |
| `ChatViewModels.ChatViewModel.SendMessage` | CoreChat/CoreChat/ViewModels/ChatViewModel.swift:28-40 | blank input or a running turn changes nothing; otherwise the untrimmed text is appended as a user message and a turn runs |
| `ChatViewModels.ChatViewModel.RegenerateLastResponse` | CoreChat/CoreChat/ViewModels/ChatViewModel.swift:42-51 | a trailing assistant message is dropped and a turn runs on the rest, without checking `isGenerating` |
| `ChatViewModels.ChatViewModel.ClearConversation` | CoreChat/CoreChat/ViewModels/ChatViewModel.swift:53-55 | a fresh empty "New Chat" conversation replaces the old one; nothing else changes |
| `ChatViewModels.ChatViewModel.GenerateResponse` | CoreChat/CoreChat/ViewModels/ChatViewModel.swift:59-93 | the log and error become the turn's outcome, `updatedAt` becomes now and no turn is left running |
| `ChatViewModels.ChatViewModel.SimulateStreamingResponse` | CoreChat/CoreChat/ViewModels/ChatViewModel.swift:95-125 | the earlier messages are kept; the last message ends holding its old content plus the whole picked reply, is no longer streaming, and `updatedAt` becomes now (its loop keeps the reply's first k characters typed after k steps) |

## Left out

- Concurrency: `Task { … }`, `@MainActor` and the 20 ms typing delay. A turn runs straight through as one sequential step. The moment in which the user message is appended but `isGenerating` is still false is not modelled, and neither are the intermediate states that observers see between typed characters.
- Clock and identifiers: each `Date()` is a supplied `now`, and each `UUID()` is a supplied id. One turn reads the clock once, so the placeholder's timestamp and every `updatedAt` stamp in a turn are the same instant. Two `Date()` calls of one `Conversation()` also share one reading. Readings need not be monotone.
- Randomness: `randomElement()` is a supplied index `pick` into the seven canned replies. The list is not empty, so the `?? responses[0]` fallback is never taken.
- The backend is a pure function value fixed at construction, standing for `init(modelManager:)`. A backend that answers differently over time is not modelled. The stub manager's `Generate` is one such value.
- Errors: only `ModelError` values reach the catch. `localizedDescription` is the error's `errorDescription`. Errors of other types are not modelled.
- `ModelManagers.ModelManager.LoadModel`: the cancellation of the 500 ms delay is a flag. The commented-out Core ML loading and the unused `MLModel` field are not modelled.
- Text: strings are sequences of Unicode scalars. A Swift `Character` made of several scalars (an emoji with a modifier, a letter with a combining accent) becomes several `char`s, so `SimulateStreamingResponse` types one scalar per step where the app types one `Character` per step (ChatViewModel.swift:109), and lengths count scalars. The seven canned replies are plain ASCII, where the two agree. Trimming uses Foundation's fixed whitespace-and-newline set.
- Numbers: temperature and top-p are mathematical reals, so `Double` rounding and NaN are not modelled. `Int` is unbounded; the clamps never overflow.
- Views, app bootstrap, colours, date formatting, keyboard notifications, haptics and the package manifest are SwiftUI and UIKit plumbing outside the core.
- Codable serialisation of whole messages and conversations. Only the senders' raw values are modelled.
