# AIService streaming chat core, in Dafny

This project models the conversation and streaming logic of `AIService` in
the Mac AI Assistant app. That is the object that keeps the chat
transcript, sends it to an OpenAI-compatible chat-completion endpoint, and
builds the assistant's answer from a server-sent-events body.

The model has these modules:

- `Wrappers` (wrappers.dfy): `Option`.
- `JsonValues` (json.dfy): the shape of a decoded JSON value, plus path lookup into it.
- `Text` (text.dfy): three string helpers.
  - The blank-input guard, `trimmingCharacters(in: .whitespacesAndNewlines).isEmpty`.
  - `hasPrefix`.
  - The decimal rendering of an `Int` in string interpolation, with a read-back function.
- `Sse` (sse.dfy): the line decoder and the fold of fragments into the buffer.
  - A body line counts only when it starts with `data: ` and is not `data: [DONE]`.
  - The fragment is `choices[0].delta.content`.
  - The buffer grows by concatenation, in arrival order.
  - A `data:` line without the space is skipped, though the SSE field rule would accept it.
  - The JSON text parser is a function parameter `parse: string -> Option<Json>`.
- `Conversation` (conversation.dfy): `Message`, and the request body `{model, messages, stream: true}` with a read-back function.
- `ChatService` (service.dfy): the service itself.
  - The four published fields as a `State` value.
  - Pure step functions: `AfterStart`, `AfterStream`, `AfterError`, `AfterSend`.
  - Lemmas about those step functions.
  - The class `AIService`, whose fields `messages`, `isStreaming`, `currentStreamingMessage` and `inputText` its methods update in place.
    - `SendMessage` is proved equal to `AfterSend`, and `StreamResponse` to `AfterStream`.
    - `ReadLines` is proved equal to the fold `Sse.Fragments`.
    - `SendIfIdle` is proved equal to `AfterSend` when idle, and to no change while streaming.
    - `BeginSend` and `ClearHistory` state each field directly.

The network exchange is an input value, `Exchange`, with three cases:

- `BadURL`: the endpoint string is not a URL.
- `ConnectFailed`: the transport throws before any response.
- `Responded(status, lines, end)`: a response. `status` is an HTTP code or "not HTTP". `end` says whether the line sequence ran out or the transport threw after those lines.

The step functions state the blank guard as "every character is whitespace or a newline". `Text.BlankIffAllWhitespace` proves this equal to the code's test, "empty after trimming". `AIService.BeginSend` applies the trimming test itself.

Four behaviours of the code that are easy to get wrong:

- `data: [DONE]` is skipped like any other non-chunk line. It does not end the read loop: fragments on later lines are still added (`Sse.DoneDoesNotStop`).
- `sendMessage` has no in-flight guard. A send during a session appends a second user turn and starts a second exchange (`ChatService.SendAppendsTwoTurns` has no requirement on `isStreaming`). Only the UI checks this; `AIService.SendIfIdle` mirrors the Return-key handler of the chat view.
- On the error path the buffer is not cleared. It keeps the fragments read before a mid-stream failure (`ChatService.SendBroken`).
- The `choices` cast `as? [[String: Any]]` succeeds only when every element of `choices` is a dictionary, so a chunk whose later choices are not objects is skipped (`Sse.ContentOfIff`).

## Model

| member | source | states |
|---|---|---|
| Text.TrimLeading | Sources/Services/AIService.swift:24 | the result is a suffix of the input, everything removed is whitespace or a newline, and the result is empty or starts with a non-blank character |
| Text.TrimTrailing | Sources/Services/AIService.swift:24 | the result is a prefix of the input, everything removed is whitespace or a newline, and the result is empty or ends with a non-blank character |
| Text.BlankIffAllWhitespace | Sources/Services/AIService.swift:24 | a text is empty after trimming whitespace and newlines exactly when every character of it is whitespace or a newline |
| Text.NatDigits | Sources/Services/AIService.swift:73 | the rendering of a natural number is a non-empty digit string with no leading zero |
| Text.DecimalRoundTrip | Sources/Services/AIService.swift:73 | the decimal rendering of any integer, negative ones included, reads back as that integer |
| Text.DecimalStringInjective | Sources/Services/AIService.swift:73 | distinct integers render as distinct strings |
| Sse.DecodeLine | Sources/Services/AIService.swift:77-87 | a line that does not start with `data: ` is skipped, and so is the exact line `data: [DONE]` |
| Sse.DecodeFragmentIff | Sources/Services/AIService.swift:77-87 | a line yields fragment t exactly when it is a `data: ` line other than `data: [DONE]` and what follows the first six characters parses to a chunk whose content is t |
| Sse.ContentOfIff | Sources/Services/AIService.swift:80-85 | a chunk yields t exactly when the string t sits at path choices/0/delta/content and every element of `choices` is an object |
| Sse.DecodeExample | Sources/Services/AIService.swift:79-87 | `data: ` followed by a text parsing to `{"choices":[{"delta":{"content":"Hi"}}]}` yields the fragment `Hi` |
| Sse.FragmentsAppend | Sources/Services/AIService.swift:76-92 | the text accumulated from two batches of lines is the first batch's text followed by the second's, so fragments are added in arrival order |
| Sse.FragmentsSnoc | Sources/Services/AIService.swift:89-91 | one more line adds its own fragment, or nothing, at the end of the buffer |
| Sse.FragmentsSkipLine | Sources/Services/AIService.swift:77-87 | a skipped line, wherever it occurs, leaves the accumulated text unchanged |
| Sse.DoneDoesNotStop | Sources/Services/AIService.swift:77 | `data: [DONE]` does not end the read: the text after it is the text before it followed by the fragments of the later lines |
| Conversation.MessagesJson | Sources/Services/AIService.swift:58 | the payload array is as long as the history, and element i is a dictionary with exactly the keys `role` and `content`, holding the role and content of history[i] |
| Conversation.MessageRoundTrip | Sources/Services/AIService.swift:58 | each request dictionary reads back as the message it was built from |
| Conversation.HistoryRoundTrip | Sources/Services/AIService.swift:58 | reading the payload array back yields the history, in order |
| Conversation.RequestBodyRoundTrip | Sources/Services/AIService.swift:58-64 | reading the request body back yields the configured model name, the full history in order, and `stream` true |
| Conversation.RequestBodyShape | Sources/Services/AIService.swift:60-64 | for every history, empty or not, the body has exactly the keys `model`, `messages` and `stream`, holding the model name, an array as long as the history, and true |
| Conversation.RequestBodyElement | Sources/Services/AIService.swift:58-62 | element i of the body's `messages` array is the dictionary of history[i] and reads back as history[i] |
| ChatService.SendBlankChangesNothing | Sources/Services/AIService.swift:23-24 | when the text to send (the argument, or else the input field) is all whitespace and newlines, a send leaves `messages`, `isStreaming`, the buffer and `inputText` as they were |
| ChatService.SendAppendsTwoTurns | Sources/Services/AIService.swift:22-46 | a non-blank send, during a session or not, with any outcome, keeps the earlier turns, appends exactly the user turn with that text and then one assistant turn, clears the input and ends idle |
| ChatService.SendCompleted | Sources/Services/AIService.swift:94-99 | an accepted response read to its end appends the user turn and one assistant turn holding the fragments of all lines in order (possibly empty), clears the buffer and ends idle |
| ChatService.SendBroken | Sources/Services/AIService.swift:41-44 | a transport failure mid-body appends the user turn and an `Error: ` turn only; the buffer keeps the fragments of the lines read before it; the service ends idle |
| ChatService.SendRejected | Sources/Services/AIService.swift:70-74 | a status outside 200...299, or a non-HTTP response, appends an `Error: Server returned status code <code>` turn (code -1 when not HTTP) and reads no body line: the result does not depend on the lines |
| ChatService.SendFailedEarly | Sources/Services/AIService.swift:38-51 | a bad endpoint or a throwing connection appends the user turn and an `Error: ` turn with the error's description, leaves the buffer empty and ends idle |
| ChatService.StatusDescriptionInjective | Sources/Services/AIService.swift:72-73 | the status error text determines the status code |
| ChatService.Status500Example | Sources/Services/AIService.swift:70-73 | status 500 is reported as `Error: Server returned status code 500` |
| ChatService.NotHttpExample | Sources/Services/AIService.swift:72 | a non-HTTP response is reported as `Error: Server returned status code -1` |
| ChatService.SentBodyCarriesStore | Sources/Services/AIService.swift:39 | the body handed to the transport reads back as the model name, the store's full history including the new user turn, and `stream` true |
| ChatService.AIService.constructor | Sources/Services/AIService.swift:4-7 | the service starts with no messages, not streaming, an empty buffer and an empty input |
| ChatService.AIService.BeginSend | Sources/Services/AIService.swift:22-36 | blank text changes nothing; otherwise, before any request, the input is cleared, exactly the user turn is appended after the unchanged earlier turns, the service is streaming and the buffer is empty |
| ChatService.AIService.SendMessage | Sources/Services/AIService.swift:22-46 | the new state is `AfterSend` of the old one, and the body given to the transport is built from the old history plus the new user turn (none for blank text or a bad endpoint) |
| ChatService.AIService.StreamResponse | Sources/Services/AIService.swift:48-100 | the new state and the error thrown are `AfterStream` of the old state: the read loop adds each line's fragment to the buffer in order, and the clean end commits the buffer and clears it |
| ChatService.AIService.ReadLines | Sources/Services/AIService.swift:76-92 | after the loop the buffer is its old contents followed by the fragments of all lines in arrival order; skipped lines add nothing and the loop goes on past them |
| ChatService.AIService.ClearHistory | Sources/Services/AIService.swift:102-104 | `messages` becomes empty and no other field changes |
| ChatService.AIService.SendIfIdle | Sources/UI/ChatView.swift:144-148 | while a session is streaming nothing changes and nothing is sent; otherwise the new state is that of `sendMessage` on the input field, and the body sent is built from the old history plus the input as a user turn (none for a blank input or a bad endpoint) |

## Left out

- Network I/O: `URLSession` bytes, request headers (`Authorization: Bearer`, `Content-Type`) and the POST method are not modelled. The exchange outcome is an input value.
- `URL(string:)` parsing is not modelled: whether the endpoint is valid comes in as `BadURL`.
- JSON text parsing and serialization (`JSONSerialization`) are not modelled. Parsing is a parameter, and the request body is modelled as a JSON value, not as bytes. `JSONSerialization.data` cannot fail for this body, so that throw is not modelled. `String.data(using: .utf8)` always succeeds and is left out.
- The `MainActor.run` hops and async scheduling are not modelled. Observers can see the fields between hops; the model treats each operation as one sequential step.
- The settings read from user defaults (API key, endpoint, model name, and their defaults) are a `Config` input.
- The text of `error.localizedDescription` is foreign and depends on the locale. It is an input string, except for the status error, whose description is set in the code and is modelled exactly.
- The `Message` type's identity (its id) is not modelled: the file that declares `Message` is not part of this model. Roles are plain strings, as in the code.
- Characters are Unicode scalar values. Swift compares and drops the `data: ` prefix by grapheme clusters, so a combining mark right after `data: ` is not modelled.
- The chat view's send-button enabling rule is not modelled separately; the Return-key guard is (`SendIfIdle`).
- The hot-key manager, the panel, the settings view and the app delegate are presentation and OS glue, with no state of this core.
