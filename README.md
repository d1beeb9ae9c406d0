# llama-link chat engine, modelled in Dafny

The chat component of llama-link (`src/components/chat.tsx`) lets a user pick
a local language model, type a message and watch the assistant's answer
arrive as a stream of text fragments. Its core is the conversation stream
engine. It keeps an ordered transcript of `{role, content}` messages and the
cursor `assistantMessageId`: the index of the assistant message that the
current exchange is streaming into, or none. It changes them in four ways:

- **Submission.** `sendMessage` ignores input that is blank once trimmed, and
  ignores any input while no model is selected. Otherwise it appends the
  trimmed text as a user message, clears the input box, resets the cursor and
  sends the transcript to the backend.
- **Fragment fold.** Each streamed fragment grows the last message in place
  when that message is an assistant message and the cursor points at it.
  Otherwise the fragment opens a new assistant message and the cursor moves
  to it.
- **Error note.** A rejected exchange always appends a separate assistant
  message `"Error: " + details`. It never merges into a partial reply.
- **Model directory.** Selecting a model empties the transcript, even when
  it is the model already selected. When the fetched model list is
  non-empty, its first entry becomes the selection.

The project has three modules:

- `text.dfy`, module `Text`: ECMAScript's `String.prototype.trim`, which the
  guard and the user message use.
- `conversation.dfy`, module `Conversation`: the engine on values. It holds
  the messages, the pure `setMessages` updaters (`AppendUser`, `FoldFragment`,
  `AppendError`) and the fold of a whole stream (`FoldAll`). It also holds one
  exchange (`Exchange`), a run of exchanges (`Converse`) and the lemmas about
  them.
- `chat.dfy`, module `ChatComponent`: class `Chat`. Its fields are the
  component's state: `messages`, `input`, `models`, `selectedModel`, and
  `cursor` for `assistantMessageId`. The handlers are methods that update
  those fields in place. The handlers that change the transcript
  (`Submit`, `OnMessage`, `OnError`, `Receive`, `SendMessage`) tie the new
  state to the `Conversation` functions; the constructor, `FetchModels`,
  `EditInput` and `SelectModel` give the new fields directly.

The backend is not modelled. Its replies come in as parameters:

- a `Reply` gives the fragments of one exchange in arrival order, and then
  says whether the call resolved or was rejected, and with what;
- `FetchModels` receives either the list that `get_models` resolved with or
  `None`.

## Model

| member | source | states |
|---|---|---|
| `Text.TrimStart` | src/components/chat.tsx:53 | The result is the suffix of the input left after dropping leading whitespace. Everything dropped is whitespace, and the result is empty or starts with a non-whitespace character. |
| `Text.TrimEnd` | src/components/chat.tsx:53 | The result is the prefix of the input left after dropping trailing whitespace. Everything dropped is whitespace, and the result is empty or ends with a non-whitespace character. |
| `Text.Trim` | src/components/chat.tsx:49-53 | `trim()` is empty exactly when the input is blank (this is the guard's first condition). A non-empty result starts and ends with a non-whitespace character. |
| `Text.TrimRemovesOnlyWhiteSpace` | src/components/chat.tsx:53 | The trimmed text is a contiguous piece of the input, with only whitespace before and after it. |
| `Text.TrimKeepsTrimmed` | src/components/chat.tsx:53 | Text with no whitespace at either end is stored exactly as typed. |
| `Text.TrimIdempotent` | src/components/chat.tsx:53 | Trimming an already trimmed text changes nothing. |
| `Conversation.Admits` | src/components/chat.tsx:49 | A submission goes through exactly when the input has a non-whitespace character and the selected model identifier is not empty. |
| `Conversation.CanExtend` | src/components/chat.tsx:67 | The fold condition: the transcript is non-empty, its last message is an assistant message and the cursor holds that message's index. Its consequences are stated by `FoldFragment`, `AppendUser` and `FoldAllGrows`. |
| `Conversation.AppendUser` | src/components/chat.tsx:51-56 | Appends exactly one user message with the given text: earlier entries are unchanged and the user turns gain exactly that text. The result ends in a user message, so no cursor can extend it. |
| `Conversation.FoldFragment` | src/components/chat.tsx:62-77 | Extend case: when the last message is an assistant message and the cursor is its index, the fragment is appended to that message's content. The length and cursor stay the same and every other entry is identical. Open case: in every other situation one new assistant message holding the fragment is appended and the cursor becomes the old length. Either way the cursor ends on a trailing assistant message. |
| `Conversation.FoldFragmentGrows` | src/components/chat.tsx:64-76 | Folding a fragment removes nothing, changes no role, only extends content and leaves user messages and the user turns untouched. |
| `Conversation.FoldAll` | src/components/chat.tsx:62-77 | The channel handing the stream's fragments to `onmessage` one at a time, in arrival order. What it yields is stated by `FoldAllGrows` and `StreamYieldsOneReply`. |
| `Conversation.FoldAllGrows` | src/components/chat.tsx:62-77 | A whole stream only grows the transcript and keeps its user turns. After at least one fragment the cursor is on the trailing assistant message. |
| `Conversation.StreamYieldsOneReply` | src/components/chat.tsx:60-77 | Fragments F1..Fn (n >= 1) folded into a transcript the cursor cannot extend (as after a submission) append exactly one assistant message. Its content is F1+...+Fn in arrival order and the cursor holds its index. |
| `Conversation.ErrorNote` | src/components/chat.tsx:91 | The error message has role assistant. Its content starts with `"Error: "`, followed by the `message` of an `Error` instance or the string form of any other rejection value. |
| `Conversation.AppendError` | src/components/chat.tsx:89-91 | A rejection appends one new error message. Every earlier entry, a partial reply included, is left exactly as it was. The user turns do not change. |
| `Conversation.ErrorNoteIsNeverExtended` | src/components/chat.tsx:60-91 | With the exchange's cursor pointing below the error note, a fragment arriving after it opens a new message and does not merge into the note. |
| `Conversation.Exchange` | src/components/chat.tsx:47-93 | `sendMessage` on values: append the user message with the cursor at none, fold the fragments, append the error note on rejection. Its result is stated by `ExchangeShape`, `ExchangeGrows`, `ExchangeAddsOneUserTurn` and `LateFragmentAfterError`. |
| `Conversation.LateFragmentAfterError` | src/components/chat.tsx:60-91 | After a rejected exchange, with or without a partial reply, a fragment that still arrives opens a new assistant message after the error description and never merges into it. |
| `Conversation.ExchangeShape` | src/components/chat.tsx:47-93 | One exchange leaves the old transcript, then the user message, then the streamed reply when any fragment arrived, then the error note when the exchange was rejected. |
| `Conversation.ExchangeGrows` | src/components/chat.tsx:47-93 | An exchange keeps every earlier message in place with its role, and every earlier user message unchanged (a consequence of `ExchangeShape`). |
| `Conversation.ExchangeAddsOneUserTurn` | src/components/chat.tsx:51-56 | An exchange adds exactly one user turn, the submitted text, whatever the backend answers. |
| `Conversation.Converse` | src/components/chat.tsx:47-93 | Successive submissions under one selection, each exchange finishing before the next; a submission the guard refuses changes nothing. Its result is stated by `ConverseUserTurns` and `NoModelNoChange`. |
| `Conversation.ConverseUserTurns` | src/components/chat.tsx:47-93 | Over any run of submissions, each exchange finishing before the next, the user turns are the old ones followed by the trimmed text of every admitted submission, in order. |
| `Conversation.NoModelNoChange` | src/components/chat.tsx:49 | With no model selected, no run of submissions changes the transcript, and none is admitted. |
| `ChatComponent.Chat.constructor` | src/components/chat.tsx:20-23 | The component starts with an empty transcript, empty input, no models, no selection and no cursor. |
| `ChatComponent.Chat.FetchModels` | src/components/chat.tsx:26-44 | A failed fetch changes nothing. A fetched list replaces the model list, and its first entry becomes the selection when it has one. An empty list leaves the selection as it was. |
| `ChatComponent.Chat.EditInput` | src/components/chat.tsx:95-97 | The input box takes the new value and nothing else changes. |
| `ChatComponent.Chat.SelectModel` | src/components/chat.tsx:99-102 | The selection becomes the given identifier and the transcript becomes empty, even for the current identifier. The input, the model list and the cursor are unchanged. |
| `ChatComponent.Chat.Submit` | src/components/chat.tsx:47-60 | Blank input or no selection returns no request and changes nothing. Otherwise the trimmed input is appended as a user message, the input is cleared and the cursor reset. The request carries the selected model and the transcript through the new message. |
| `ChatComponent.Chat.OnMessage` | src/components/chat.tsx:62-77 | The new transcript and cursor are `FoldFragment` of the old ones; input, models and selection are unchanged. |
| `ChatComponent.Chat.OnError` | src/components/chat.tsx:89-92 | The new transcript is `AppendError` of the old one; the cursor and everything else are unchanged. |
| `ChatComponent.Chat.Receive` | src/components/chat.tsx:62-88 | Fragments delivered one after another by the channel leave the transcript and cursor at `FoldAll` of the old ones. |
| `ChatComponent.Chat.SendMessage` | src/components/chat.tsx:47-93 | The handler as a whole. A rejected submission changes nothing. An admitted one sends the old transcript plus the user message and leaves the state `Exchange` describes: old transcript, user message, the one reply joining all fragments (if any), and the error note (if rejected). |

## Left out

- Rendering, styling and the widgets (src/components/chat.tsx:104-163), and
  `src/App.tsx`: UI only.
- The backend in `src-tauri/src/lib.rs` (the Ollama client, the Tauri
  commands, the `tokio` mutex) is async I/O over libraries not in view. It
  enters the model only as the `Reply` of an exchange and the optional list
  given to `FetchModels`.
- The request names its transcript field `messages` (src/components/chat.tsx:85)
  while the backend's `ChatRequest` expects `message`
  (src-tauri/src/lib.rs:25). This wire-format mismatch is not modelled. Any
  rejection it causes arrives as the `failure` of a `Reply`.
- React scheduling is not modelled: effect timing and batched state updates.
  The request context is the transcript before the submission plus the user
  message. The render-time `messages` closure at src/components/chat.tsx:85
  is not modelled; in a sequential run it is the same transcript.
- Overlapping exchanges are not modelled: each `SendMessage` runs to
  completion before the next event. So are streams still in flight after a
  model switch. `SelectModel` leaves the cursor as it was, as the closure of
  an in-flight exchange would keep it.
- `e.preventDefault()` and the `console` logging are left out. So is the
  distinction between a rejected `get_models` and a non-array result; both
  are `None`.
- Roles are a two-valued datatype rather than strings. The component only
  ever writes `"user"` and `"assistant"`.
- Strings are sequences of Unicode scalar values, not UTF-16 code units. Every
  character that `trim` removes lies in the Basic Multilingual Plane, so
  trimming agrees. Unpaired surrogates cannot be represented. The Zs
  category is taken as U+0020, U+00A0, U+1680, U+2000-U+200A, U+202F, U+205F
  and U+3000.
- The cursor `assistantMessageId` is a local of `sendMessage`, captured by
  the fragment handler (src/components/chat.tsx:60). The model keeps it as a
  field that the next `Submit` resets; a sequential run cannot tell the two
  apart.
- A failed or non-list model fetch leaves the model list and the selection
  as they were (empty at startup); `FetchModels` does the same.
