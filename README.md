# Chat page model

A Dafny model of the core of a small browser chat page that streams answers from a hosted
language model. It covers two pieces:

- The conversation controller of `src/App.tsx`. It holds the messages, the loading flag and the
  error text. It also holds a reference to the remote chat session. One turn appends a user
  message and an empty assistant message. Each streamed chunk goes into a running buffer, and
  the buffer's value is written into the assistant message. A failure shows a fixed error text,
  and the turn always ends with the page idle. Clearing the chat resets the state and creates a
  new session.
- The input box of `src/components/ChatInput.tsx`. A submit sends the trimmed text only when it is
  non-empty and the box is not disabled, and then it empties the box. Enter without Shift submits.
  The send button is disabled exactly when a submit would send nothing.

Layout:

- `wrappers.dfy`: `Option` and `Result`.
- `gemini.dfy`: session creation. It throws when no API key is set; otherwise it returns a fresh
  session handle.
- `conversation.dfy`: the `ChatState` datatype and the pure updaters the page passes to
  `setState`. It also has `Turn`, the specification of one whole turn, and the lemmas about them.
- `app.dfy`: class `ChatApp`. It has the mount effect, `HandleSend` (a loop over the chunks,
  proved against `Turn`), `ClearChat`, and `Submit`, which wires the input box to `HandleSend`
  with `disabled` set to the loading flag.
- `input.dfy`: JavaScript's `trim`, the submit decision, the button predicate and class
  `ChatInput`.

Inputs the program takes from its environment become parameters:

- The remote reply is a `Stream`: the chunks delivered and whether the stream ends by failing.
- The `Date.now()` and `new Date()` readings of a turn are a `TurnClock`. A message id is a
  number: the first reading for the user message, and the second reading plus one for the
  assistant message. The source formats it as a decimal string, and that formatting is injective,
  so comparing numbers is the same as comparing the strings.
- The API key is an `Option<string>` given when the page is mounted.

Behaviour of the code worth knowing:

- `handleSend` neither trims its argument nor refuses to start while a turn is loading. Only the
  input box does that, through `disabled`.
- A turn does not clear an error left from an earlier turn.
- `clearChat` does not catch a failure to create the new session. The reset has already happened,
  and the old session reference stays.
- Nothing in the code makes ids unique. The lemmas that describe the exact message list therefore
  assume fresh ids (`FreshTurnIds`). `StreamedUpdatesEveryMatch` states what happens without that
  assumption: every message carrying the assistant id is updated.
- Two turns started within the same millisecond clash. With readings of 5, the earlier reply's id
  is 6, and so is the new assistant id, so the new turn's chunks also overwrite the earlier reply
  (`SameMillisecondTurnsClash`).

## Model

| member | source | states |
|---|---|---|
| `Gemini.CreateChatSession` | src/services/gemini.ts:5-17 | Throws the fixed "not defined" message exactly when the key is unset or empty. Otherwise it returns a newly allocated session. |
| `Conversation.Initial` | src/App.tsx:11-15 | The page starts, and is reset by clearing, with no messages, not loading and no error. |
| `Conversation.UserMessage` | src/App.tsx:39-44 | The user message has role user, carries the submitted text unchanged, and takes the first clock reading as its id. |
| `Conversation.AssistantId` | src/App.tsx:47 | The assistant id is the second clock reading plus one. It differs from the user id unless the clock ran backwards in between. |
| `Conversation.AssistantMessage` | src/App.tsx:46-51 | The assistant placeholder has role assistant, empty content and the assistant id. |
| `Conversation.Concat` | src/App.tsx:60-64 | The running buffer `fullContent` starts as "". With chunks, it is at least as long as the last chunk appended. |
| `Conversation.ConcatEmpty` | src/App.tsx:60-64 | The buffer is empty exactly when every chunk so far was empty. |
| `Conversation.WithInitError` | src/App.tsx:24-25 | A failed session creation puts the thrown message into `error`. Messages and loading flag are untouched. |
| `Conversation.StartTurn` | src/App.tsx:39-57 | Starting a turn appends exactly two messages, user then assistant, after the unchanged earlier ones. It sets `isLoading` and keeps any existing `error`. |
| `Conversation.ReplaceContent` | src/App.tsx:67-71 | The chunk `map` gives the new content to every message whose id matches. Every other message is unchanged, and the length is kept. |
| `Conversation.WithContent` | src/App.tsx:65-72 | A chunk update changes only the content of messages with the assistant id. Ids, roles, timestamps, order, `isLoading` and `error` are unchanged. |
| `Conversation.WithFailure` | src/App.tsx:74-75 | A failure sets `error` to the fixed text "Failed to get response. Please try again." Messages and loading flag are kept, so nothing is rolled back. |
| `Conversation.Settled` | src/App.tsx:76-77 | The `finally` update clears `isLoading` and changes nothing else. |
| `Conversation.Streamed` | src/App.tsx:60-73 | Folding the chunk updates keeps the message count, `isLoading` and `error`. |
| `Conversation.Published` | src/App.tsx:63-72 | A turn publishes one state per chunk. |
| `Conversation.PublishedAt` | src/App.tsx:63-72 | The state published for chunk k is the fold of the updates for chunks 0..k. |
| `Conversation.Turn` | src/App.tsx:36-79 | A whole turn ends with `isLoading` false and two more messages. `error` is the fixed failure text if the stream failed, and the earlier error otherwise. |
| `Conversation.ShowsTypingIndicator` | src/App.tsx:152 | The typing placeholder shows iff the page is loading and a last message exists with empty content. |
| `Conversation.ConcatAppend` | src/App.tsx:60-64 | The buffer of two chunk lists joined is the join of their buffers. |
| `Conversation.ConcatPrefix` | src/App.tsx:60-64 | The buffer after k chunks is a prefix of the final buffer. The rest is exactly the later chunks' text. |
| `Conversation.BufferGrows` | src/App.tsx:60-64 | The buffer only grows: an earlier buffer is a prefix of every later one. |
| `Conversation.WithContentOverwrites` | src/App.tsx:65-72 | A later chunk update with the same id completely replaces an earlier one. |
| `Conversation.StreamedIsLastUpdate` | src/App.tsx:60-73 | With no chunks the whole stream leaves the state as it was. Otherwise it equals one update with the final buffer. |
| `Conversation.StreamedUpdatesEveryMatch` | src/App.tsx:63-72 | Without any uniqueness assumption, every message with the assistant id holds the full buffer, or keeps its old content when no chunk arrived. Every other message is unchanged. |
| `Conversation.StreamPrefix` | src/App.tsx:39-73 | With fresh ids, after k chunks the assistant message holds chunks 0..k-1 concatenated ("" for k = 0). All other messages are as before. |
| `Conversation.TurnMessages` | src/App.tsx:36-79 | With fresh ids, a turn yields the earlier messages, the user message and the assistant message holding all text received, whether the stream completed or failed. |
| `Conversation.FailureKeepsPartialContent` | src/App.tsx:74-78 | A failed turn shows the fixed error and ends idle. The last message keeps the text received before the failure. No assumption on ids is needed. |
| `Conversation.MonotoneClockGivesFreshIds` | src/App.tsx:40-47 | The turn's ids are fresh if two things hold. The clock must not run backwards during the turn. Every earlier id must be at most the turn's first reading, which needs a millisecond since the previous turn's second reading. |
| `Conversation.SameMillisecondTurnsClash` | src/App.tsx:40-47 | A second turn whose readings all equal the first turn's gets the earlier reply's id, so its chunk overwrites that reply too. |
| `Conversation.IndicatorWhileStreaming` | src/App.tsx:152 | During a turn, whatever the ids, the typing placeholder shows exactly while the buffer so far is empty. |
| `Conversation.NoIndicatorAfterTurn` | src/App.tsx:152 | After a turn the typing placeholder is never shown. |
| `App.ChatApp.constructor` | src/App.tsx:11-27 | Mounting starts with no messages and not loading. It installs a fresh session, or it leaves no session and shows the creation error. |
| `App.ChatApp.HandleSend` | src/App.tsx:36-79 | With no session the state is unchanged. Otherwise the final state is `Turn` of the old one. The state published after chunk k is the fold of chunks 0..k, still loading and with the old error. |
| `App.ChatApp.ClearChat` | src/App.tsx:81-88 | Clearing yields no messages, not loading and no error, whatever the prior state. A missing key makes session creation throw, and the old reference stays. Otherwise a newly created session is installed. |
| `App.ChatApp.Submit` | src/App.tsx:182 | A submit from the box, disabled while loading, sends what the box decides. It changes nothing while a turn is loading or when nothing is sent. Otherwise it runs the turn. |
| `Input.IsSpace` | src/components/ChatInput.tsx:16-17 | The white space `trim` removes lies in the Basic Multilingual Plane. On ASCII it is exactly space, tab, line feed, vertical tab, form feed and carriage return. |
| `Input.SubmitsOnKey` | src/components/ChatInput.tsx:23 | A key submits exactly when it is Enter without Shift. Any other key, or Enter with Shift, does not. |
| `Input.SpanStart` | src/components/ChatInput.tsx:16-17 | The trimmed text starts at the first position that is not white space. Everything before it is white space. |
| `Input.SpanEnd` | src/components/ChatInput.tsx:16-17 | The trimmed text ends after its last character that is not white space. Everything after it is white space. |
| `Input.Trim` | src/components/ChatInput.tsx:16-17 | `input.trim()` is the infix left after dropping white space at both ends. It has no edge white space, and it is empty iff the input is all white space. |
| `Input.TrimIdempotent` | src/components/ChatInput.tsx:17 | Trimming the trimmed text changes nothing. |
| `Input.SubmitDecision` | src/components/ChatInput.tsx:16-17 | A submit sends iff the box is enabled and holds a non-space character. What it sends is the trimmed text: non-empty, with no leading or trailing white space. |
| `Input.AfterSubmit` | src/components/ChatInput.tsx:16-19 | After a submit the box is empty if something was sent, and unchanged otherwise. |
| `Input.SubmitTwiceSendsAtMostOnce` | src/components/ChatInput.tsx:16-18 | Two submits in a row send at most once. A rejected submit keeps the text. |
| `Input.ButtonDisabled` | src/components/ChatInput.tsx:54 | The send button is disabled iff the box is disabled or holds only white space, which is exactly when a submit sends nothing. |
| `Input.ChatInput.constructor` | src/components/ChatInput.tsx:11 | The box starts empty. |
| `Input.ChatInput.Change` | src/components/ChatInput.tsx:46 | Typing replaces the box's text. |
| `Input.ChatInput.HandleSubmit` | src/components/ChatInput.tsx:14-20 | Sends `SubmitDecision` of the text and leaves `AfterSubmit` of it in the box. |
| `Input.ChatInput.HandleKeyDown` | src/components/ChatInput.tsx:22-27 | Enter without Shift suppresses the default and submits. Any other key, or Enter with Shift, sends nothing and changes nothing. |
| `Input.ChatInput.SendButtonDisabled` | src/components/ChatInput.tsx:54 | The button's disabled attribute is the negation of the send condition for the current text. |

## Left out

- Message streaming (`src/services/gemini.ts:19-25`) is not modelled as code. The reply is the `Stream` input. The `response.text || ""` normalisation is folded into it: the chunks are already text.
- The remote session's contents (model name, system instruction, conversation history) are not modelled. A session is an opaque object.
- Asynchronous scheduling and React's batching are not modelled. Each `setState` updater is one atomic step, applied in order as soon as it is issued. Two `handleSend` calls running at once, or a reset during a turn, are not modelled.
- `App.ChatApp.HandleSend`: its `trace` clause holds only under the one-step-per-`setState` assumption. Each chunk updater reads the `fullContent` variable when React runs the updater, not when `setState` is called. Under batching, a state the page shows after chunk k may therefore already hold later chunks.
- `Input.SubmitTwiceSendsAtMostOnce`: holds when the page re-renders between the two submits. Two submits handled in one render would both see the old text; this is not modelled.
- The suggestion buttons (src/App.tsx:130-143) call `handleSend` directly with a fixed string, bypassing the box's trim and disabled guard. They are rendered only when there are no messages. This is `App.ChatApp.HandleSend` with that string, so no separate member models it.
- A disabled text area receives no typing or key events in a browser. `Input.ChatInput.Change` and `Input.ChatInput.HandleKeyDown` do not model that restriction; the submit guard still applies.
- Message rendering (`src/components/ChatMessage.tsx`), the error banner, auto-scroll, the text-area height limit, animations, icons and styling are presentation only.
- Ids and timestamps come from the clock in the source; here they are parameters. Strings are sequences of Unicode scalar values, not UTF-16 code units, so a lone surrogate, which a JavaScript string may hold, is not represented. Every white-space code point `trim` removes lies in the Basic Multilingual Plane, so trimming gives the same result.
