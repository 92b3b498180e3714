# Chat transcript service — a Dafny model

This project models the transcript state machine of the chat application's
`ChatService`. The service keeps an ordered list of messages (`text`,
`isUser`, `time`) and a loading flag, and it has three operations:

- construction seeds the list with a bot greeting;
- `clearMessages` resets the list to a single greeting;
- `sendMessage` does the following in order:
  - appends the user message;
  - raises the loading flag;
  - appends an empty bot placeholder and records its index;
  - streams the reply into the placeholder, or appends a fixed apology on any failure;
  - lowers the flag.

The model also covers the component's guard in front of `sendMessage`.

`chat_service.dfy` (module `Chat`) holds the model of the service. The class
`Chat.ChatService` has these fields:

- `messages: seq<Message>` and `loading: bool`, which the methods reassign;
- a ghost log `events` of every notification the service's two subjects
  emit, in order. Each event records which subject emitted, and the
  transcript and the flag as they stand right after it. `Valid()` says that
  the latest event shows the two fields.

The HTTP exchange is an input value `Outcome`, one of:

- `FetchError`: the request rejects;
- `NotOk`: the response is not OK;
- `NoReader`: the response has no readable body;
- `Stream(chunks, readFails)`: the reader yields the already-decoded `chunks`
  and then either reports end of data or, when `readFails`, throws. A failure
  after k chunks is `Stream(first k chunks, true)`.

The three `new Date()` readings of a send are the input `Stamps`, and the
constructor's and the clear's readings are a `now: nat` parameter.

The operations are specified by functions that do not depend on the methods:

- `Sent` gives the final transcript of a send;
- `SendEvents` gives the notifications a send emits;
- `Concat` joins chunks as a right fold.

The service's read loop accumulates from left to right. The method
contracts connect it to these functions, and the lemmas state what the
functions mean.

`app_component.dfy` (module `App`) models the component's `sendMessage`
guard and four client scenarios.

Two consequences of the code are worth stating:

- A failed send leaves the transcript longer by 3: the user message, the
  placeholder and the apology (src/app/services/chat.service.ts:39-54, 90-94).
- The guard rejects only the empty string (src/app/app.component.ts:199,
  230-232), so a whitespace-only message is sent.

## Model

| member | source | states |
|---|---|---|
| `Chat.ChatService.constructor` | src/app/services/chat.service.ts:17-27 | the transcript starts as exactly one bot greeting "Hello! How can I help you today?", loading is false, and the only notification is that transcript |
| `Chat.ChatService.AddMessage` | src/app/services/chat.service.ts:100-103 | the message goes at the end, every earlier entry is unchanged, the new transcript is published, and loading is untouched |
| `Chat.ChatService.SetLoading` | src/app/services/chat.service.ts:45 | the flag takes the given value and one loading notification is emitted; the transcript is untouched |
| `Chat.ChatService.ClearMessages` | src/app/services/chat.service.ts:105-111 | any transcript is replaced by a single greeting and published; the loading flag is untouched |
| `Chat.ChatService.Overwrite` | src/app/services/chat.service.ts:83-85 | only the text of the entry at the index changes (its position, `isUser` and time stay), no entry is added, and the new transcript is published |
| `Chat.ChatService.StreamReply` | src/app/services/chat.service.ts:73-86 | each chunk overwrites the placeholder's text in place with the concatenation of all chunks so far: no message is added, the placeholder keeps its position, `isUser = false` and its time, one snapshot is published per chunk, and loading stays raised |
| `Chat.ChatService.Open` | src/app/services/chat.service.ts:39-54 | the user message goes at the end, the flag is raised, and an empty bot placeholder follows at the returned index, which is the old length + 1, so the placeholder is last |
| `Chat.ChatService.Exchange` | src/app/services/chat.service.ts:56-86 | a failed request, a non-OK response or a missing reader reports failure before any chunk and leaves the placeholder empty; a stream fills the placeholder with the joined chunks and fails exactly when its last read throws |
| `Chat.ChatService.Settle` | src/app/services/chat.service.ts:88-97 | on failure the apology goes at the end; in every case the flag is lowered last |
| `Chat.ChatService.SendMessage` | src/app/services/chat.service.ts:37-98 | for every outcome, the final transcript is `Sent(old transcript, text, stamps, outcome)`, the notifications are exactly `SendEvents(...)`, and loading is false on exit |
| `Chat.ConcatAppend` | src/app/services/chat.service.ts:73-80 | appending a chunk to the accumulator agrees with joining the longer list of chunks |
| `Chat.ConcatSplit` | src/app/services/chat.service.ts:80 | joining two runs of chunks is the join of the first followed by the join of the second |
| `Chat.ConcatPrefix` | src/app/services/chat.service.ts:80-85 | the text after fewer chunks is a prefix of the text after more, so no snapshot shows characters out of order |
| `Chat.ConcatExample` | src/app/services/chat.service.ts:75-86 | the chunks "Hel", "lo, ", "world" accumulate to "Hello, world" |
| `Chat.SentOnSuccess` | src/app/services/chat.service.ts:49-86 | a stream that ends normally leaves the old transcript followed by the user message and a bot message holding c1+…+cn; the length grows by 2 |
| `Chat.SentOnFailure` | src/app/services/chat.service.ts:64-94 | a fetch error, a non-OK response, a missing reader or a failing read leaves the old transcript, then the user message, then the placeholder, then the apology `isUser = false`; the length grows by 3. The placeholder is empty unless chunks arrived, in which case it holds them joined |
| `Chat.LoadingBracketsSend` | src/app/services/chat.service.ts:39-97 | a send publishes the user message first, then raises loading. Every later notification but the last is a transcript snapshot taken with loading raised. The last lowers loading with the final transcript in place |
| `Chat.StreamingIsInPlace` | src/app/services/chat.service.ts:83-85 | every snapshot published for a chunk has length old+2 and keeps the old transcript and the user message. It ends in the bot placeholder, whose text only grows from one chunk to the next towards the full reply, so exactly one message is pending |
| `Chat.StreamedStep` | src/app/services/chat.service.ts:84-85 | one more chunk adds exactly one snapshot and leaves the earlier ones as they were |
| `Chat.ClearIdempotent` | src/app/services/chat.service.ts:105-111 | two clears, at any times, give one-element transcripts with the same text (the greeting) from the bot |
| `App.Submit` | src/app/app.component.ts:229-244 | an empty value or a send in flight changes nothing at all; otherwise the service performs exactly `SendMessage` |
| `App.ChunkedReplyScenario` | src/app/services/chat.service.ts:37-98 | after construction and "hi" answered in three chunks, the transcript texts are greeting, "hi", "Hello, world", and loading is false |
| `App.NotOkScenario` | src/app/services/chat.service.ts:64-65 | after construction and "hi" met by a non-OK response, the texts are greeting, "hi", "", apology, and loading is false |
| `App.EmptySubmitScenario` | src/app/app.component.ts:230-232 | right after an empty submission, the fresh transcript is still the greeting alone and no notification beyond the constructor's was emitted; the clear that follows leaves just the greeting |
| `App.WhitespaceSubmitScenario` | src/app/app.component.ts:199-232 | a whitespace-only value passes the guard and is sent: answered by the single chunk "ok", the texts are greeting, " ", "ok" |

## Left out

- The HTTP request (URL, headers, JSON body) and the reading of the response stream are network I/O. They are replaced by the `Outcome` input.
- `TextDecoder` decoding is a foreign call, so chunks are already-decoded strings. A fresh decoder per chunk can split a multi-byte UTF-8 sequence, and the model does not capture this.
- The subjects' `Observable` publication and the subscriptions are not modelled. The ghost `events` log records each value the subjects emit, at the moment it is emitted.
- The in-place write of chat.service.ts:84 also changes earlier snapshots, because they share the placeholder object. The model does not capture this aliasing, since its snapshots are values.
- A `clear` or a second `send` can interleave with an in-flight stream, which can make the placeholder index stale. This asynchronous interleaving is not modelled. Every model operation runs to completion before the next starts.
- `Chat.ChatService.StreamReply` and `Chat.ChatService.Exchange` require the placeholder to be the last entry. This always holds in the sequential model. The source does not check it (see the previous item).
- Chat.ChatService.SendMessage: `Outcome` can only describe an exchange that ends. The source has no timeout (src/app/services/chat.service.ts:56, 76), so a request or read that never settles leaves loading raised for good. The unconditional `!loading` on exit assumes that the exchange ends.
- Timestamps are opaque `nat` parameters and not a clock.
- `console.error` logging is diagnostic output.
- The Angular UI is not modelled: templates, styles, form reset/disable/enable, `scrollToBottom` and its timer.
- The standalone simulated chat component and the bootstrap are not modelled, because they do not use the service.
