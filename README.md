# Chat session model

A Dafny model of the session logic of a single-page chat client that streams replies from a hosted
language model (`App.tsx`). The component keeps a message list, a loading flag, an error banner, a
chat handle and a shadow of the previous loading flag, and it persists the message list in one
browser-storage slot. The model covers:

- startup replay of a stored conversation, including the mapping of stored messages to
  `user`/`model` history turns;
- `startNewChat` and `handleClearChat`;
- `handleSendMessage`: the guard, the user message, the AI placeholder, the chunk loop that rewrites
  the placeholder with the running text, the error path and the `finally` that clears loading;
- the persistence effect that writes the list only when loading goes from true to false.

Layout:

- `types.dfy` (module `Types`): `Sender`, `Message` and `Option`.
- `jstext.dfy` (module `JsText`): JavaScript `trim` (the send guard) and the decimal text of a
  `Date.now()` timestamp (the message ids).
- `history.dfy` (module `History`): the history turns handed to a new chat handle.
- `streaming.dfy` (module `Streaming`): the remote reply as an input (`Reply`), chunk
  concatenation, and the `setMessages` updater applied per chunk.
- `session.dfy` (module `ChatSession`): the whole component state as a value (`State`) with one
  pure function per handler and effect, plus the lemmas stating what they promise.
- `app.dfy` (module `AppModel`): `class App`, whose fields are the component's state and refs.
  Its methods update them step by step. The constructor, `StartupEffect`, `StartNewChat`,
  `HandleClearChat`, `PersistEffect` and `HandleSendMessage` are each proved to end in the state
  that the matching `ChatSession` function gives. The steps of a send (`BeginTurn`,
  `ApplyChunkUpdate`, `ConsumeStream`, `ReceiveReply`, `EndTurn`, `RunTurn`) have no matching
  function; their contracts state each field's new value directly.

Inputs the source reads from the outside world are parameters. The API key's presence is the
`apiKey` flag. The storage slot is `Option<Blob>`, where `Blob` is an empty string, the JSON text of
a message list, or text that `JSON.parse` rejects. Each `Date.now()` reading is one of the numbers
in `Stamps`. The remote stream is a `Reply`: the request is rejected, or it yields chunks and then
either completes or throws. Each `await` is one sequential step, and the persistence effect is
called explicitly at every render that the send handler causes. `saveCount` counts the writes to
the storage slot, so that "one write per completed turn" can be stated. It is not a field of the
component: it is ghost in the class, and it is an ordinary field of the `State` value.

Three behaviours of the code worth noting:

- The AI placeholder is appended only after `sendMessageStream` resolves (App.tsx:116-122), not
  before the request is issued. A rejected request therefore appends the error message alone.
- The per-chunk updater compares the id of the last message only (App.tsx:128-129). It does not
  look the placeholder up by id anywhere in the list.
- A stored value that `JSON.parse` rejects leads to the initialisation error banner
  (App.tsx:58, 80-83). It is not treated as an absent value.

## Model

| member | source | states |
|---|---|---|
| JsText.TrimStart | App.tsx:103 | the result is a suffix of the input, everything dropped is whitespace, and it does not start with whitespace |
| JsText.TrimEnd | App.tsx:103 | the result is a prefix of the input, everything dropped is whitespace, and it does not end with whitespace |
| JsText.TrimEmptyIffAllWhitespace | App.tsx:103 | `input.trim()` is empty (so the guard refuses) exactly when every character is whitespace |
| JsText.TrimIsInfix | App.tsx:103 | trimming keeps a contiguous piece of the input and strips only whitespace on either side |
| JsText.Decimal | App.tsx:106 | a timestamp's text is non-empty decimal digits without a leading zero, and reading it back gives the timestamp |
| JsText.DecimalInjective | App.tsx:106 | different timestamps give different texts |
| ChatSession.IdsDistinct | App.tsx:106-140 | the ids `UserId`, `AiId` and `ErrorId` build (`user-`, `ai-`, `error-` followed by the timestamp) never coincide across kinds, and within each of the three kinds equal ids mean equal timestamps |
| History.ToHistory | App.tsx:62-66 | the history has the stored list's length and order; each turn keeps its message's text as its only part and has role "user" exactly for a `User` message, otherwise "model" |
| History.ToHistoryAppend | App.tsx:62-66 | the history of a longer list extends the history of its prefix |
| Streaming.ConcatSnoc | App.tsx:118-125 | `Concat` (c1+...+ck, the running text that starts empty) grows by exactly the next chunk when one arrives |
| Streaming.ConcatPrefix | App.tsx:124-125 | the running text after i chunks is a prefix of the text after any later chunk count |
| Streaming.UpdateLast | App.tsx:127-134 | the updater keeps the length and every element but the last; the last keeps its id and sender, and it takes the new text exactly when its id is the placeholder's |
| Streaming.UpdateLastMismatch | App.tsx:133 | when the last id is not the placeholder's, the list is returned unchanged |
| Streaming.UpdateLastOverwrites | App.tsx:124-134 | two updates in a row leave only the second text |
| Streaming.AfterChunksStep | App.tsx:124-134 | applying the updater with the running text of k+1 chunks to the list after k chunks (`AfterChunks`: the earlier messages, then the placeholder holding c1+...+ck) gives the list after k+1 chunks |
| ChatSession.Load | App.tsx:55-58 | reading the slot gives a parse error exactly for unparsable text, and nothing exactly for a missing or empty entry |
| ChatSession.SaveLoadRoundTrip | App.tsx:58-90 | a list written to the slot reads back as the same list |
| ChatSession.StartNewChat | App.tsx:28-47 | without a key only the init error banner is set; with one, the handle is a new one with empty history, the list is empty and the banner cleared; loading, storage and the shadow flag are untouched |
| ChatSession.Startup | App.tsx:49-84 | without a key, or with an unparsable slot, only the init error banner is set; a non-empty stored list becomes the list and is replayed as the handle's history; a missing, empty-string or empty-list slot starts a new chat |
| ChatSession.ClearChat | App.tsx:96-100 | a no-op while loading; otherwise the slot is deleted, the loading flag, its shadow, the key and the write count are kept, and with a key the list is emptied, the banner cleared and a new handle made; without one the list and handle are kept and the init banner is set |
| ChatSession.ClearIdempotent | App.tsx:96-100 | clearing twice gives the same state as clearing once |
| ChatSession.ReloadAfterClear | App.tsx:96-100 | after a clear, the next page load starts an empty chat |
| ChatSession.PersistEffect | App.tsx:87-94 | the list is written (and counted) exactly when `TurnEnded` holds, that is when the previous loading flag was true, the current one is false and the list is non-empty; the shadow flag always becomes the current loading flag; nothing else changes |
| ChatSession.PersistIdleNoOp | App.tsx:87-94 | when the shadow flag equals the loading flag, as it does between handler calls, the effect changes nothing |
| ChatSession.NoWriteWhileLoading | App.tsx:89 | while loading, the effect writes nothing |
| ChatSession.PersistOncePerEdge | App.tsx:87-94 | a second run of the effect without a state change writes nothing more |
| ChatSession.ReplyMessages | App.tsx:115-140 | a rejected request adds only the error message; a stream adds the AI message with the concatenation of all chunks, followed by the error message exactly when the stream broke |
| ChatSession.Send | App.tsx:102-144 | a send the guard `Accepts` refuses changes nothing; an accepted one keeps every earlier message, appends the untrimmed input as a `User` message (`UserMessage`) and then the reply's messages, ends not loading, sets the banner exactly on failure, and writes the final list once |
| ChatSession.SendNoOpIffRefused | App.tsx:103 | a send leaves the state unchanged exactly when `Accepts` fails: the input's `Trim` is empty, a send is loading or no handle exists |
| ChatSession.BlankInputRefused | App.tsx:103 | an all-whitespace input changes nothing |
| ChatSession.RejectedAppendsOnlyError | App.tsx:115-140 | when the request is rejected no placeholder appears: the user message is followed by the error message (`ErrorMessage`) only, and the banner holds the same text |
| ChatSession.CompletedStreamText | App.tsx:118-135 | after a completed stream the AI message holds c1+...+ck and the banner is clear |
| ChatSession.BrokenStreamKeepsPartial | App.tsx:136-140 | a broken stream keeps the partly filled AI message and appends a separate AI error message with the fixed text, which is also the banner |
| ChatSession.ReloadAfterSend | App.tsx:57-94 | the list a finished turn writes is restored and replayed as history on the next page load |
| AppModel.App.constructor | App.tsx:13-18 | mounting starts from the initial state values (`Initial`) and runs the startup effect, and the shadow flag then equals the loading flag (`Valid`) |
| AppModel.App.StartupEffect | App.tsx:49-84 | the step-by-step startup ends in the state `ChatSession.Startup` gives |
| AppModel.App.StartNewChat | App.tsx:28-47 | ends in the state `ChatSession.StartNewChat` gives |
| AppModel.App.HandleClearChat | App.tsx:96-100 | ends in the state `ChatSession.ClearChat` gives, keeping the shadow flag equal to the loading flag |
| AppModel.App.PersistEffect | App.tsx:87-94 | ends in the state `ChatSession.PersistEffect` gives |
| AppModel.App.BeginTurn | App.tsx:105-113 | appends the user message, sets loading, clears the banner, and writes nothing |
| AppModel.App.ApplyChunkUpdate | App.tsx:127-134 | applies the updater to the list, and the effect after it writes nothing |
| AppModel.App.ConsumeStream | App.tsx:124-135 | the message list recorded after chunk k+1 is the earlier messages unchanged followed by the placeholder holding c1+...+c(k+1), so the rendered lists are the cumulative prefixes in arrival order; after the loop the placeholder holds all chunks; nothing is written during the loop |
| AppModel.App.ReceiveReply | App.tsx:115-140 | appends exactly the reply's messages and sets the banner exactly on failure, without writing; on a stream, the lists rendered are first the old list with the empty `AI` placeholder, then the placeholder holding each cumulative prefix of the chunks in arrival order |
| AppModel.App.EndTurn | App.tsx:141-143 | clears loading, and its render writes the whole list exactly once |
| AppModel.App.RunTurn | App.tsx:105-143 | an accepted send's body: the list becomes the old list, the user message and the reply's messages; loading and its shadow end false; the banner is set exactly on failure; the final list is written once; the handle is kept; on a stream the k-th rendered list is the old list, the user message and the placeholder holding c1+...+ck |
| AppModel.App.HandleSendMessage | App.tsx:102-144 | ends in the state `ChatSession.Send` gives and keeps the shadow flag equal to the loading flag; the k-th message list rendered while streaming (k = 0 right after the empty placeholder is appended, then one per chunk) is the old list, the user message, and the placeholder holding c1+...+ck |

## Left out

- Rendering, JSX, scrolling, `components/ChatMessage.tsx`, `components/ChatInput.tsx` and `components/TypingIndicator.tsx`: presentation only. The input box's guard repeats two of the handler's three tests (blank input and loading, not the handle check).
- The model client: `GoogleGenAI`, `ai.chats.create` with its model name and system instruction, and the history the remote session builds up. A handle is represented only by the history it was created with.
- `process.env.API_KEY` and `console.error`: the key's presence is the `apiKey` flag, and logging has no effect on state.
- JSON text and browser storage I/O: the slot holds an abstract `Blob`. A JSON value that parses but is not an array of messages (for example `null` or an object) is not modelled.
- A chunk whose `text` is `undefined`: every chunk is a string here, whereas JavaScript would append the word "undefined".
- Interleaving: each `await` is a sequential step, so no other handler runs during a send, and React's batching of updates is taken as one render per synchronous stretch. The guard's "already loading" case is therefore reachable only through the pure `ChatSession.Send`.
- React running effects twice in development mode.
- AppModel.App.StartupEffect, AppModel.App.HandleClearChat: the persistence effect after their renders is not called. Between handler calls `Valid` holds (the shadow flag equals the loading flag), neither handler changes the loading flag, and `ChatSession.PersistIdleNoOp` shows the effect then changes nothing.
- Streaming.UpdateLast: requires a non-empty list. On an empty list the source reads the id of `undefined` and throws, and no caller passes one.
- AppModel.App.ConsumeStream: requires the list to end with the empty placeholder, which the handler has just appended.
