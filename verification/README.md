# Streaming chat turn: a verified model

This project models the part of the chat front-end that ingests one assistant turn. It has two halves.

- **`streamChat`** (src/services/chatApi.ts) reads the chat response as a stream of text chunks.
  - It keeps a string buffer across reads, appends each chunk and splits on `'\n'`.
  - It yields the record of every complete line that is not blank and parses as JSON, and keeps the last piece as the new buffer.
  - When the stream ends, it flushes the buffer once.
  - It throws before yielding anything when the response is not `ok` or has no body. A read that fails mid-stream throws after the records of the lines completed so far.
- **`handleSendMessage`** (src/App.tsx) runs one turn against the visible history.
  - It appends the user message, then folds each record into an in-flight assistant message:
    - text is appended;
    - `tool_call`/`tool_result` tools are upserted by id into an insertion-ordered `Map`;
    - error markers are appended;
    - the timestamp is overwritten.
  - After every record it publishes a copy with "drop every message with this id, then append".
  - On a transport failure it appends a fixed marker and publishes once. `isStreaming` is cleared on every path.

The Dafny modules follow that structure:

- `ChatTypes` (chat_types.dfy) holds the record and message shapes of src/types/chat.ts.
- `Lines` (lines.dfy) holds JavaScript's `split('\n')` and `join('\n')`, plus `trim()` and the blank-line test it stands behind.
- `ChatApi` (chat_api.dfy) holds the decoder:
  - a `LineDecoder` class whose `buffer` field `Feed` and `Finish` update;
  - the read loop `ReadChunks`, the line loop `EachLine` and `StreamChat`;
  - all of them proved against the whole-text specification `Decode`.
- `History` (history.dfy) holds the pure `setMessages` updaters.
- `Turn` (turn.dfy) holds the reducer:
  - a `ToolsMap` class, an ordered key list plus a map, for the JavaScript `Map`;
  - an `AssistantDraft` class for the mutable `assistantMessage`;
  - the specification functions `Step` and `Run` they are proved against;
  - independent reference definitions (`Transcript`, `Updates`, `Latest`, `FirstIndex`) the reducer is checked against.
- `App` (app.dfy) holds the `ChatApp` class with `messages` and `isStreaming`, and `HandleSendMessage`.
  - A ghost log `published` records every snapshot handed to the history.
  - The per-record loop, the `try`/`catch` and the publish are each a method of their own.

The main results:

- **Chunk-boundary invariance.** When the stream ends normally, `StreamChat` yields exactly `Decode(parse, Concat(chunks))`. That is the non-blank, parseable pieces of the whole text split on `'\n'`, in order, however the text was cut into chunks. It rests on `Lines.SplitAppend`: keeping only the last piece between reads loses nothing.
- **Per-turn history.** After a turn, the history is the old history, then the user message, then, if anything was published, the last assistant snapshot. The publish log is one snapshot per record, then the connection-error snapshot if the stream failed.
- **Reducer against its reference definitions.**
  - The content is the starting content followed by each record's text, in order.
  - The tool map holds one entry per id carried by a tool record: the latest one carried under that id.
  - The keys are in first-seen order.

A `tool_result` for an id never seen before creates the entry, exactly as a `tool_call` does (src/App.tsx:46-49). The model does the same: both record kinds go through one `Upsert`.

## Model

| member | source | states |
|---|---|---|
| Lines.IsBlank | src/services/chatApi.ts:45 | `line.trim()` is falsy exactly when `Trim` leaves nothing, i.e. when every character is in the ECMAScript whitespace set `IsWhitespace` |
| Lines.TrimAllWhitespace | src/services/chatApi.ts:56 | trimming whitespace from both ends leaves the empty string exactly when every character is whitespace |
| Lines.Split | src/services/chatApi.ts:41 | `split('\n')` always returns at least one piece, so the buffer's `lines.pop()` always has a piece to take |
| Lines.SplitPieces | src/services/chatApi.ts:41-42 | no piece of a split contains '\n', so the retained buffer never does |
| Lines.JoinSplit | src/services/chatApi.ts:41 | joining the pieces with '\n' gives back the text: splitting neither loses nor adds characters |
| Lines.SplitJoin | src/services/chatApi.ts:41 | splitting inverts joining for any non-empty list of newline-free pieces |
| Lines.CompleteThenPending | src/services/chatApi.ts:40-42 | for text = old buffer + chunk: the complete lines joined with '\n', then '\n' and the new buffer, are exactly that text; with no complete line the new buffer is all of it |
| Lines.SplitAppend | src/services/chatApi.ts:40-42 | splitting x + y gives the complete lines of x followed by the split of x's last piece with y appended |
| Lines.SplitFeed | src/services/chatApi.ts:40-42 | after reading a chunk on top of earlier text, the complete lines are the earlier ones followed by those of the old buffer + chunk, and the new buffer comes from the old buffer + chunk |
| ChatApi.LineRecords | src/services/chatApi.ts:45-51 | a line yields a record exactly when it is not blank and parses, at most one, and that record is what the parser returned |
| ChatApi.Records | src/services/chatApi.ts:44-53 | a run of lines yields at most one record per line |
| ChatApi.RecordsAppend | src/services/chatApi.ts:43-53 | the records of consecutive runs of lines are the records of the first run followed by those of the second: arrival order is kept |
| ChatApi.RecordsSkipLine | src/services/chatApi.ts:45-51 | a blank or unparseable line yields nothing, and the lines after it still yield theirs |
| ChatApi.RecordsFeed | src/services/chatApi.ts:35-53 | one more read yields the records of the lines it completes, after all records yielded before |
| ChatApi.DecodeIsLinesThenFlush | src/services/chatApi.ts:35-63 | the whole-text result is the records of the complete lines followed by the final flush of the last piece |
| ChatApi.Yielded | src/services/chatApi.ts:14-63 | the generator ends without throwing only for an ok response with a reader whose reads all succeed; a failed fetch, a non-ok status or a missing reader yields nothing; a failed read yields the whole-text records except exactly the final flush of the unterminated last piece |
| ChatApi.EachLine | src/services/chatApi.ts:44-53 | the line loop of one read yields exactly the records of its lines, in order |
| ChatApi.LineDecoder.constructor | src/services/chatApi.ts:33 | the buffer starts empty, with nothing read |
| ChatApi.LineDecoder.Feed | src/services/chatApi.ts:40-53 | the new buffer is the last piece of old buffer + chunk and contains no '\n'; the records are those of the other pieces; the buffer stays the last piece of everything read |
| ChatApi.LineDecoder.Finish | src/services/chatApi.ts:56-63 | the end-of-stream flush yields at most one record, and only when the buffer is not blank and parses |
| ChatApi.ReadChunks | src/services/chatApi.ts:35-54 | after the read loop, the records are those of the complete lines of the concatenated chunks, whatever the chunk boundaries |
| ChatApi.StreamChat | src/services/chatApi.ts:14-63 | a network failure, a non-ok response or a missing reader yields nothing and throws; a normal end yields `Decode` of the concatenated text; a failed read throws after the records of the completed lines, without the flush |
| History.WithoutId | src/App.tsx:58 | after the filter no message carries the id, and the history is no longer than before |
| History.WithoutIdMembers | src/App.tsx:58 | a message survives the filter exactly when it was there under another id |
| History.WithoutIdAppend | src/App.tsx:58 | filtering distributes over concatenation, so the surviving messages keep their relative order |
| History.WithoutAbsentId | src/App.tsx:58 | filtering out an id no message carries leaves the history unchanged |
| History.Publish | src/App.tsx:57-60 | after a publish the message is last and no other message carries its id |
| History.PublishKeepsOthers | src/App.tsx:57-60 | the messages before the published one are exactly the earlier messages under other ids |
| History.PublishFresh | src/App.tsx:57-60 | the first publish under a fresh id appends the message |
| History.PublishReplaces | src/App.tsx:57-60 | publishing twice under one id equals publishing only the second: the snapshot is replaced, not added |
| History.Republish | src/App.tsx:57-60 | republishing over the previous snapshot leaves the earlier history followed by the new snapshot |
| Turn.ToolValues | src/App.tsx:54 | `Array.from(toolsMap.values())` has one tool per key, in key order, each the entry filed under that key, with distinct ids, and contains every tool in the map |
| Turn.ToolsMap.constructor | src/App.tsx:40 | a new tool map is empty |
| Turn.ToolsMap.Set | src/App.tsx:47-49 | `set` replaces the entry whole; a new id goes to the end of the key order, an existing id keeps its place |
| Turn.ToolsMap.Values | src/App.tsx:54 | `values()` gives one value per key, in key order, each the entry filed under its key |
| Turn.ErrorMarker | src/App.tsx:51 | the marker for an `error` record is "\n[Error: ", the error text, then "]", and the text can be read back from it |
| Turn.Upsert | src/App.tsx:47-49 | `toolsMap.set` replaces the entry under the id whole, appends a new id to the key order and leaves a known one in place, keeps the map well formed, and touches neither content nor timestamp |
| Turn.Step | src/App.tsx:44-55 | one record sets the timestamp to its own, adds exactly its text to the content (`text` its content, `error` its marker, any other kind nothing), upserts its tool when it is a `tool_call` or `tool_result` carrying one, and otherwise leaves the tools alone |
| Turn.Run | src/App.tsx:43-55 | folding records keeps the map well formed, never removes a tool, and leaves the timestamp of the last record, or the starting one when there were none |
| Turn.RunPrefix | src/App.tsx:43-55 | one more record is one more reducer step |
| Turn.Snapshot | src/App.tsx:54-59 | the published copy has the assistant id and role, the current content and timestamp, and one tool per key, the entry filed under that key, in key order |
| Turn.AssistantDraft.constructor | src/App.tsx:32-40 | the assistant message starts with empty content, the given timestamp and an empty tool map |
| Turn.AssistantDraft.Absorb | src/App.tsx:44-55 | applying a record in place changes the message exactly as one reducer step does |
| Turn.AssistantDraft.MarkConnectionLost | src/App.tsx:64 | the catch block appends exactly "\n[Connection error occurred]" and changes nothing else |
| Turn.AssistantDraft.Copy | src/App.tsx:59 | `{ ...assistantMessage }` is the snapshot of the current state |
| Turn.RunContent | src/App.tsx:44-52 | after a run, the content is the starting content followed by each record's text in arrival order |
| Turn.HelloWorld | src/App.tsx:44-45 | "Hello " then "world" gives "Hello world" |
| Turn.RunToolEntries | src/App.tsx:46-49 | from an empty map, the ids in the map are exactly those carried by tool records, and each entry is the latest tool carried under its id |
| Turn.RunToolOrder | src/App.tsx:46-54 | from an empty map, the key order is the order in which each id was first carried |
| Turn.PublishedTools | src/App.tsx:46-54 | a snapshot's tool list has one tool per id carried, each the latest for its id, in first-seen order |
| Turn.CallThenResult | src/App.tsx:46-49 | `tool_call` then `tool_result` for one id leave one entry, the result |
| App.Snapshots | src/App.tsx:43-61 | the loop publishes one snapshot per record, the last showing the draft after all of them |
| App.SnapshotAt | src/App.tsx:43-60 | the k-th publish requested shows the draft after exactly the first k + 1 records |
| App.TurnSnapshots | src/App.tsx:42-68 | a turn requests one snapshot per record and then, only if the stream failed, one snapshot with the connection-error marker, last |
| App.ConnectionLost | src/App.tsx:64 | the failure marker is appended to the content and the timestamp and tools are kept |
| App.ChatApp.constructor | src/App.tsx:9-10 | the history starts empty and no turn is streaming |
| App.ChatApp.SetMessagesPublish | src/App.tsx:57-60 | publishing over a history holding at most one earlier snapshot of the message leaves the history before it followed by the new snapshot |
| App.ChatApp.Receive | src/App.tsx:43-60 | one loop iteration applies the record in place and publishes the resulting snapshot |
| App.ChatApp.ReceiveAll | src/App.tsx:43-61 | the `for await` loop leaves the draft at `Run` of the records, publishes one snapshot per record, and leaves the last one in the history |
| App.ChatApp.Stream | src/App.tsx:42-68 | the `try`/`catch` publishes exactly `TurnSnapshots` and leaves the last of them in the history |
| App.ChatApp.HandleSendMessage | src/App.tsx:21-72 | after a turn, streaming is off. The history is the old one, then the user message, then the last assistant snapshot if any was published: none when the stream yields nothing and does not fail. The publish log grows by exactly the turn's snapshots |

## Left out

- `fetch`, `response.body.getReader()` and `reader.read()` are network I/O. They are the `Transport` parameter: a network failure, or a response with its `ok` flag and an optional reader. The reader is the chunks it delivers, and whether a read fails after them.
- `TextDecoder` is a foreign library. Chunks are taken as already-decoded strings, so multi-byte characters split across reads are not modelled. Neither is the final `decoder.decode()` call that the code never makes.
- `JSON.parse` is foreign. It is the `parse` parameter, a total function that gives a record or none (where it throws).
  - Lines that parse to something other than an object are not modelled.
    - For `null`, reading `chunk.type` throws inside the turn's loop. The throw is caught as a connection error (src/App.tsx:62-68).
    - For a number, string or boolean, nothing throws: `chunk.type` is `undefined`, so no branch of src/App.tsx:44-52 runs. The content and tools stay as they were, the timestamp becomes `undefined` (src/App.tsx:55), and one snapshot is still published (src/App.tsx:57-60).
  - Objects with missing or mistyped fields are not modelled either.
- `console.error` logging has no behaviour and is left out.
- `crypto.randomUUID()` and `new Date().toISOString()` are nondeterministic. Ids and timestamps are parameters. The fresh ids appear as the preconditions that the two ids differ and that the assistant id is not yet in the history.
- Asynchrony: the async generator, `for await` and React's `setState` scheduling.
  - `setMessages` updaters are applied in order to the current history.
  - `StreamChat` computes the whole outcome before the reducer loop runs. The loop then applies the records in order, so the final state and the order of publishes are the same as with interleaving.
- App.ChatApp.SetMessagesPublish: takes the `{ ...assistantMessage }` copy when `setMessages` is called. In the code the copy is made inside the updater (src/App.tsx:57-60), and React 18 may defer a queued updater to the next render. When several records arrive before a render, an earlier updater then copies the later, already-updated `assistantMessage`. Only the final history is guaranteed to match the model.
- App.SnapshotAt: "the k-th publish shows the draft after the first k + 1 records" describes the snapshot requested at the k-th `setMessages` call, under the copy-at-call assumption above. It is not necessarily what an intermediate render displays.
- App.ChatApp.HandleSendMessage: the ghost `published` log records the requested snapshots under the same assumption. The final history it states is the one React reaches once every queued updater has run.
- src/components/ChatInput.tsx, the UI that disables input while streaming, is not part of this model. Its rule appears only as the precondition `!isStreaming` on `HandleSendMessage`. Its trimming and non-blank check on the text are not required: the model accepts any content.
- `getTools` (src/services/chatApi.ts:5-11) and the tool registry are not part of this model, nor is the HTTP status text in the thrown error. `getTools` has no fallback: a non-ok response throws.
- Rendering, scrolling and the components under src/components are UI and are not part of this model.
- Turn.RunToolEntries: stated only for a turn that starts from an empty tool map, which is the only way `handleSendMessage` starts one.
- Turn.RunToolOrder: stated only for a turn that starts from an empty tool map, for the same reason.
