# LawyerAI front end and mock API, modelled in Dafny

LawyerAI is a chat front end for a legal assistant. Conversations live in a
client-side session store that is saved to browser storage. A chat canvas
sends the conversation to a chat-completions endpoint and reads the reply
back as a server-sent event stream, one token at a time. Around this sit:

- the sidebar, the page's keyboard handling, the composer and the message
  bubbles;
- the context panel and the upload area;
- the jurisdiction picker;
- the connection settings hook, the mock authentication store and the admin
  passphrase gate;
- the voice recorder.

The model has one Dafny module per source file. Where the source changes
state step by step, the module uses a class whose methods update its fields.
Each method states its new state in terms of specification functions, and
the properties the application relies on are proved about those functions as
lemmas. Shared modules:

- `Wrappers`: `Option` and `Result`.
- `Text`: the JavaScript string operations used, over Dafny strings. These
  are `trim`, one-character `split`, `includes`, global `replace` of a fixed
  pattern, ASCII case mapping, `toString(radix)` and `padStart`.
- `Seqs`: `filter`, `find`/`findIndex`, a selective `map`, `flatMap`.
- `ChatTypes`: the records of `types/chat.ts`.
- `Json`: parsed JSON values and JavaScript truthiness. `JSON.parse` and
  `JSON.stringify` are an abstract codec. The only assumption about it is
  `Lawful`: parsing what was stringified gives the value back, no raw line
  break is written, and objects are written between braces.

Per module:

- `ChatStore`: the sessions and the current-session pointer. Every action of
  the store is a method of `Store`, specified by a pure per-session rewrite.
- `Persistence`: the saved form of the store. Dates become ISO strings or
  `null` and are revived on load. A save followed by a load gives the
  sessions back.
- `LawyerClient`: the API client. It covers the request body, the error
  paths, the event-stream transform that turns chunks into content tokens,
  the non-streaming path, the pump that copies tokens to the caller, the
  health probe, the upload and transcription replies, the abort flag, and
  the mock client that types out a canned reply.
- `CompletionsRoute`: the mock endpoint. It covers the frames of the event
  stream, the whole reply, the 500 reply, and the round trip of its frames
  through the client's transform.
- `ChatCanvasFixed` and `ChatCanvas`: the two chat canvases with their send,
  regenerate and stop handlers. The application page mounts `ChatCanvas`.
- `Presets`: the preset table, the lookups, and the `{{key}}` substitution.
- `Sidebar`: search, rename, duplicate, the preset buttons and New Chat.
- `AppPage`: the page's selection, its key listener, new sessions, and the
  choice of client.
- `Shortcuts`: the global keyboard shortcuts.
- `Composer`, `MessageBubble`, `RightPanel`, `FileUpload`: the composer, a
  message bubble, the context panel and the upload area.
- `Jurisdictions`: the 249-entry jurisdiction table, the locale detection
  and the two lists of the picker.
- `LocalSettings`: the settings hook over a browser storage that may throw.
- `AuthStore`: the mock login and registration.
- `AdminPage`: the passphrase gate with its lower-case hexadecimal digest
  comparison.
- `VoiceRecorder`: the recorder's state, its duration text and the
  transcription step.

Fresh ids (`Math.random`), the clock (`new Date()`, `Date.now()`), the
network, browser storage access, the microphone, SHA-256 and the
transcriber's answers are all parameters.

Where the code and its documentation disagree, the model follows the code:

- `createChat()` reusing an empty chat does not make it current.
- Loading the saved store keeps each message's `isStreaming` flag.
- `createChat({})` always builds a new session, because an empty object is
  truthy.
- After a normal end of a stream, `isStreaming()` of the client stays true,
  because only `abort()` sets the flag.
- The pump's own abort test reads the underlying-source object and never
  fires; `abort()` still ends the stream, because the request shares the
  controller's signal and the pending read rejects with an AbortError.
- Jurisdiction detection reads only the second `-`-separated part of the
  locale, so "zh-Hant-TW" tries "HANT".
- `stopRecording` does not clear the media recorder and analyser references.
- The admin passphrase is hashed untrimmed.
- The event-stream transform splits each network chunk on its own, so a
  `data:` line cut across two chunks is not read as one line.
- A non-streaming reply whose JSON is `null` throws, because `data.choices`
  has no optional chaining.

## Model

| member | source | states |
|---|---|---|
| ChatStore.Store.constructor | lib/store/useChatStore.ts:31-33 | the store starts with no sessions and a null pointer |
| ChatStore.NewSessionShape | lib/store/useChatStore.ts:52-75 | a new session is titled "New Chat", has createdAt = updatedAt, copies the preset's jurisdiction, system prompt and prefill, and holds one system message with the preset's text iff that text is non-empty, else none |
| ChatStore.CreatedIsReused | lib/store/useChatStore.ts:40-50 | a session that createChat(preset) just put in front is the first empty chat, so a following createChat() hands its id back |
| ChatStore.Store.CreateChat | lib/store/useChatStore.ts:36-83 | without a preset and with an empty chat (no messages, or one system message) present, that chat's id is returned and nothing changes, the pointer included; otherwise a new session is put in front and made current |
| ChatStore.CreateBlankChat | app/app/page.tsx:56-59 | createChat({}) followed by clearing both prompts always puts a fresh session in front, makes it current, and leaves it as built |
| ChatStore.DeriveTitle | lib/store/useChatStore.ts:116-119 | the title is the content when it has at most 50 characters, else its first 50 characters followed by "..." |
| ChatStore.AppendMessageTitle | lib/store/useChatStore.ts:108-124 | addMessage appends at the tail and keeps the earlier messages; the title is re-derived exactly when there was no non-system message and the new one is the user's, and kept otherwise |
| ChatStore.AppendTo | lib/store/useChatStore.ts:108-124 | addMessage over the list changes exactly the sessions with the id, keeping the length and order |
| ChatStore.Store.AddMessage | lib/store/useChatStore.ts:108-124 | the sessions become AppendTo of the old sessions |
| ChatStore.DropUpload | lib/store/useChatStore.ts:150-156 | filtering attachments by id removes every attachment with that id and keeps every other one |
| ChatStore.DropUploadAfterAdd | components/app/composer.tsx:89-97 | removing an upload appended under a fresh id gives the list from before the append |
| ChatStore.PatchSessionFields | lib/store/useChatStore.ts:150-156 | updateSession: a given field replaces the session's, an absent one keeps it, and updatedAt is always the current time |
| ChatStore.Store.UpdateSession | lib/store/useChatStore.ts:150-156 | the matching sessions are patched; the others are untouched |
| ChatStore.UpdateWhereFrame | lib/store/useChatStore.ts:99-205 | a per-session action rewrites exactly the sessions with the matching id and keeps the order and the length |
| ChatStore.Store.RenameChat | lib/store/useChatStore.ts:99-105 | the matching sessions get the new title and a fresh updatedAt |
| ChatStore.Store.ClearMessages | lib/store/useChatStore.ts:127-133 | the matching sessions lose all their messages |
| ChatStore.Store.SetJurisdiction | lib/store/useChatStore.ts:136-142 | the matching sessions get the jurisdiction code |
| ChatStore.Store.SetCurrentSession | lib/store/useChatStore.ts:145-147 | the pointer becomes the given id |
| ChatStore.DropMessageEffect | lib/store/useChatStore.ts:159-171 | deleteMessage removes every message with the id and keeps all others in order |
| ChatStore.Store.DeleteMessage | lib/store/useChatStore.ts:159-171 | the matching session's messages are filtered by id |
| ChatStore.EditMessageEffect | lib/store/useChatStore.ts:174-188 | editMessage keeps the message count, and every message's id, role, citations and streaming flag; only the matching messages change, and only in content and timestamp |
| ChatStore.Store.EditMessage | lib/store/useChatStore.ts:174-188 | the matching session's matching messages are edited |
| ChatStore.RegenerateEffect | lib/store/useChatStore.ts:191-205 | regenerateMessage empties the matching messages and marks them streaming, keeping their id, role, timestamp, citations and every other field; the others are untouched |
| ChatStore.Store.RegenerateMessage | lib/store/useChatStore.ts:191-205 | the matching session's matching messages are reset |
| ChatStore.WriteMessages | lib/store/useChatStore.ts:150-156 | updateSession(id, { messages }) gives exactly the matching sessions the new list |
| ChatStore.WriteMessagesTwice | lib/store/useChatStore.ts:150-156 | a later message write to a session replaces an earlier one entirely |
| ChatStore.PointerAfterDelete | lib/store/useChatStore.ts:86-96 | the pointer is cleared exactly when it was null or pointed at the deleted id, and otherwise kept |
| ChatStore.RemoveSessionEffect | lib/store/useChatStore.ts:86-96 | after deleteChat no session has the id, every other session is still there, and the survivors keep their order |
| ChatStore.Store.DeleteChat | lib/store/useChatStore.ts:86-96 | the sessions and the pointer are those of RemoveSession and PointerAfterDelete |
| ChatStore.Store.ClearAllChats | lib/store/useChatStore.ts:207-212 | no sessions and a null pointer |
| ChatStore.CurrentSession | lib/store/useChatStore.ts:242-246 | useCurrentSession gives nothing for a null or empty pointer or an unknown id, and otherwise the first session of the store with that id, as `find` returns |
| Persistence.StampOf | lib/store/useChatStore.ts:217-219 | JSON.stringify writes a valid date as an ISO string and an invalid one as null |
| Persistence.Revive | lib/store/useChatStore.ts:226-231 | new Date of an ISO string gives its instant back; only a missing field gives an invalid date |
| Persistence.ReviveStampOf | lib/store/useChatStore.ts:217-231 | a date saved and revived is itself when valid, and the epoch when invalid |
| Persistence.Serialize | lib/store/useChatStore.ts:217-219 | every session is written, in order, with its id, and the pointer is kept |
| Persistence.LoadSession | lib/store/useChatStore.ts:224-233 | a session without a messages key loads with none, and otherwise with one message per stored message |
| Persistence.Deserialize | lib/store/useChatStore.ts:220-236 | missing sessions give the empty list; otherwise one session per stored session, in order, with its id and title |
| Persistence.SessionRoundTrip | lib/store/useChatStore.ts:217-236 | loading a saved session gives it back with its dates normalized |
| Persistence.RoundTrip | lib/store/useChatStore.ts:217-236 | loading the saved state gives every session back in order with every field kept, except that an invalid date comes back as the epoch |
| Persistence.NormalizedValid | lib/store/useChatStore.ts:226-231 | a session whose dates are all valid is unchanged by normalization |
| Persistence.RoundTripExact | lib/store/useChatStore.ts:217-236 | with valid dates throughout, a save followed by a load gives exactly the same sessions |
| Persistence.MissingFieldsLoad | lib/store/useChatStore.ts:226-232 | a stored session without messages and without createdAt loads with no messages and an invalid date |
| Persistence.Rehydrate | lib/store/useChatStore.ts:215-236 | rehydration replaces the store's sessions and pointer with the loaded ones |
| LawyerClient.ReadLine | lib/client.ts:112-125 | only `data: ` lines can emit, and whatever a line emits is truthy |
| LawyerClient.ReadPayload | lib/client.ts:115-122 | a payload stops the chunk exactly when it is "[DONE]"; an emitted value is truthy |
| LawyerClient.ReaderEmitsTruthy | lib/client.ts:119-122 | the transform's line reader emits only truthy content |
| LawyerClient.LinesValuesTruthy | lib/client.ts:112-127 | under a reader that emits only truthy content, every value the lines yield is truthy |
| LawyerClient.LinesValuesStep | lib/client.ts:113-126 | for any line reader: a stop line ends the lines, a skipped line drops out, and an emitted value comes first |
| LawyerClient.TransformLines | lib/client.ts:113-127 | the loop over a chunk's lines enqueues exactly the values they emit, in order, and returns at the first stop line, for any line reader |
| LawyerClient.TransformChunk | lib/client.ts:111-128 | the transform's loop enqueues exactly the values of the chunk's lines up to the first "[DONE]" |
| LawyerClient.HasStopTail | lib/client.ts:113-116 | past a first line that does not stop, the rest has a stop line iff the whole does |
| LawyerClient.LinesValuesConcat | lib/client.ts:113-127 | lines are processed in order: without a stop line in the first part, the values of the parts are concatenated |
| LawyerClient.LinesValuesAfterStop | lib/client.ts:116 | after a stop line, the later lines emit nothing |
| LawyerClient.ReadDataLine | lib/client.ts:114-115 | a `data: ` line hands its trimmed payload on |
| LawyerClient.ReadTrimmedDataLine | lib/client.ts:114-115 | a payload without surrounding white space is handed on as it is |
| LawyerClient.DoneLineStops | lib/client.ts:114-116 | the line "data: [DONE]" stops the transform |
| LawyerClient.DoneEndsChunk | lib/client.ts:116 | whatever follows a "[DONE]" line emits nothing |
| LawyerClient.SkippedLine | lib/client.ts:114-125 | a line that is not a `data: ` line, or whose payload does not parse, is skipped, and the lines after it are still read |
| LawyerClient.PayloadTrimmed | lib/client.ts:115 | white space around a payload makes no difference |
| LawyerClient.RequestBodyShape | lib/client.ts:62-84 | the body has exactly the keys model, messages, temperature, max_tokens, stream, attachments, and jurisdiction iff one is given; model, temperature and max_tokens are the settings'; each message is exactly its role name and content, in order; stream is true unless given; the attachments are the given ones, none by default; the jurisdiction is the given one |
| LawyerClient.RoleNamesDistinct | lib/client.ts:78 | each role is sent under a name of its own |
| LawyerClient.ReplyContent | lib/client.ts:99 | the reply's message content when it is truthy, otherwise the empty string; never another falsy value |
| LawyerClient.SendOutcome | lib/client.ts:86-106 | a rejected fetch fails with its error; a non-ok status fails with "HTTP status: text"; a missing body fails with "No response body"; without streaming the whole body is parsed, a parse failure or a `null` reply throws, and otherwise the single value is the reply content; with streaming the body's chunks are handed on as the network delivers them |
| LawyerClient.AbortController.constructor | lib/client.ts:68 | a fresh controller is not aborted |
| LawyerClient.AbortController.Abort | lib/client.ts:218-220 | abort sets the signal's flag |
| LawyerClient.ChatClient.constructor | lib/client.ts:19-21 | the client keeps its settings and has no controller |
| LawyerClient.ChatClient.UpdateSettings | lib/client.ts:23-25 | the settings are replaced |
| LawyerClient.ChatClient.BeginSendChat | lib/client.ts:62-85 | each call installs a fresh, non-aborted controller and posts the request body |
| LawyerClient.ChatClient.Abort | lib/client.ts:218-220 | the controller of the latest call, if any, is aborted |
| LawyerClient.ChatClient.CancelAsWritten | lib/client.ts:164-166 | as written, cancelling the returned stream leaves the call's controller as it was, because `this` there is the underlying-source object |
| LawyerClient.CancelLeavesCallRunning | lib/client.ts:164-166 | a call in flight whose stream is cancelled stays un-aborted as written, and is aborted by the intended cancel, the client's `abort()` |
| LawyerClient.PumpAsWritten | lib/client.ts:133-162 | as written, with an abort test that never fires: at most one value per read; the stream stays open iff every read gave a value, and errors iff the first read without a value rejected with an error other than an AbortError |
| LawyerClient.Pump | lib/client.ts:136-160 | as intended, where a read that settles with the call aborted closes the stream: open iff every read gave a value before any abort, and errors iff the first read without a value, before any abort, rejected with another error than an AbortError |
| LawyerClient.PumpStopsAtAbort | lib/client.ts:138-151 | with the intended abort test, a pump that observes the abort closes and delivers exactly the values read before it |
| LawyerClient.ValuesBeforeShift | lib/client.ts:138-151 | dropping a first step that read a value drops that value from the front |
| LawyerClient.PumpsAgreeWithoutAbort | lib/client.ts:136-160 | without an abort, the pump as written and the intended pump deliver the same values and end the same way |
| LawyerClient.PumpsAgreeWithSharedSignal | lib/client.ts:85-160 | `abort()` also aborts the fetch, which shares the controller's signal, so the first read settling after it rejects with an AbortError; the pump as written then delivers the same values and ends the same way as the intended one |
| LawyerClient.PumpAsWrittenClosesAtAbort | lib/client.ts:85-160 | once the call is aborted, the stream as written closes, having delivered exactly the values read before the abort |
| LawyerClient.HealthOf | lib/client.ts:30-56 | health is ok iff some URL gives a usable ok answer; when not ok there are no capabilities |
| LawyerClient.Health | lib/client.ts:27-60 | the probe loop's answer is HealthOf over "/health" and then the base URL |
| LawyerClient.HealthPrefersHealthPath | lib/client.ts:30-49 | a usable answer from "/health" wins with its capabilities (or ["chat"]), and the base URL is consulted only when that probe is unusable |
| LawyerClient.UploadOutcome | lib/client.ts:170-194 | a non-ok status fails with "Upload failed: HTTP status"; a reply that is not JSON or is `null` throws; otherwise a string id is kept, and a truthy name, mime or size is kept while an absent or falsy one falls back to the file's |
| LawyerClient.TranscribeOutcome | lib/client.ts:196-216 | a non-ok status fails with "Transcription failed: HTTP status"; a reply that is not JSON or is `null` throws; otherwise a non-empty text is returned, and "" when the text is absent or falsy |
| LawyerClient.Chars | lib/client.ts:253-255 | the mock's one-character tokens, one per character, in order |
| LawyerClient.CharsConcat | lib/client.ts:253-255 | joining the mock's one-character tokens gives its text back |
| LawyerClient.CharsSnoc | lib/client.ts:253-255 | one more tick adds the next character's token |
| LawyerClient.ConcatAppend | components/app/chat-canvas-fixed.tsx:96-104 | accumulating one more token appends it to the text read so far |
| LawyerClient.MockClient.constructor | lib/client.ts:228-229 | the mock starts with no controller, no interval, and no stream |
| LawyerClient.MockClient.SendChat | lib/client.ts:239-246 | a new stream starts at index 0 with nothing enqueued and an interval set |
| LawyerClient.MockClient.Tick | lib/client.ts:246-260 | a tick enqueues the next character while there is one, and otherwise closes and clears the interval; a cleared interval fires no more |
| LawyerClient.MockClient.Abort | lib/client.ts:286-291 | abort clears the interval |
| LawyerClient.MockDeliversReply | lib/client.ts:240-260 | a closed mock stream has delivered the whole canned reply, one character per token |
| CompletionsRoute.ReadParams | app/api/v1/chat/completions/route.ts:5-6 | a null body throws; model defaults to "gpt-4" and stream to true when the key is absent, and a present key is taken as given |
| CompletionsRoute.StreamFrames | app/api/v1/chat/completions/route.ts:21-66 | the stream has one frame per character, then the final frame, and ends with the "[DONE]" frame |
| CompletionsRoute.RunStream | app/api/v1/chat/completions/route.ts:22-64 | the interval callback, run to completion, enqueues exactly StreamFrames |
| CompletionsRoute.Post | app/api/v1/chat/completions/route.ts:3-103 | a body that is not JSON or is null gives the 500 reply; a truthy stream (the default) gives the event stream of the mock text; otherwise the whole reply with status 200 |
| CompletionsRoute.StreamsByDefault | app/api/v1/chat/completions/route.ts:6-9 | a request that does not mention stream is answered with the event stream |
| CompletionsRoute.SplitFrame | app/api/v1/chat/completions/route.ts:42 | a frame splits at its line feeds into its line and two empty pieces |
| CompletionsRoute.FrameChunk | app/api/v1/chat/completions/route.ts:42 | a frame arriving as one chunk yields what its data line yields |
| CompletionsRoute.FrameValues | app/api/v1/chat/completions/route.ts:42-59 | a frame of an object yields the object's truthy delta content |
| CompletionsRoute.ChunkContent | app/api/v1/chat/completions/route.ts:26-40 | the content a chunk carries is its delta's content |
| CompletionsRoute.DeltaFrameValues | app/api/v1/chat/completions/route.ts:25-43 | each delta frame yields exactly its character |
| CompletionsRoute.FinalFrameValues | app/api/v1/chat/completions/route.ts:45-59 | the final frame has an empty delta and yields nothing |
| CompletionsRoute.DoneFrameValues | app/api/v1/chat/completions/route.ts:60 | the "[DONE]" frame yields nothing |
| CompletionsRoute.FramesValuesConcat | app/api/v1/chat/completions/route.ts:21-66 | the values of frames arriving one per chunk concatenate |
| CompletionsRoute.CharValues | app/api/v1/chat/completions/route.ts:35 | one content value per character, in order |
| CompletionsRoute.CharFramesValues | app/api/v1/chat/completions/route.ts:25-43 | frames that each yield one character yield the text's characters in order |
| CompletionsRoute.StreamRoundTrip | app/api/v1/chat/completions/route.ts:21-66 | when each frame reaches the client's transform as its own chunk, the transform emits exactly the characters of the text, in order, whatever the model and clock |
| CompletionsRoute.WholeReplyRoundTrip | app/api/v1/chat/completions/route.ts:78-98 | the whole reply, however it is cut into chunks, read by the client's non-streaming path gives its fixed content as the single value |
| CompletionsRoute.ReplyJsonContent | app/api/v1/chat/completions/route.ts:78-98 | the mock completion is a JSON object whose first choice's message content is the fixed mock text |
| ChatCanvasFixed.FinalContent | components/app/chat-canvas-fixed.tsx:112-126 | after a normal end, all tokens joined; after an AbortError, the stop text; after another error, the failure text |
| ChatCanvasFixed.Exchange | components/app/chat-canvas-fixed.tsx:83-114 | the written list is the snapshot, the user message, and the assistant message with the given content and streaming flag |
| ChatCanvasFixed.ExchangeStart | components/app/chat-canvas-fixed.tsx:61-85 | the first write is the snapshot followed by the user message and the empty streaming placeholder |
| ChatCanvasFixed.Retarget | components/app/chat-canvas-fixed.tsx:142-176 | the messages with the id get the content and flag; the others are kept, in order |
| ChatCanvasFixed.MarkStopped | components/app/chat-canvas-fixed.tsx:37-43 | the streaming message keeps its text plus "\n\n[Generation stopped]" and stops streaming; the others are kept |
| ChatCanvasFixed.JurisdictionLabelOnlyUS | components/app/chat-canvas-fixed.tsx:228 | the empty state renames a jurisdiction exactly when it is "US" |
| ChatCanvasFixed.IndexOfMessage | components/app/chat-canvas-fixed.tsx:135-136 | findIndex gives the first message with the id, or none when no message has it |
| ChatCanvasFixed.ReadStream | components/app/chat-canvas-fixed.tsx:96-109 | the read loop ends with all tokens joined, and the store holds the write for the full text (unchanged when no token came) |
| ChatCanvasFixed.StreamThenSettle | components/app/chat-canvas-fixed.tsx:96-126 | read loop and last write together leave the store as one write of the final content, not streaming |
| ChatCanvasFixed.RegenerateWrites | components/app/chat-canvas-fixed.tsx:142-196 | the regeneration's writes leave the store as one write of the target with the last content, not streaming |
| ChatCanvasFixed.Canvas.constructor | components/app/chat-canvas-fixed.tsx:22 | no message is streaming at first |
| ChatCanvasFixed.Canvas.HandleSendMessage | components/app/chat-canvas-fixed.tsx:58-130 | without a client or a session nothing happens; otherwise the request carries the snapshot and the user message, the session ends with the snapshot, the user message and the reply holding the final content, not streaming, and the streaming id is cleared |
| ChatCanvasFixed.Canvas.HandleRegenerate | components/app/chat-canvas-fixed.tsx:132-200 | nothing happens without a client, a session or a message with the id; otherwise the request carries the messages strictly before it, and the message ends with the final content, not streaming |
| ChatCanvasFixed.Canvas.HandleStopGeneration | components/app/chat-canvas-fixed.tsx:32-46 | only with a client, a streaming id and a session: the call is aborted, the stop suffix is appended to the streaming message and its streaming ends, and the id is cleared |
| ChatCanvasFixed.Canvas.CreateAndSelectSession | components/app/chat-canvas-fixed.tsx:202-212 | always a new session in front, made current, built from the preset or from an empty one |
| ChatCanvas.SnapshotWriteIsSnapshot | components/app/chat-canvas.tsx:96-126 | mapping over the pre-send messages finds no placeholder, so every later write is the pre-send list |
| ChatCanvas.Canvas.constructor | components/app/chat-canvas.tsx:22-23 | not streaming, no streaming id |
| ChatCanvas.Canvas.HandleSendMessage | components/app/chat-canvas.tsx:52-131 | without a client or a session nothing happens; otherwise the two messages are appended with addMessage, the request carries the snapshot and the user message, every later write is the snapshot mapped, and both flags are cleared |
| ChatCanvas.Canvas.HandleRegenerate | components/app/chat-canvas.tsx:133-202 | as in the other canvas, with isStreaming set while reading and cleared on every path |
| ChatCanvas.Canvas.HandleStopGeneration | components/app/chat-canvas.tsx:33-50 | only with a client while streaming: abort and clear both flags, then append the stop suffix to the streaming message when there is a session and a streaming id |
| ChatCanvas.SendRevertsMessages | components/app/chat-canvas.tsx:96-126 | the send handler leaves the session with exactly the pre-send messages, on every path |
| ChatCanvas.FixedSendKeepsExchange | components/app/chat-canvas-fixed.tsx:83-114 | the same send in the other canvas keeps the user message and the finished reply after the pre-send messages |
| Presets.PresetTable | lib/presets.ts:13-134 | the table has six presets |
| Presets.Ids | lib/presets.ts:13-134 | the ids of a table, one per preset, in order |
| Presets.PresetIdsDistinct | lib/presets.ts:13-134 | the ids are the six declared ones, all different |
| Presets.PresetById | lib/presets.ts:136-138 | the first preset with the id, or nothing iff none has it |
| Presets.PresetByOwnId | lib/presets.ts:136-138 | with distinct ids each preset is the one its id finds |
| Presets.GetPresetByIdFindsEach | lib/presets.ts:136-138 | every preset of the table is found by its own id |
| Presets.PresetsOfCategory | lib/presets.ts:140-142 | exactly the presets of the category, from the table |
| Presets.PresetCategories | lib/presets.ts:13-134 | the table's categories in order: contracts, research, compliance, corporate, corporate, litigation |
| Presets.CategoriesPartition | lib/presets.ts:140-142 | the five category lists together have as many presets as the table |
| Presets.Marker | lib/presets.ts:166 | a key is matched as "{{key}}" |
| Presets.Substitutions | lib/presets.ts:145-159 | the jurisdiction first, then the twelve fixed hints, in declared order |
| Presets.SubstituteBoth | lib/presets.ts:161-169 | the forEach rewrites both texts through every substitution in turn |
| Presets.ApplyJurisdictionToPreset | lib/presets.ts:144-176 | id, label, description and category are kept; system and prefill go through the substitutions |
| Presets.NoBraceNoMarker | lib/presets.ts:166 | a marker cannot occur in text without "{" |
| Presets.FreeTextUnchanged | lib/presets.ts:164-169 | text without markers, such as "[describe corporate matter]", goes through unchanged |
| Presets.ReplaceAllFreePrefix | lib/presets.ts:167-168 | a prefix without the marker's first character is kept in front of the replaced rest |
| Presets.SubstituteFreePrefix | lib/presets.ts:164-169 | a prefix without "{" is kept in front of the substituted rest |
| Presets.JurisdictionFilled | lib/presets.ts:146-168 | the first "{{jurisdiction}}" marker becomes the jurisdiction, the text before it is kept, and the rest goes on through the substitutions |
| Sidebar.FilteredSessions | components/app/sidebar.tsx:42 | exactly the sessions whose lowercased title contains the lowercased query |
| Sidebar.EmptyQueryKeepsAll | components/app/sidebar.tsx:42 | an empty query keeps every session |
| Sidebar.FilteredSessionsConcat | components/app/sidebar.tsx:42 | the search keeps the order |
| Sidebar.RenameAcceptedMeaning | components/app/sidebar.tsx:90-94 | an accepted rename stores a trimmed, non-empty title different from the old one; a blank draft, or one equal to the title once trimmed, is refused |
| Sidebar.ChosenJurisdiction | components/app/sidebar.tsx:49 | the current session's jurisdiction unless missing or empty, else "US" |
| Sidebar.JurisdictionName | components/app/sidebar.tsx:50 | "United States" for "US", the code itself otherwise |
| Sidebar.SeedFromPreset | components/app/sidebar.tsx:49-60 | the preset filled for the chosen jurisdiction's name, with that code |
| Sidebar.OfferedPresets | components/app/sidebar.tsx:44-76 | the first three presets of the table in order, or the whole table when it is shorter |
| Sidebar.AppendAllSnoc | components/app/sidebar.tsx:111-119 | one more copied message is one more addMessage |
| Sidebar.AppendAllKeeps | components/app/sidebar.tsx:111-119 | the copies follow the existing messages in order, and the session keeps its id and prompts |
| Sidebar.AppendAllTitle | components/app/sidebar.tsx:111-119 | the title comes from the first copied message when it is the user's, and is kept otherwise |
| Sidebar.AppendToFront | components/app/sidebar.tsx:114-118 | every addMessage for the new id reaches the new session only |
| Sidebar.CopiesShape | components/app/sidebar.tsx:114-118 | each copy keeps role, content, citations and streaming flag, with a fresh id and the current time |
| Sidebar.DuplicateMessages | components/app/sidebar.tsx:104-121 | the duplicate has the original's system prompt and jurisdiction, and its messages are the seeded system message (iff the prompt is non-empty) followed by copies of the non-system messages in order |
| Sidebar.DuplicateTitle | components/app/sidebar.tsx:104-121 | the duplicate's title comes from the first copied message when that is the user's, else "New Chat" |
| Sidebar.SidebarState.constructor | components/app/sidebar.tsx:36-38 | empty query, nobody editing, empty draft |
| Sidebar.SidebarState.HandleStartRename | components/app/sidebar.tsx:85-88 | the draft starts from the session's title |
| Sidebar.SidebarState.HandleSaveRename | components/app/sidebar.tsx:90-97 | the session is renamed to the trimmed draft iff the rename test passes; the draft is always reset |
| Sidebar.SidebarState.HandleCancelRename | components/app/sidebar.tsx:99-102 | the draft is reset and the store untouched |
| Sidebar.SidebarState.HandleNewChatClick | components/app/sidebar.tsx:78-83 | createChat() reuses the first empty chat or puts a new one in front; either way an empty chat becomes current |
| Sidebar.SidebarState.HandlePresetClick | components/app/sidebar.tsx:44-76 | an unknown preset id does nothing; otherwise a new session from the filled preset is put in front and made current, and the delayed navigation searches the list from before it |
| Sidebar.SidebarState.HandleDuplicateChat | components/app/sidebar.tsx:104-123 | the duplicate is put in front and made current |
| AppPage.ClientFor | app/app/page.tsx:88-96 | the live client iff both base URL and API key are non-empty, else the mock |
| AppPage.SelectedIndex | app/app/page.tsx:119 | the first index with the selected id, or -1 iff there is none |
| AppPage.Navigate | app/app/page.tsx:117-131 | a position in the list, and none iff the list is empty; from no selection Up picks the last session and Down the first |
| AppPage.NavigateSteps | app/app/page.tsx:122-126 | from session i, Up goes to i-1 or wraps to the last, Down to i+1 or wraps to the first |
| AppPage.ModShift | app/app/page.tsx:122-126 | an index one step outside the range comes back by adding the length |
| AppPage.SelectedIndexOfOwnId | app/app/page.tsx:119 | with distinct ids the index of a session's own id is its position |
| AppPage.NavigateInverse | app/app/page.tsx:117-131 | with distinct ids, Down then Up, and Up then Down, come back to the session selected before |
| AppPage.PageHandlers | app/app/page.tsx:75-83 | the page supplies focus, new chat and send, no settings toggle, and delete only with a selection |
| AppPage.DeleteTwice | app/app/page.tsx:41-114 | deleting the same id a second time changes nothing more |
| AppPage.Page.constructor | app/app/page.tsx:27 | nothing is selected at first |
| AppPage.Page.SyncSelection | app/app/page.tsx:37-39 | the selection follows the current session, or clears without one |
| AppPage.Page.HandleDeleteSession | app/app/page.tsx:41-47 | the chat is deleted and the selection cleared |
| AppPage.Page.CreateNewSession | app/app/page.tsx:49-64 | as intended: a blank session is put in front and becomes both current and selected |
| AppPage.Page.CreateNewSessionAsWritten | app/app/page.tsx:49-64 | as written: on the loaded, signed-in page with a session shown the composer is mounted and the call throws (its handle has no `clearContent`), and nothing changes; on the loading or sign-in screen, or with no session shown, a blank session is put in front and becomes current and selected |
| AppPage.Page.HandleSessionSelect | app/app/page.tsx:66-73 | the session becomes both current and selected |
| AppPage.Page.HandlePageKey | app/app/page.tsx:98-133 | keys in a field are ignored; Delete with a selection deletes it; the arrows select and make current the session Navigate picks; any other key does nothing |
| AppPage.Page.HandleKeyDown | app/app/page.tsx:75-133 | the shortcut hook acts first and the page's listener second, on every screen; Cmd/Ctrl+k creates a session unless the loaded, signed-in page shows one, and then changes nothing; Delete deletes twice, which ends as one delete; the arrows move the selection |
| Shortcuts.Dispatch | hooks/use-keyboard-shortcuts.ts:21-64 | a fired action was supplied; in a field only Cmd/Ctrl+Enter fires, and only the send handler |
| Shortcuts.DispatchOutsideFields | hooks/use-keyboard-shortcuts.ts:37-63 | outside a field each action fires exactly when its key matches, its handler is supplied and no earlier check matched; send never fires |
| Shortcuts.UnmatchedKeys | hooks/use-keyboard-shortcuts.ts:37-63 | Cmd/Ctrl+Enter outside a field, and an upper-case "K", do nothing |
| Shortcuts.UnsuppliedNeverFires | hooks/use-keyboard-shortcuts.ts:38-59 | an action whose handler is missing never fires |
| Composer.WithTranscription | components/app/composer.tsx:99-102 | the text alone when the draft is empty, else the draft, a space and the text |
| Composer.ComposerState.constructor | components/app/composer.tsx:31 | empty draft, no attachments |
| Composer.ComposerState.HandleSubmit | components/app/composer.tsx:72-80 | sends iff the trimmed draft is non-empty and the composer enabled, handing the trimmed draft and the attachments and emptying both; otherwise nothing changes |
| Composer.ComposerState.HandleKeyDown | components/app/composer.tsx:82-87 | Enter without Shift submits; any other key leaves the state alone |
| Composer.ComposerState.HandleFileUploadComplete | components/app/composer.tsx:89-93 | the upload goes at the end |
| Composer.ComposerState.HandleRemoveAttachment | components/app/composer.tsx:95-97 | every attachment with the id goes |
| Composer.ComposerState.HandleTranscription | components/app/composer.tsx:99-102 | the text joins the draft |
| Composer.ComposerState.ApplyPrefill | components/app/composer.tsx:37-51 | a non-blank prefill replaces the draft; otherwise it is kept |
| Composer.ComposerState.ResetForSession | components/app/composer.tsx:53-59 | with a session, no prefill and an empty draft, the attachments are dropped |
| MessageBubble.DisplayText | components/app/message-bubble.tsx:111 | the content, else "..." iff the empty message is streaming, else nothing |
| MessageBubble.OfferedActions | components/app/message-bubble.tsx:133-188 | in edit mode nothing is offered; otherwise copy always, edit and delete iff the user's, regenerate iff not, disabled while streaming |
| MessageBubble.Bubble.constructor | components/app/message-bubble.tsx:22-23 | not editing, with the content as draft |
| MessageBubble.Bubble.HandleEdit | components/app/message-bubble.tsx:37-40 | edit mode with the content as draft |
| MessageBubble.Bubble.SetEditContent | components/app/message-bubble.tsx:37-40 | the draft is the typed text |
| MessageBubble.Bubble.HandleSaveEdit | components/app/message-bubble.tsx:42-48 | edits iff the trimmed draft differs from the content; edit mode ends either way |
| MessageBubble.Bubble.HandleCancelEdit | components/app/message-bubble.tsx:50-53 | edit mode ends and the draft is restored |
| MessageBubble.Bubble.HandleDelete | components/app/message-bubble.tsx:55-58 | the message's id is deleted from its session |
| MessageBubble.Bubble.HandleRegenerate | components/app/message-bubble.tsx:60-64 | the message's id is requested iff there is a callback |
| MessageBubble.SaveWritesTrimmed | components/app/message-bubble.tsx:42-46 | after an edit the message carries exactly the trimmed draft, keeping id, role and position, and the others are untouched |
| RightPanel.PanelIcon | components/app/right-panel.tsx:26-30 | image iff "image/" prefix; text iff not an image and mentioning "pdf" or "document" |
| RightPanel.RemainingAttachments | components/app/right-panel.tsx:35 | missing attachments count as none; every attachment with the id goes and the others stay |
| RightPanel.HandleRemoveAttachment | components/app/right-panel.tsx:32-37 | nothing without a session; otherwise the session's attachments become the remaining ones |
| RightPanel.AttachmentBadge | components/app/right-panel.tsx:53-57 | the badge shows the count, only when it is positive |
| RightPanel.CitationLists | components/app/right-panel.tsx:108 | each message's citations, missing ones as none |
| RightPanel.CitationsCardIffAny | components/app/right-panel.tsx:98-108 | the card is shown exactly when it has something to list |
| RightPanel.ShownCitationsSnoc | components/app/right-panel.tsx:107-108 | a message added at the end adds its citations at the end |
| FileUpload.Extension | components/file-upload.tsx:40 | a dot followed by the rest |
| FileUpload.ExtensionAfterLastDot | components/file-upload.tsx:40 | the lower-cased text after the last dot |
| FileUpload.ExtensionWithoutDot | components/file-upload.tsx:40 | a name without a dot is its own extension |
| FileUpload.ValidateFile | components/file-upload.tsx:35-46 | too large iff over 10 MiB; unsupported iff within size and the extension is not one of the six; accepted iff both checks pass |
| FileUpload.SizeBoundary | components/file-upload.tsx:20-38 | exactly 10 MiB passes the size check; one byte more does not |
| FileUpload.UpperCaseAccepted | components/file-upload.tsx:40-41 | an upper-case extension is accepted like its lower-case form |
| FileUpload.UploadIcon | components/file-upload.tsx:28-33 | image iff "image/" prefix; text iff not an image and mentioning "pdf", "word" or "document" |
| FileUpload.IconsDifferOnlyOnWord | components/file-upload.tsx:28-33 | the two icon rules differ exactly for a type mentioning "word" but neither "pdf" nor "document" |
| FileUpload.ValidFilesFilter | components/file-upload.tsx:52-61 | collecting the valid files one at a time, in order, is filtering the list by validity |
| FileUpload.Uploader.constructor | components/file-upload.tsx:24 | nothing is uploading |
| FileUpload.Uploader.HandleFileUpload | components/file-upload.tsx:48-84 | exactly the valid files are handed on, in order, and the uploading list ends as it began |
| FileUpload.RemoveFreshId | components/file-upload.tsx:64-79 | removing a fresh id appended to the list gives the list back |
| Jurisdictions.GroupCodes | components/jurisdiction-select.tsx:31-281 | one code per second letter, each the group letter followed by it |
| Jurisdictions.Table | components/jurisdiction-select.tsx:31-281 | codes and names side by side |
| Jurisdictions.AscendingCharsPairwise | components/jurisdiction-select.tsx:31-281 | ascending neighbours make the letters strictly ascending |
| Jurisdictions.GroupCodesDistinct | components/jurisdiction-select.tsx:31-281 | a group's codes are distinct and start with its letter |
| Jurisdictions.CodesOfDistinct | components/jurisdiction-select.tsx:31-281 | ascending group letters with ascending second letters give distinct codes |
| Jurisdictions.CodesOfMember | components/jurisdiction-select.tsx:31-281 | each written code is one of the codes |
| Jurisdictions.CodesDistinct | components/jurisdiction-select.tsx:31-281 | the codes of the table are distinct |
| Jurisdictions.CodeAt | components/jurisdiction-select.tsx:31-281 | a code written in the table is one of its codes |
| Jurisdictions.TopCodesKnown | components/jurisdiction-select.tsx:17-29 | every code of the top list is a code of the table |
| Jurisdictions.Locale | components/jurisdiction-select.tsx:301 | the browser language, or "en-US" when it is empty |
| Jurisdictions.Country | components/jurisdiction-select.tsx:302-305 | a second part, when there is one, is non-empty and has no "-" |
| Jurisdictions.CountryOf | components/jurisdiction-select.tsx:302 | the country of "language-country" and of "language-country-rest" is the country |
| Jurisdictions.CountryWithoutSeparator | components/jurisdiction-select.tsx:302-305 | a locale without "-" names no country |
| Jurisdictions.FindByCode | components/jurisdiction-select.tsx:307 | an entry with the code, or none iff no entry has it |
| Jurisdictions.DetectedCode | components/jurisdiction-select.tsx:300-318 | "US" or a code of the table; any other code is the upper-cased country part |
| Jurisdictions.DetectKnownCountry | components/jurisdiction-select.tsx:305-312 | a known upper-cased country part is selected |
| Jurisdictions.DetectUnknownCountry | components/jurisdiction-select.tsx:305-317 | an unknown country part falls back to "US" |
| Jurisdictions.DetectWithoutCountry | components/jurisdiction-select.tsx:301-317 | no country part, or no language at all, gives "US" |
| Jurisdictions.DetectSecondPartOnly | components/jurisdiction-select.tsx:302 | only the second part counts: "zh-Hant-TW" tries "HANT" |
| Jurisdictions.SelectedData | components/jurisdiction-select.tsx:321 | the entry with the selected code, or none iff no entry has it |
| Jurisdictions.Others | components/jurisdiction-select.tsx:323-325 | exactly the entries whose code is not a top code |
| Jurisdictions.GroupsCoverTable | components/jurisdiction-select.tsx:323-325 | the two lists share no code, and every entry is in one of them |
| Jurisdictions.Selector.constructor | components/jurisdiction-select.tsx:290-291 | nothing selected, closed |
| Jurisdictions.Selector.Detect | components/jurisdiction-select.tsx:294-319 | a given value is selected and not reported; without a browser nothing happens; otherwise the detected code is selected and reported |
| Jurisdictions.Selector.Choose | components/jurisdiction-select.tsx:358-362 | the entry is selected and reported, and the list closes |
| Jurisdictions.Selector.SetOpen | components/jurisdiction-select.tsx:329 | the list opens or closes |
| LocalSettings.Storage.constructor | hooks/use-local-settings.ts:28 | a storage with its items |
| LocalSettings.Merge | hooks/use-local-settings.ts:31-41 | a field the patch sets replaces the settings', an absent one keeps it |
| LocalSettings.MergeIdempotent | hooks/use-local-settings.ts:40-42 | merging a patch twice is merging it once; an empty patch changes nothing |
| LocalSettings.SettingsJson | hooks/use-local-settings.ts:45 | the settings are written as an object with the model, and with capabilities iff present |
| LocalSettings.PatchOf | hooks/use-local-settings.ts:31 | a value that is not an object sets nothing |
| LocalSettings.Loaded | hooks/use-local-settings.ts:26-38 | nothing stored, or an empty text, leaves the defaults |
| LocalSettings.SaveLoadRoundTrip | hooks/use-local-settings.ts:26-45 | saved settings load back as they were; settings without capabilities load with the default ones |
| LocalSettings.PatchOfSettings | hooks/use-local-settings.ts:31-45 | the written object reads back as every field, and the capabilities exactly when written |
| LocalSettings.TextFieldsBack | hooks/use-local-settings.ts:31-45 | the text fields read back as written |
| LocalSettings.NumberFieldsBack | hooks/use-local-settings.ts:31-45 | the numbers read back as written |
| LocalSettings.CapabilitiesBack | hooks/use-local-settings.ts:31-45 | the capabilities read back as written |
| LocalSettings.SettingsHook.constructor | hooks/use-local-settings.ts:23-24 | the defaults, not loaded |
| LocalSettings.SettingsHook.Load | hooks/use-local-settings.ts:26-38 | stored text that parses is spread over the defaults; anything else, or a throwing storage, leaves the settings; loaded afterwards in every case |
| LocalSettings.SettingsHook.Update | hooks/use-local-settings.ts:40-49 | the patch is merged in memory whatever the storage does, and written under "psalm_settings_v1" when it can be |
| LocalSettings.SettingsHook.Reset | hooks/use-local-settings.ts:51-58 | the defaults, and the stored settings are removed when the storage can be written |
| LocalSettings.AdminUnlocked | hooks/use-local-settings.ts:60-63 | false outside a browser; in a browser, unlocked exactly when the stored flag is the text "true" |
| LocalSettings.UpdateKeepsAdminFlag | hooks/use-local-settings.ts:45-63 | saving or removing the settings never changes whether the admin is unlocked |
| AuthStore.LocalPart | lib/store/useAuthStore.ts:30 | the text before the first "@", or the whole email |
| AuthStore.LocalPartOf | lib/store/useAuthStore.ts:30 | the local part of "name@domain" is the name |
| AuthStore.RegisteredName | lib/store/useAuthStore.ts:48 | the given name when non-empty, else the local part |
| AuthStore.Auth.constructor | lib/store/useAuthStore.ts:21-22 | nobody signed in |
| AuthStore.Auth.Login | lib/store/useAuthStore.ts:24-36 | succeeds iff the email is non-empty and the password has at least six UTF-16 code units, then signs in the user named after the local part; a failure changes nothing; the flag stays in step with the user |
| AuthStore.Auth.Register | lib/store/useAuthStore.ts:42-54 | like login, recording the given name when non-empty |
| Text.Utf16Length | lib/store/useAuthStore.ts:26 | `password.length` in UTF-16 code units: between the number of characters and twice it, and equal to it iff every character lies in the Basic Multilingual Plane |
| AuthStore.AstralPasswordAccepted | lib/store/useAuthStore.ts:26 | three characters outside the Basic Multilingual Plane pass the six-unit check, five ASCII letters do not |
| AuthStore.Auth.Logout | lib/store/useAuthStore.ts:38-40 | nobody signed in afterwards |
| AuthStore.RegisterWithoutName | lib/store/useAuthStore.ts:48 | registering without a name records the name a login would |
| AdminPage.ByteHex | app/admin/page.tsx:58 | a byte's text is two lower-case hexadecimal digits whose value is the byte |
| AdminPage.ByteHexDigits | app/admin/page.tsx:58 | `toString(16).padStart(2, "0")` of a byte is its high digit (a padding zero below 16) followed by its low digit |
| AdminPage.UnhexPair | app/admin/page.tsx:57-58 | reading hexadecimal text takes its first two digits as one byte and goes on with the rest |
| AdminPage.Hex | app/admin/page.tsx:57-58 | two hexadecimal digits per byte |
| AdminPage.HexRoundTrip | app/admin/page.tsx:57-58 | reading the digits back gives the bytes |
| AdminPage.HexInjective | app/admin/page.tsx:57-60 | two digests with the same text are the same digest |
| AdminPage.ViewOf | app/admin/page.tsx:31-91 | 404 when disabled; the panel iff enabled and unlocked |
| AdminPage.Admin.constructor | app/admin/page.tsx:17-19 | empty passphrase, locked, settings closed |
| AdminPage.Admin.Mount | app/admin/page.tsx:23-28 | unlocked when the flag is stored as "true", else unchanged |
| AdminPage.Admin.HandleUnlock | app/admin/page.tsx:42-83 | a blank passphrase is refused and kept; otherwise the page unlocks and stores the flag iff the digest's text equals the configured hash and the storage accepts the write; an invalid passphrase iff the digest differs; the passphrase is cleared |
| AdminPage.Admin.HandleLock | app/admin/page.tsx:85-89 | the flag is removed, the page locks and the settings close |
| AdminPage.UnlockThenLock | app/admin/page.tsx:61-86 | after unlock the settings hook reports the admin unlocked; after lock it does not |
| AdminPage.ForeignHashNeverMatches | app/admin/page.tsx:58-60 | a configured hash with a character that is not a lower-case hexadecimal digit never matches |
| VoiceRecorder.FormatDuration | components/voice-recorder.tsx:173-177 | the minutes, a colon, and two second digits |
| VoiceRecorder.LessThanSixtyHasTwoDigits | components/voice-recorder.tsx:175-176 | the seconds take at most two digits |
| VoiceRecorder.LeadingZero | components/voice-recorder.tsx:176 | a padding zero does not change the value |
| VoiceRecorder.DigitsHaveNoColon | components/voice-recorder.tsx:176 | digits contain no colon |
| VoiceRecorder.DurationParts | components/voice-recorder.tsx:173-177 | the shown duration splits at its colon into the minutes and the padded seconds |
| VoiceRecorder.PaddedSeconds | components/voice-recorder.tsx:176 | seconds below 60 are shown as two digits that read back as the seconds |
| VoiceRecorder.FormatDurationRoundTrip | components/voice-recorder.tsx:173-177 | the text reads back as the elapsed seconds, as minutes times 60 plus a two-digit seconds part below 60 |
| VoiceRecorder.Recorder.constructor | components/voice-recorder.tsx:15-26 | not recording, not transcribing, duration 0, no resources |
| VoiceRecorder.Recorder.Start | components/voice-recorder.tsx:52-113 | with microphone access every resource is set up, the chunks are emptied, the duration restarts at 0 and the timer runs; without access nothing changes |
| VoiceRecorder.Recorder.Tick | components/voice-recorder.tsx:95-97 | each tick adds one second |
| VoiceRecorder.Recorder.DataAvailable | components/voice-recorder.tsx:79-83 | only chunks with data are kept, in order |
| VoiceRecorder.Recorder.Stop | components/voice-recorder.tsx:115-142 | the recorder is stopped iff it exists and the closure saw recording; the stream, audio context, timer and animation are released; recording ends with level 0 |
| VoiceRecorder.Recorder.HandleTranscription | components/voice-recorder.tsx:144-171 | a transcript is delivered trimmed iff its trim is non-empty; a failure delivers nothing; the spinner is off afterwards |

## Left out

- Network I/O (`fetch`, `AbortSignal.timeout`, form uploads), `TextDecoderStream` and UTF-8 decoding. The bytes of a response body are taken to be its text.
- Timing and concurrency: interval and timeout pacing, the scheduling of the stream pump, and awaits interleaved between handlers. Each handler reads one `now` and runs to completion.
- The mock client's second `sendChat` while a stream runs overwrites the interval without clearing it; only the latest stream is modelled.
- Tokens that are not strings: a streamed content value that is a non-string JSON value is appended as text in the source; the canvases model string tokens only.
- `JSON.parse`/`JSON.stringify` are an abstract lawful codec, and numbers are reals, so IEEE 754 rounding is not modelled. A temperature or the KB size display are floating point.
- `String.prototype.replace` replacement patterns beginning with `$` are not modelled; none of the substitution values contains one.
- Persistence writes through zustand's `persist`, whose storage wrapper and merge on rehydration are not modelled; the model keeps the stored form structured instead of as text.
- The authentication store's own persistence under "psalm-auth" is not modelled.
- The preset table is built from its template texts as a parameter; the icons of the presets and the flags of the jurisdictions are display text and are not modelled. The jurisdiction names are written with `\U` escapes for their non-ASCII letters.
- The mounted canvas's empty-state `onNewSession` callback does nothing and is not modelled.
- Composer focus, cursor placement, and the 4000-character limit are not modelled.
- Toasts, console output, and the clipboard copy of a message bubble are not modelled.
- SHA-256 (FIPS 180-4) and the text encoder are opaque parameters of `AdminPage.Admin.HandleUnlock`.
- `AdminPage.Admin.Mount`: a storage that throws on mount is not modelled; the effect reads the items as they are.
- `LocalSettings.AdminUnlocked`: a storage that throws propagates the exception in the source; the model has no such case.
- `LawyerClient.UploadOutcome`: a truthy reply field of another JSON type than the expected one (a number as name, a string as size) is replaced by the file's value, and an id that is absent or not a string becomes "", where the source passes the value through; a fractional size is rounded down.
- `LawyerClient.TranscribeOutcome`: a truthy `text` that is not a string gives "", where the source returns the value itself.
- `VoiceRecorder.Recorder.Start`: only the two ends are modelled, access denied (nothing changes) and every step succeeding; a failure after the microphone was granted leaves partial resources in the source. The audio-level average is floating point and the animation loop is not modelled; because the level callback sees the recording flag from before the start, the source requests no animation frame.
- The unmount cleanup of the voice recorder runs `stopRecording` with the recording flag of the first render (false), so it never stops the recorder; `VoiceRecorder.Recorder.Stop` takes that flag as its parameter.
- `LocalSettings.PatchOf`: a stored field of the wrong JSON type is dropped, whereas the source's spread would keep it; keys the settings do not have are not modelled; stored capabilities count only with all three flags.
- `ChatStore.DeriveTitle`: counts characters, while `length` and `slice(0, 50)` count UTF-16 code units, so a message with characters outside the Basic Multilingual Plane is cut later than in the source; a cut that splits a surrogate pair leaves a lone surrogate, which a Dafny string cannot hold.
- `Sidebar.FilteredSessions`: lower-casing maps ASCII letters only, whereas `toLowerCase` maps all of Unicode, so a title "Élan" is not found with the query "é". The same ASCII mapping underlies `FileUpload.Extension` (only ASCII extensions are accepted, so the verdicts agree) and `Jurisdictions.DetectedCode` (region subtags are ASCII).
- Fresh ids from `Math.random` are parameters; the model requires a fresh session id not to be in use, and `FileUpload.Uploader.HandleFileUpload` requires its fresh upload ids not to be in the uploading list; the random source makes both likely but does not guarantee them.
- `LawyerClient.ChatClient.IsStreaming` stays true after a normal end, as in the source; it is a predicate without its own contract.

## Findings

| source | as written | input that shows it | evidently intended | confidence | as-written member | corrected member |
|---|---|---|---|---|---|---|
| components/app/chat-canvas.tsx:96-126 | each token, the final write and the error write map over `session.messages` as it was before the send, which holds neither the user message nor the placeholder | any send to a session the store already holds, e.g. messages [] and one token "Hi": the session ends with no messages | map over the list that holds the user message and the placeholder, as the other canvas does | high, not executed | ChatCanvas.SendRevertsMessages | ChatCanvas.FixedSendKeepsExchange |
| app/app/page.tsx:49-64 | `createNewSession` calls `composerRef.current.clearContent()`, but the composer's handle (components/app/composer.tsx:22-25, 61-70) has only `focus` and `sendMessage`; on the loaded, signed-in page the composer is mounted with that ref whenever a session is shown, so the call throws before `createChat` | on the loaded, signed-in page, any session shown, then Cmd/Ctrl+k or the header's new-session button: no session is created and the selection stays | clear the composer, then create, make current and select a blank session | high, not executed | AppPage.Page.CreateNewSessionAsWritten | AppPage.Page.CreateNewSession |
| lib/client.ts:164-166 | the returned stream's `cancel()` calls `this.abortController?.abort()`, but `this` there is the underlying-source object, which has no `abortController`, so nothing is aborted | a consumer that cancels the stream of a call in flight: the request runs on and the client's controller stays un-aborted; no caller in this repository cancels the stream, so the defect is latent | cancelling aborts the call, as the client's `abort()` does | medium, not executed | LawyerClient.ChatClient.CancelAsWritten | LawyerClient.ChatClient.Abort |
